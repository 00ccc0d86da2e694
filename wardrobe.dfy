/** The wardrobe screen (`MyWardrobe`): the shoe list filtered by occasion, and the life-coverage
    categories, one of which can be expanded to show its gaps. */
module Wardrobe {
  import opened Wrappers
  import Seqs
  import ShoeCard

  /** The filter chips besides "all". */
  const Categories: seq<string> := ["work", "weekend", "evening", "travel"]

  /** `shoe => shoe.occasions.includes(category)` */
  function WornFor(category: string): ShoeCard.Shoe -> bool {
    (shoe: ShoeCard.Shoe) => category in shoe.occasions
  }

  /** `filteredShoes`: every shoe for "all", otherwise those worn for the category. */
  function FilteredShoes(shoes: seq<ShoeCard.Shoe>, category: string): (r: seq<ShoeCard.Shoe>)
    ensures category == "all" ==> r == shoes
    ensures category != "all" ==>
              (forall k :: 0 <= k < |r| ==> category in r[k].occasions && r[k] in shoes)
              && (forall k :: 0 <= k < |shoes| && category in shoes[k].occasions ==> shoes[k] in r)
  {
    if category == "all" then shoes else Seqs.Filter(shoes, WornFor(category))
  }

  /** A category's list holds each of its shoes as often as the wardrobe does, and no other. */
  lemma FilteredShoesCounts(shoes: seq<ShoeCard.Shoe>, category: string, s: ShoeCard.Shoe)
    requires category != "all"
    ensures multiset(FilteredShoes(shoes, category))[s] ==
              if category in s.occasions then multiset(shoes)[s] else 0
  {
    Seqs.FilterCounts(shoes, WornFor(category), s);
  }

  /** Choosing a category twice in a row shows the same list as choosing it once. */
  lemma FilterTwice(shoes: seq<ShoeCard.Shoe>, category: string)
    ensures FilteredShoes(FilteredShoes(shoes, category), category) == FilteredShoes(shoes, category)
  {
    if category != "all" {
      Seqs.FilterIdempotent(shoes, WornFor(category));
    }
  }

  // ---------------------------------------------------------------- life coverage

  datatype Coverage = Coverage(category: string, percentage: int, gaps: nat)

  datatype Colour = Green | Amber | Red

  /** The coverage bar's colour: green from 80, amber from 60, red below. */
  function CoverageColour(percentage: int): (c: Colour)
    ensures c == Green <==> percentage >= 80
    ensures c == Amber <==> 60 <= percentage < 80
    ensures c == Red <==> percentage < 60
  {
    if percentage >= 80 then Green else if percentage >= 60 then Amber else Red
  }

  function ColourRank(c: Colour): int {
    match c
    case Red => 0
    case Amber => 1
    case Green => 2
  }

  /** More coverage never gives a worse colour. */
  lemma CoverageColourMonotone(p: int, q: int)
    requires p <= q
    ensures ColourRank(CoverageColour(p)) <= ColourRank(CoverageColour(q))
  {
  }

  datatype Icon = Briefcase | Coffee | Moon | Plane | Calendar

  /** `getCategoryIcon` */
  function CategoryIcon(category: string): (i: Icon)
    ensures i == Calendar <==> category !in Categories
  {
    match category
    case "work" => Briefcase
    case "weekend" => Coffee
    case "evening" => Moon
    case "travel" => Plane
    case _ => Calendar
  }

  /** The expand toggle: the expanded card collapses, another card expands in its place. */
  function Toggled(expanded: Option<string>, category: string): (r: Option<string>)
    ensures expanded == Some(category) ==> r == None
    ensures expanded != Some(category) ==> r == Some(category)
  {
    if expanded == Some(category) then None else Some(category)
  }

  /** The gap recommendations of a category show only when it is expanded and has gaps. */
  predicate ShowsGaps(c: Coverage, expanded: Option<string>) {
    expanded == Some(c.category) && c.gaps > 0
  }

  /** Categories are distinct in the coverage data. */
  predicate DistinctCategories(cs: seq<Coverage>) {
    forall i, j :: 0 <= i < j < |cs| ==> cs[i].category != cs[j].category
  }

  /** At most one category lists its gaps at a time. */
  lemma GapsForOneCategory(cs: seq<Coverage>, expanded: Option<string>, i: nat, j: nat)
    requires DistinctCategories(cs) && i < |cs| && j < |cs|
    requires ShowsGaps(cs[i], expanded) && ShowsGaps(cs[j], expanded)
    ensures i == j
  {
  }

  class Screen {
    const shoes: seq<ShoeCard.Shoe>
    var selectedCategory: string
    var expandedCategory: Option<string>

    ghost predicate Valid()
      reads this
    {
      selectedCategory == "all" || selectedCategory in Categories
    }

    function Listed(): seq<ShoeCard.Shoe>
      reads this
    {
      FilteredShoes(shoes, selectedCategory)
    }

    /** The screen opens on "all", every card collapsed. */
    constructor (wardrobe: seq<ShoeCard.Shoe>)
      ensures Valid()
      ensures shoes == wardrobe && selectedCategory == "all" && expandedCategory == None
      ensures Listed() == wardrobe
    {
      shoes := wardrobe;
      selectedCategory := "all";
      expandedCategory := None;
    }

    /** A filter chip, "all" or one of the categories. */
    method SelectCategory(category: string)
      requires Valid() && (category == "all" || category in Categories)
      modifies this
      ensures Valid()
      ensures selectedCategory == category && expandedCategory == old(expandedCategory)
    {
      selectedCategory := category;
    }

    /** A coverage card's header button. */
    method ClickCoverage(category: string)
      requires Valid()
      modifies this
      ensures Valid()
      ensures expandedCategory == Toggled(old(expandedCategory), category)
      ensures selectedCategory == old(selectedCategory)
    {
      expandedCategory := if expandedCategory == Some(category) then None else Some(category);
    }
  }
}
