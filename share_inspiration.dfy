/** The share-inspiration modal (`ShareInspirationModal`): collect photos, links and colours in
    one list by one of three methods, remove entries by position, add notes and share. */
module ShareInspiration {
  import opened Wrappers
  import Seqs
  import Text

  datatype UploadType = Photo | Link | Colour

  /** The twelve swatches of the colour grid. */
  const Palette: seq<string> := ["#1a1a1a", "#4a4a4a", "#7a7a7a", "#b8860b", "#8b4513", "#a0522d",
                                 "#2f4f4f", "#191970", "#4b0082", "#800020", "#228b22", "#dc143c"]

  /** `Image_${n + 1}.jpg` for a list of `n` items. */
  function ImageName(n: nat): (r: string)
    ensures Text.IsPrefix("Image_", r) && r != ""
    ensures |r| >= 11
  {
    "Image_" + Text.NatToString(n + 1) + ".jpg"
  }

  /** The names of two uploads differ exactly when the list lengths they were made for do. */
  lemma ImageNameInjective(m: nat, n: nat)
    ensures ImageName(m) == ImageName(n) <==> m == n
  {
    if ImageName(m) == ImageName(n) {
      var a, b := Text.NatToString(m + 1), Text.NatToString(n + 1);
      assert ImageName(m) == "Image_" + a + ".jpg";
      assert a == ImageName(m)[6..|ImageName(m)| - 4];
      assert b == ImageName(n)[6..|ImageName(n)| - 4];
      Text.ParseNatToString(m + 1);
      Text.ParseNatToString(n + 1);
    }
  }

  /** The Share button's `disabled`: no items and notes that are blank. */
  predicate ShareDisabled(items: seq<string>, notes: string) {
    |items| == 0 && Text.Trim(notes) == ""
  }

  lemma ShareDisabledIffEmpty(items: seq<string>, notes: string)
    ensures ShareDisabled(items, notes) <==> |items| == 0 && Text.Blank(notes)
  {
    Text.TrimEmptyIffBlank(notes);
  }

  class Modal {
    var uploadType: Option<UploadType>
    var uploadedItems: seq<string>
    var linkUrl: string
    var notes: string
    var submitted: bool

    /** Every entry is an upload name, a link that was not empty, or a swatch. */
    ghost predicate Valid()
      reads this
    {
      forall k :: 0 <= k < |uploadedItems| ==> uploadedItems[k] != ""
    }

    constructor ()
      ensures Valid()
      ensures uploadType == None && uploadedItems == [] && linkUrl == "" && notes == "" && !submitted
    {
      uploadType := None;
      uploadedItems := [];
      linkUrl := "";
      notes := "";
      submitted := false;
    }

    /** One of the three method buttons, shown while no method is chosen. */
    method ChooseMethod(t: UploadType)
      requires Valid() && uploadType == None && !submitted
      modifies this
      ensures Valid()
      ensures uploadType == Some(t)
      ensures uploadedItems == old(uploadedItems) && linkUrl == old(linkUrl) && notes == old(notes)
      ensures submitted == old(submitted)
    {
      uploadType := Some(t);
    }

    /** "Change method": back to the method buttons; the list is kept. */
    method ChangeMethod()
      requires Valid() && uploadType.Some? && !submitted
      modifies this
      ensures Valid()
      ensures uploadType == None
      ensures uploadedItems == old(uploadedItems) && linkUrl == old(linkUrl) && notes == old(notes)
      ensures submitted == old(submitted)
    {
      uploadType := None;
    }

    /** `handleFileUpload`: a simulated photo named after the list's new length. */
    method UploadFile()
      requires Valid() && uploadType == Some(Photo) && !submitted
      modifies this
      ensures Valid()
      ensures uploadedItems == old(uploadedItems) + [ImageName(|old(uploadedItems)|)]
      ensures uploadType == old(uploadType) && linkUrl == old(linkUrl) && notes == old(notes)
      ensures submitted == old(submitted)
    {
      uploadedItems := uploadedItems + [ImageName(|uploadedItems|)];
    }

    /** Typing in the link box. */
    method SetLinkUrl(text: string)
      requires Valid() && uploadType == Some(Link) && !submitted
      modifies this
      ensures Valid()
      ensures linkUrl == text
      ensures uploadType == old(uploadType) && uploadedItems == old(uploadedItems) && notes == old(notes)
      ensures submitted == old(submitted)
    {
      linkUrl := text;
    }

    /** "Add Link": a non-empty link is appended and the box cleared; an empty one does nothing. */
    method AddLink()
      requires Valid() && uploadType == Some(Link) && !submitted
      modifies this
      ensures Valid()
      ensures old(linkUrl) != "" ==> uploadedItems == old(uploadedItems) + [old(linkUrl)] && linkUrl == ""
      ensures old(linkUrl) == "" ==> uploadedItems == old(uploadedItems) && linkUrl == ""
      ensures uploadType == old(uploadType) && notes == old(notes) && submitted == old(submitted)
    {
      if linkUrl != "" {
        uploadedItems := uploadedItems + [linkUrl];
        linkUrl := "";
      }
    }

    /** A swatch of the colour grid: its code is appended, even when already listed. */
    method PickColour(colour: string)
      requires Valid() && uploadType == Some(Colour) && colour in Palette && !submitted
      modifies this
      ensures Valid()
      ensures uploadedItems == old(uploadedItems) + [colour]
      ensures uploadType == old(uploadType) && linkUrl == old(linkUrl) && notes == old(notes)
      ensures submitted == old(submitted)
    {
      uploadedItems := uploadedItems + [colour];
    }

    /** The remove button of the entry at `index`, listed under any method. */
    method Remove(index: nat)
      requires Valid() && uploadType.Some? && index < |uploadedItems| && !submitted
      modifies this
      ensures Valid()
      ensures uploadedItems == Seqs.RemoveAt(old(uploadedItems), index)
      ensures multiset(uploadedItems) + multiset{old(uploadedItems)[index]} == multiset(old(uploadedItems))
      ensures uploadType == old(uploadType) && linkUrl == old(linkUrl) && notes == old(notes)
      ensures submitted == old(submitted)
    {
      Seqs.RemoveAtMultiset(uploadedItems, index);
      uploadedItems := Seqs.RemoveAt(uploadedItems, index);
    }

    /** Typing in the notes box. */
    method SetNotes(text: string)
      requires Valid() && !submitted
      modifies this
      ensures Valid()
      ensures notes == text
      ensures uploadType == old(uploadType) && uploadedItems == old(uploadedItems)
      ensures linkUrl == old(linkUrl) && submitted == old(submitted)
    {
      notes := text;
    }

    /** `handleSubmit` from an enabled Share button. */
    method Submit()
      requires Valid() && !submitted && !ShareDisabled(uploadedItems, notes)
      modifies this
      ensures Valid()
      ensures submitted
      ensures uploadType == old(uploadType) && uploadedItems == old(uploadedItems)
      ensures linkUrl == old(linkUrl) && notes == old(notes)
    {
      submitted := true;
    }
  }

  /** Upload names follow the list length, so after a removal the next upload repeats a name. */
  method UploadNamesCanRepeat() returns (items: seq<string>)
    ensures items == [ImageName(1), ImageName(1)]
    ensures items[0] == items[1]
  {
    var m := new Modal();
    m.ChooseMethod(Photo);
    m.UploadFile();
    m.UploadFile();
    m.Remove(0);
    m.UploadFile();
    items := m.uploadedItems;
  }
}
