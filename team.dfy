/** The team screen (`MyTeam`): a card per team member, clicking one expands it and opens its
    detail panel, clicking it again closes both. */
module Team {
  import opened Wrappers
  import Seqs
  import Text

  datatype Member = Member(id: string, name: string, role: string, responseTime: string)

  /** The team, in display order; the first member is the default recipient of messages. */
  const TeamData: seq<Member> := [
    Member("rebecca", "Rebecca Thompson", "Pattern Maker", "2 hours"),
    Member("david", "David Chen", "Master Craftsman", "4 hours"),
    Member("simon", "Simon Martinez", "Finishing Expert", "3 hours")]

  function IdOf(m: Member): string { m.id }

  /** `name.split(' ')[0]`: the text before the first space. */
  function FirstName(name: string): (r: string)
    ensures ' ' !in r
    ensures |r| <= |name| && r == name[..|r|]
    ensures |r| < |name| ==> name[|r|] == ' '
  {
    Text.SplitFirst(name, ' ');
    Text.Split(name, ' ')[0]
  }

  /** A name of a first word, a space and the rest has that word as its first name. */
  lemma FirstNameOfFullName(first: string, rest: string)
    requires ' ' !in first
    ensures FirstName(first + " " + rest) == first
  {
    var t := " " + rest;
    assert Text.Split(t, ' ')[0] == "";
    Text.SplitPrefixWord(first, t, ' ');
    assert first + " " + rest == first + t;
  }

  /** `handleMemberClick`: the selected member's card closes, any other card opens. */
  function Clicked(selected: Option<string>, memberId: string): (r: Option<string>)
    ensures selected == Some(memberId) ==> r == None
    ensures selected != Some(memberId) ==> r == Some(memberId)
  {
    if selected == Some(memberId) then None else Some(memberId)
  }

  /** Clicking a card twice leaves it open if it started open, and closed otherwise: the previous
      selection of another card is not restored. */
  lemma ClickTwice(selected: Option<string>, memberId: string)
    ensures Clicked(Clicked(selected, memberId), memberId) ==
              if selected == Some(memberId) then Some(memberId) else None
  {
  }

  /** The cards drawn with `isExpanded`. */
  function ExpandedCards(team: seq<Member>, selected: Option<string>): (r: seq<Member>)
    ensures forall k :: 0 <= k < |r| ==> Some(r[k].id) == selected && r[k] in team
    ensures forall k :: 0 <= k < |team| && Some(team[k].id) == selected ==> team[k] in r
  {
    Seqs.Filter(team, Selects(selected))
  }

  /** `member.id === selectedMember` */
  function Selects(selected: Option<string>): Member -> bool {
    (m: Member) => Some(m.id) == selected
  }

  /** Member ids are distinct. */
  predicate DistinctIds(team: seq<Member>) {
    forall i, j :: 0 <= i < j < |team| ==> team[i].id != team[j].id
  }

  lemma {:induction false} ExpandedAtMostOne(team: seq<Member>, selected: Option<string>)
    requires DistinctIds(team)
    ensures |ExpandedCards(team, selected)| <= 1
    decreases |team|
  {
    if |team| > 0 {
      var rest := team[1..];
      assert DistinctIds(rest);
      ExpandedAtMostOne(rest, selected);
      if Some(team[0].id) == selected {
        forall k | 0 <= k < |rest| ensures !Selects(selected)(rest[k]) {
          assert rest[k] == team[k + 1];
        }
        Seqs.FilterNone(rest, Selects(selected));
      }
    }
  }

  lemma TeamIdsDistinct()
    ensures DistinctIds(TeamData)
  {
  }

  /** The member the detail panel shows: `teamData.find(m => m.id === selectedMember)`. */
  function Detail(team: seq<Member>, selected: Option<string>): (r: Option<Member>)
    ensures r.Some? <==> selected.Some? && exists k :: 0 <= k < |team| && team[k].id == selected.value
    ensures r.Some? ==> r.value in team && r.value.id == selected.value
  {
    if selected.None? then None
    else
      var i := Seqs.FindIndex(team, IdOf, selected.value);
      if i == -1 then None else Some(team[i])
  }

  class Screen {
    const team: seq<Member>
    var selectedMember: Option<string>

    constructor (members: seq<Member>)
      ensures team == members && selectedMember == None
    {
      team := members;
      selectedMember := None;
    }

    /** A card's click handler. */
    method MemberClick(memberId: string)
      modifies this
      ensures selectedMember == Clicked(old(selectedMember), memberId)
    {
      selectedMember := if selectedMember == Some(memberId) then None else Some(memberId);
    }
  }

  /** Opening David's card shows his panel and his first name; a second click closes it. */
  method OpenAndCloseDavid() returns (shown: Option<Member>, first: string, after: Option<Member>)
    ensures shown == Some(TeamData[1]) && first == "David" && after == None
  {
    var s := new Screen(TeamData);
    s.MemberClick("david");
    shown := Detail(s.team, s.selectedMember);
    assert shown.value.name == "David" + " " + "Chen";
    FirstNameOfFullName("David", "Chen");
    first := FirstName(shown.value.name);
    s.MemberClick("david");
    after := Detail(s.team, s.selectedMember);
  }
}
