/** The fit-feedback modal (`FitFeedbackModal`): pick one of the first four wardrobe shoes, say
    whether it fits, list the issues or add comments, and submit. */
module FitFeedback {
  import opened Wrappers
  import Seqs
  import Text

  datatype Status = Perfect | Issues

  /** The ids of the issue buttons. */
  const CommonIssues: seq<string> := ["tight-toe", "loose-heel", "arch-support", "width", "pressure-points", "other"]

  /** How many wardrobe shoes the picker offers. */
  const Offered := 4

  /** `id => id !== issueId` */
  function Differs(issueId: string): string -> bool {
    id => id != issueId
  }

  /** `toggleIssue`: drop the id when listed, append it otherwise. */
  function Toggle(issues: seq<string>, issueId: string): (r: seq<string>)
    ensures forall x :: x in r <==> (x in issues <==> x != issueId)
    ensures issueId !in issues ==> r == issues + [issueId]
    ensures Seqs.Distinct(issues) ==> Seqs.Distinct(r)
  {
    if issueId in issues then
      RemovalKeepsDistinct(issues, issueId);
      Seqs.Filter(issues, Differs(issueId))
    else issues + [issueId]
  }

  lemma RemovalKeepsDistinct(issues: seq<string>, issueId: string)
    ensures Seqs.Distinct(issues) ==> Seqs.Distinct(Seqs.Filter(issues, Differs(issueId)))
  {
    if Seqs.Distinct(issues) {
      Seqs.DistinctMultiset(issues, Seqs.Filter(issues, Differs(issueId)));
    }
  }

  /** Removing an id that was just appended gives the list back. */
  lemma {:induction false} FilterAppended(issues: seq<string>, issueId: string)
    requires issueId !in issues
    ensures Seqs.Filter(issues + [issueId], Differs(issueId)) == issues
    decreases |issues|
  {
    if |issues| > 0 {
      assert (issues + [issueId])[1..] == issues[1..] + [issueId];
      FilterAppended(issues[1..], issueId);
    } else {
      assert Seqs.Filter([issueId], Differs(issueId)) == [];
    }
  }

  /** Toggling an unlisted issue twice restores the list exactly. */
  lemma ToggleTwiceRestores(issues: seq<string>, issueId: string)
    requires issueId !in issues
    ensures Toggle(Toggle(issues, issueId), issueId) == issues
  {
    FilterAppended(issues, issueId);
  }

  /** Toggling any issue twice restores which issues are listed. */
  lemma ToggleTwiceSameIssues(issues: seq<string>, issueId: string, x: string)
    ensures x in Toggle(Toggle(issues, issueId), issueId) <==> x in issues
  {
  }

  /** A listed issue toggled twice moves to the end: the order is not restored. */
  lemma ToggleTwiceReorders()
    ensures Toggle(Toggle(["tight-toe", "width"], "tight-toe"), "tight-toe") == ["width", "tight-toe"]
  {
    assert "tight-toe" in ["tight-toe", "width"];
    assert Seqs.Filter(["tight-toe", "width"], Differs("tight-toe")) == ["width"] by {
      assert ["tight-toe", "width"][1..] == ["width"];
      assert Seqs.Filter(["width"], Differs("tight-toe")) == ["width"] by {
        assert ["width"][1..] == [];
      }
    }
  }

  /** The parts of the modal; the component renders each under its own condition. */
  datatype Section = ThankYou | ShoePicker | FitChoice | PerfectForm | IssuesForm

  /** The sections rendered for a state (`submitted` returns early with the thank-you view). */
  function Sections(submitted: bool, selectedShoe: string, status: Option<Status>): (r: set<Section>)
    ensures submitted ==> r == {ThankYou}
    ensures !submitted ==> (ShoePicker in r <==> selectedShoe == "")
    ensures !submitted ==> (FitChoice in r <==> selectedShoe != "" && status.None?)
    ensures !submitted ==> (PerfectForm in r <==> status == Some(Perfect))
    ensures !submitted ==> (IssuesForm in r <==> status == Some(Issues))
    ensures !submitted ==> ThankYou !in r
  {
    if submitted then {ThankYou}
    else (if selectedShoe == "" then {ShoePicker} else {})
         + (if selectedShoe != "" && status.None? then {FitChoice} else {})
         + (if status == Some(Perfect) then {PerfectForm} else {})
         + (if status == Some(Issues) then {IssuesForm} else {})
  }

  /** Once a fit status is chosen a shoe is selected, so exactly one section shows. */
  lemma OneSectionAtATime(submitted: bool, selectedShoe: string, status: Option<Status>)
    requires status.Some? ==> selectedShoe != ""
    ensures |Sections(submitted, selectedShoe, status)| == 1
  {
    var r := Sections(submitted, selectedShoe, status);
    if submitted {
    } else if selectedShoe == "" {
      assert r == {ShoePicker};
    } else if status.None? {
      assert r == {FitChoice};
    } else if status == Some(Perfect) {
      assert r == {PerfectForm};
    } else {
      assert status.Some?;
      assert status.value != Perfect;
      assert status == Some(Issues);
      assert r == {IssuesForm};
    }
  }

  /** The Submit button's `disabled`: only on the issues form, with no issue and blank comments. */
  predicate SubmitDisabled(status: Status, issues: seq<string>, comments: string) {
    status == Issues && |issues| == 0 && Text.Trim(comments) == ""
  }

  /** Submitting issues needs an issue or a comment that is not all whitespace. */
  lemma SubmitDisabledIffNothingToSay(status: Status, issues: seq<string>, comments: string)
    ensures SubmitDisabled(status, issues, comments) <==>
              status == Issues && |issues| == 0 && Text.Blank(comments)
  {
    Text.TrimEmptyIffBlank(comments);
  }

  class Modal {
    /** The ids of the shoes the picker offers: the first four of the wardrobe. */
    const offered: seq<string>

    var selectedShoe: string
    var feedbackStatus: Option<Status>
    var issues: seq<string>
    var comments: string
    var submitted: bool

    ghost predicate Valid()
      reads this
    {
      && |offered| <= Offered
      && (feedbackStatus.Some? ==> selectedShoe != "")
      && Seqs.Distinct(issues)
      && (forall k :: 0 <= k < |issues| ==> issues[k] in CommonIssues)
    }

    function Shown(): set<Section>
      reads this
    {
      Sections(submitted, selectedShoe, feedbackStatus)
    }

    constructor (wardrobeIds: seq<string>)
      ensures Valid()
      ensures offered == Seqs.Take(wardrobeIds, Offered)
      ensures selectedShoe == "" && feedbackStatus == None && issues == [] && comments == "" && !submitted
      ensures Shown() == {ShoePicker}
    {
      offered := Seqs.Take(wardrobeIds, Offered);
      selectedShoe := "";
      feedbackStatus := None;
      issues := [];
      comments := "";
      submitted := false;
    }

    /** A shoe card of the picker. */
    method SelectShoe(id: string)
      requires Valid() && ShoePicker in Shown() && id in offered
      modifies this
      ensures Valid()
      ensures selectedShoe == id
      ensures feedbackStatus == old(feedbackStatus) && issues == old(issues)
      ensures comments == old(comments) && submitted == old(submitted)
    {
      selectedShoe := id;
    }

    /** "Change shoe" on the fit choice: only the selection is cleared. */
    method ChangeShoe()
      requires Valid() && FitChoice in Shown()
      modifies this
      ensures Valid()
      ensures selectedShoe == "" && Shown() == {ShoePicker}
      ensures feedbackStatus == old(feedbackStatus) && issues == old(issues)
      ensures comments == old(comments) && submitted == old(submitted)
    {
      selectedShoe := "";
    }

    /** "Perfect!" or "Some Issues" on the fit choice. */
    method ChooseStatus(s: Status)
      requires Valid() && FitChoice in Shown()
      modifies this
      ensures Valid()
      ensures feedbackStatus == Some(s)
      ensures Shown() == {if s == Perfect then PerfectForm else IssuesForm}
      ensures selectedShoe == old(selectedShoe) && issues == old(issues)
      ensures comments == old(comments) && submitted == old(submitted)
    {
      feedbackStatus := Some(s);
      OneSectionAtATime(submitted, selectedShoe, feedbackStatus);
    }

    /** An issue button of the issues form. */
    method ToggleIssue(issueId: string)
      requires Valid() && IssuesForm in Shown() && issueId in CommonIssues
      modifies this
      ensures Valid()
      ensures issues == Toggle(old(issues), issueId)
      ensures selectedShoe == old(selectedShoe) && feedbackStatus == old(feedbackStatus)
      ensures comments == old(comments) && submitted == old(submitted)
    {
      issues := Toggle(issues, issueId);
    }

    /** Typing in the comments box of either form. */
    method SetComments(text: string)
      requires Valid() && feedbackStatus.Some? && !submitted
      modifies this
      ensures Valid()
      ensures comments == text
      ensures selectedShoe == old(selectedShoe) && feedbackStatus == old(feedbackStatus)
      ensures issues == old(issues) && submitted == old(submitted)
    {
      comments := text;
    }

    /** `handleSubmit`, from an enabled Submit button; afterwards only the thank-you view renders. */
    method Submit()
      requires Valid() && feedbackStatus.Some? && !submitted
      requires !SubmitDisabled(feedbackStatus.value, issues, comments)
      modifies this
      ensures Valid()
      ensures submitted && Shown() == {ThankYou}
      ensures selectedShoe == old(selectedShoe) && feedbackStatus == old(feedbackStatus)
      ensures issues == old(issues) && comments == old(comments)
    {
      submitted := true;
    }
  }

  /** Reporting a tight toe box on a shoe: the modal ends on the thank-you view. */
  method ReportTightToe() returns (shown: set<Section>, reported: seq<string>)
    ensures shown == {ThankYou} && reported == ["tight-toe"]
  {
    var m := new Modal(["s1", "s2", "s3", "s4", "s5"]);
    assert m.offered == ["s1", "s2", "s3", "s4"];
    m.SelectShoe("s2");
    m.ChooseStatus(Issues);
    m.ToggleIssue("tight-toe");
    m.Submit();
    shown, reported := m.Shown(), m.issues;
  }
}
