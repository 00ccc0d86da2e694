/** The fit-feedback endpoint (`/api/feedback`): customers report whether a pair fits perfectly
    or has issues; the handlers keep the reports in a module-level array, list a customer's
    history newest first with statistics, and rank the most frequent issues. */
module Feedback {
  import opened Wrappers
  import opened Js
  import opened Http
  import Seqs
  import Text

  const Perfect := "perfect"
  const Issues := "issues"
  const MaxCommonIssues := 5
  const MaxImprovements := 3

  /** A stored report; `timestamp` and `updatedAt` are instants in milliseconds. */
  datatype Record = Record(
    id: string, shoeId: string, customerId: string, status: string, issues: seq<string>,
    comments: string, timestamp: int, processed: bool, updatedAt: Option<int>)

  /** The fields of a POST body; `None` is a field the body leaves out. */
  datatype Submission = Submission(
    shoeId: Option<string>, customerId: Option<string>, status: Option<string>,
    issues: Option<seq<string>>, comments: Option<string>)

  /** The fields of a PUT body. */
  datatype Edit = Edit(comments: Option<string>, issues: Option<seq<string>>)

  datatype Impact = Impact(fitConfidenceChange: string, recommendationImpact: string,
                           nextPairImprovement: string)

  datatype IssueCount = IssueCount(issue: string, count: nat)

  datatype Stats = Stats(totalFeedback: nat, perfectFit: nat, withIssues: nat,
                         commonIssues: seq<IssueCount>)

  datatype Body =
    | Error(error: string)
    | Submitted(id: string, status: string, impact: Impact, message: string)
    | History(feedback: seq<Record>, stats: Stats, total: nat)
    | Revised(updated: Record, message: string)

  predicate ValidStatus(s: string) {
    s == Perfect || s == Issues
  }

  // ---------------------------------------------------------------- impact

  const KnownIssues: seq<string> := ["tight-toe", "loose-heel", "arch-support", "width", "pressure-points"]

  /** `impactMap[issue] || 'Pattern will be adjusted'` */
  function ImpactOf(issue: string): (r: string)
    ensures issue !in KnownIssues ==> r == "Pattern will be adjusted"
    ensures issue in KnownIssues ==> r != "Pattern will be adjusted"
  {
    if issue == "tight-toe" then "Toe box will be adjusted +3mm"
    else if issue == "loose-heel" then "Heel counter will be reinforced"
    else if issue == "arch-support" then "Arch profile will be enhanced"
    else if issue == "width" then "Width measurements will be recalibrated"
    else if issue == "pressure-points" then "Pressure mapping will be refined"
    else "Pattern will be adjusted"
  }

  /** The first three reported issues, each as the adjustment it leads to. */
  function Improvements(issues: seq<string>): (r: seq<string>)
    ensures |r| == if |issues| < MaxImprovements then |issues| else MaxImprovements
    ensures forall k :: 0 <= k < |r| ==> r[k] == ImpactOf(issues[k])
  {
    Seqs.Take(seq(|issues|, k requires 0 <= k < |issues| => ImpactOf(issues[k])), MaxImprovements)
  }

  /** `calculateFeedbackImpact(status, issues)` */
  function CalculateFeedbackImpact(status: string, issues: seq<string>): (r: Impact)
    ensures status == Perfect ==>
              r == Impact("+2%", "Strengthens current fit profile", "Maintains successful pattern")
    ensures status != Perfect ==>
              r.fitConfidenceChange == "-5%"
              && r.recommendationImpact == "Adjusting recommendations based on feedback"
              && r.nextPairImprovement == Text.Join(Improvements(issues), ", ")
  {
    if status == Perfect then
      Impact("+2%", "Strengthens current fit profile", "Maintains successful pattern")
    else
      Impact("-5%", "Adjusting recommendations based on feedback", Text.Join(Improvements(issues), ", "))
  }

  /** Only the first three issues matter: later ones never change the impact. */
  lemma ImpactIgnoresLaterIssues(status: string, issues: seq<string>, more: seq<string>)
    requires |issues| >= MaxImprovements
    ensures CalculateFeedbackImpact(status, issues + more) == CalculateFeedbackImpact(status, issues)
  {
    var a := Improvements(issues + more);
    var b := Improvements(issues);
    assert forall k :: 0 <= k < |a| ==> (issues + more)[k] == issues[k];
    assert a == b;
  }

  // ---------------------------------------------------------------- issue counting

  /** How often `x` is reported across the records whose status is issues. */
  function Occurrences(fs: seq<Record>, x: string): nat
    decreases |fs|
  {
    if |fs| == 0 then 0
    else
      var last := fs[|fs| - 1];
      Occurrences(fs[..|fs| - 1], x) + (if last.status == Issues then multiset(last.issues)[x] else 0)
  }

  /** The dictionary `counts`, with keys `keys` in insertion order, tallies the issues of the
      reports `prior` and then the further issues `extra`. */
  ghost predicate Tallies(keys: seq<string>, counts: map<string, nat>, prior: seq<Record>,
                          extra: multiset<string>) {
    (forall x :: x in counts <==> x in keys)
    && (forall x :: x in counts ==> counts[x] == Occurrences(prior, x) + extra[x] && counts[x] >= 1)
    && (forall x :: x !in counts ==> Occurrences(prior, x) + extra[x] == 0)
    && Seqs.Distinct(keys)
  }

  /** `issueCount[issue] = (issueCount[issue] || 0) + 1` keeps the tally exact. */
  lemma TallyStep(keys: seq<string>, counts: map<string, nat>, prior: seq<Record>,
                  extra: multiset<string>, issue: string)
    requires Tallies(keys, counts, prior, extra)
    ensures issue in counts ==>
              Tallies(keys, counts[issue := counts[issue] + 1], prior, extra + multiset{issue})
    ensures issue !in counts ==>
              Tallies(keys + [issue], counts[issue := 1], prior, extra + multiset{issue})
  {
  }

  /** Once a report's issues are tallied, the report belongs to the prior ones. */
  lemma TallyNext(keys: seq<string>, counts: map<string, nat>, fs: seq<Record>, i: nat)
    requires i < |fs|
    requires Tallies(keys, counts, fs[..i],
                     if fs[i].status == Issues then multiset(fs[i].issues) else multiset{})
    ensures Tallies(keys, counts, fs[..i + 1], multiset{})
  {
    assert fs[..i + 1][..i] == fs[..i];
  }

  /** The inner `f.issues.forEach`: adds one report's issues to the dictionary. */
  method TallyIssues(keys0: seq<string>, counts0: map<string, nat>, ghost prior: seq<Record>,
                     issues: seq<string>) returns (keys: seq<string>, counts: map<string, nat>)
    requires Tallies(keys0, counts0, prior, multiset{})
    ensures Tallies(keys, counts, prior, multiset(issues))
  {
    keys, counts := keys0, counts0;
    var j := 0;
    while j < |issues|
      invariant 0 <= j <= |issues|
      invariant Tallies(keys, counts, prior, multiset(issues[..j]))
    {
      var issue := issues[j];
      assert issues[..j + 1] == issues[..j] + [issue];
      TallyStep(keys, counts, prior, multiset(issues[..j]), issue);
      if issue in counts {
        counts := counts[issue := counts[issue] + 1];
      } else {
        counts := counts[issue := 1];
        keys := keys + [issue];
      }
      j := j + 1;
    }
    assert issues[..j] == issues;
  }

  /** The counting loop of `getCommonIssues`: the dictionary and its keys in insertion order. */
  method CountIssues(fs: seq<Record>) returns (keys: seq<string>, counts: map<string, nat>)
    ensures forall x :: x in counts <==> x in keys
    ensures forall x :: x in counts ==> counts[x] == Occurrences(fs, x) && counts[x] >= 1
    ensures forall x :: x !in counts ==> Occurrences(fs, x) == 0
    ensures Seqs.Distinct(keys)
  {
    keys := [];
    counts := map[];
    var i := 0;
    while i < |fs|
      invariant 0 <= i <= |fs|
      invariant Tallies(keys, counts, fs[..i], multiset{})
    {
      if fs[i].status == Issues {
        keys, counts := TallyIssues(keys, counts, fs[..i], fs[i].issues);
      }
      TallyNext(keys, counts, fs, i);
      i := i + 1;
    }
    assert fs[..i] == fs;
  }

  /** `Object.entries(issueCount)` */
  function Entries(keys: seq<string>, counts: map<string, nat>): (r: seq<IssueCount>)
    requires forall k :: 0 <= k < |keys| ==> keys[k] in counts
    ensures |r| == |keys|
    ensures forall k :: 0 <= k < |r| ==> r[k] == IssueCount(keys[k], counts[keys[k]])
  {
    seq(|keys|, k requires 0 <= k < |keys| => IssueCount(keys[k], counts[keys[k]]))
  }

  /** Sort key for `sort(([, a], [, b]) => b - a)`: larger counts first. */
  function NegCount(e: IssueCount): int { -(e.count as int) }

  /** Every entry carries its issue's true count. */
  ghost predicate CountsExact(fs: seq<Record>, r: seq<IssueCount>) {
    forall k :: 0 <= k < |r| ==> r[k].count >= 1 && r[k].count == Occurrences(fs, r[k].issue)
  }

  /** Most frequent first. */
  predicate CountsDescending(r: seq<IssueCount>) {
    forall i, j :: 0 <= i < j < |r| ==> r[i].count >= r[j].count
  }

  /** Each issue is named once. */
  predicate IssuesDistinct(r: seq<IssueCount>) {
    forall i, j :: 0 <= i < j < |r| ==> r[i].issue != r[j].issue
  }

  /** No issue left out outnumbers one kept, and one is left out only when five are kept. */
  ghost predicate NoneMissed(fs: seq<Record>, r: seq<IssueCount>) {
    forall x :: Occurrences(fs, x) >= 1 && (forall k :: 0 <= k < |r| ==> r[k].issue != x) ==>
      |r| == MaxCommonIssues && forall k :: 0 <= k < |r| ==> r[k].count >= Occurrences(fs, x)
  }

  /** What `getCommonIssues(fs)` promises of its result `r`: at most five distinct issues, each
      with its true count, most frequent first, and no issue left out that outnumbers one kept. */
  ghost predicate IsTopIssues(fs: seq<Record>, r: seq<IssueCount>) {
    |r| <= MaxCommonIssues && CountsExact(fs, r) && CountsDescending(r) && IssuesDistinct(r)
    && NoneMissed(fs, r)
  }

  /** `getCommonIssues(fs)` */
  method CommonIssues(fs: seq<Record>) returns (r: seq<IssueCount>)
    ensures IsTopIssues(fs, r)
  {
    var keys, counts := CountIssues(fs);
    var entries := Entries(keys, counts);
    var sorted := Seqs.SortBy(entries, NegCount);
    r := Seqs.Take(sorted, MaxCommonIssues);
    EntriesDistinctIssues(keys, counts, entries, sorted);
    SortedCountsExact(fs, keys, counts, entries, sorted);
    TopKeepsOrder(sorted);
    SortedTopComplete(fs, keys, counts, entries, sorted);
    PrefixKeeps(fs, sorted, |r|);
  }

  /** What holds of every entry, or every pair of entries, holds of a prefix. */
  lemma PrefixKeeps(fs: seq<Record>, s: seq<IssueCount>, n: nat)
    requires n <= |s|
    ensures CountsExact(fs, s) ==> CountsExact(fs, s[..n])
    ensures IssuesDistinct(s) ==> IssuesDistinct(s[..n])
  {
    assert forall k :: 0 <= k < n ==> s[..n][k] == s[k];
  }

  /** Every sorted entry carries its issue's true count. */
  lemma SortedCountsExact(fs: seq<Record>, keys: seq<string>, counts: map<string, nat>,
                          entries: seq<IssueCount>, sorted: seq<IssueCount>)
    requires forall x :: x in counts <==> x in keys
    requires forall x :: x in counts ==> counts[x] == Occurrences(fs, x) && counts[x] >= 1
    requires entries == Entries(keys, counts)
    requires multiset(sorted) == multiset(entries)
    ensures CountsExact(fs, sorted)
  {
    forall k | 0 <= k < |sorted|
      ensures sorted[k].count >= 1 && sorted[k].count == Occurrences(fs, sorted[k].issue)
    {
      assert sorted[k] in multiset(entries);
      var a :| 0 <= a < |entries| && entries[a] == sorted[k];
      assert keys[a] in keys;
    }
  }

  /** The first five of the sorted entries are most frequent first. */
  lemma TopKeepsOrder(sorted: seq<IssueCount>)
    requires Seqs.SortedBy(sorted, NegCount)
    ensures CountsDescending(Seqs.Take(sorted, MaxCommonIssues))
  {
    var r := Seqs.Take(sorted, MaxCommonIssues);
    forall i, j | 0 <= i < j < |r| ensures r[i].count >= r[j].count {
      assert NegCount(sorted[i]) <= NegCount(sorted[j]);
    }
  }

  /** An issue with occurrences that the first five entries miss lies further down the sorted
      entries, so five entries are kept, each counted at least as often. */
  lemma SortedTopComplete(fs: seq<Record>, keys: seq<string>, counts: map<string, nat>,
                          entries: seq<IssueCount>, sorted: seq<IssueCount>)
    requires forall x :: x in counts <==> x in keys
    requires forall x :: x in counts ==> counts[x] == Occurrences(fs, x) && counts[x] >= 1
    requires forall x :: x !in counts ==> Occurrences(fs, x) == 0
    requires entries == Entries(keys, counts)
    requires multiset(sorted) == multiset(entries)
    requires Seqs.SortedBy(sorted, NegCount)
    ensures NoneMissed(fs, Seqs.Take(sorted, MaxCommonIssues))
  {
    var r := Seqs.Take(sorted, MaxCommonIssues);
    forall x | Occurrences(fs, x) >= 1 && (forall k :: 0 <= k < |r| ==> r[k].issue != x)
      ensures |r| == MaxCommonIssues && forall k :: 0 <= k < |r| ==> r[k].count >= Occurrences(fs, x)
    {
      var a :| 0 <= a < |keys| && keys[a] == x;
      assert entries[a] in multiset(sorted);
      var j :| 0 <= j < |sorted| && sorted[j] == entries[a];
      assert sorted[j].issue == x;
      assert forall k :: 0 <= k < |r| ==> sorted[k].issue != x;
      assert j >= |r|;
      forall k | 0 <= k < |r| ensures r[k].count >= Occurrences(fs, x) {
        assert NegCount(sorted[k]) <= NegCount(sorted[j]);
      }
    }
  }

  /** The sorted entries name each issue once, because the dictionary's keys are distinct. */
  lemma EntriesDistinctIssues(keys: seq<string>, counts: map<string, nat>, entries: seq<IssueCount>,
                              sorted: seq<IssueCount>)
    requires forall k :: 0 <= k < |keys| ==> keys[k] in counts
    requires Seqs.Distinct(keys)
    requires entries == Entries(keys, counts)
    requires multiset(sorted) == multiset(entries)
    ensures IssuesDistinct(sorted)
  {
    assert Seqs.Distinct(entries) by {
      forall i, j | 0 <= i < j < |entries| ensures entries[i] != entries[j] {
        assert entries[i].issue == keys[i];
      }
    }
    Seqs.DistinctMultiset(entries, sorted);
    forall i, j | 0 <= i < j < |sorted| ensures sorted[i].issue != sorted[j].issue {
      assert sorted[i] in multiset(entries);
      assert sorted[j] in multiset(entries);
      var a :| 0 <= a < |entries| && entries[a] == sorted[i];
      var b :| 0 <= b < |entries| && entries[b] == sorted[j];
      if a != b {
        assert keys[a] != keys[b];
      }
    }
  }

  // ---------------------------------------------------------------- listing and statistics

  function TimestampDesc(f: Record): int { -f.timestamp }
  function IdOf(f: Record): string { f.id }
  predicate IsPerfect(f: Record) { f.status == Perfect }
  predicate HasIssues(f: Record) { f.status == Issues }

  /** Which reports a history keeps: the customer's, and with a truthy `shoeId` that shoe's. */
  predicate Listed(f: Record, customerId: string, shoeId: Option<string>) {
    f.customerId == customerId && (Present(shoeId) ==> f.shoeId == shoeId.value)
  }

  /** The customer's reports (for one shoe if asked), newest first. The source filters by
      customer and then by shoe; one filter by both tests keeps the same reports in order. */
  function HistoryFor(rs: seq<Record>, customerId: string, shoeId: Option<string>): (r: seq<Record>)
    ensures Seqs.SortedBy(r, TimestampDesc)
    ensures multiset(r) <= multiset(rs)
    ensures forall f :: multiset(r)[f] == if Listed(f, customerId, shoeId) then multiset(rs)[f] else 0
  {
    var p := (f: Record) => Listed(f, customerId, shoeId);
    Seqs.FilterCountsAll(rs, p);
    Seqs.SortBy(Seqs.Filter(rs, p), TimestampDesc)
  }

  /** A history holds exactly the reports its filter keeps. */
  lemma HistoryMembers(rs: seq<Record>, customerId: string, shoeId: Option<string>, f: Record)
    ensures f in HistoryFor(rs, customerId, shoeId) <==> f in rs && Listed(f, customerId, shoeId)
  {
    var kept := Seqs.Filter(rs, (g: Record) => Listed(g, customerId, shoeId));
    var r := HistoryFor(rs, customerId, shoeId);
    assert multiset(r) == multiset(kept);
    if f in r {
      assert f in multiset(kept);
      var j :| 0 <= j < |kept| && kept[j] == f;
    }
    if f in rs && Listed(f, customerId, shoeId) {
      var k :| 0 <= k < |rs| && rs[k] == f;
      assert f in kept;
      assert f in multiset(r);
    }
  }

  /** When every report is perfect or has issues, the two counts add up to the total. */
  lemma {:induction false} StatusCountsAddUp(fs: seq<Record>)
    requires forall k :: 0 <= k < |fs| ==> ValidStatus(fs[k].status)
    ensures Seqs.Count(fs, IsPerfect) + Seqs.Count(fs, HasIssues) == |fs|
    decreases |fs|
  {
    if |fs| > 0 {
      StatusCountsAddUp(fs[1..]);
    }
  }

  // ---------------------------------------------------------------- the store

  /** `!shoeId || !customerId || !status` */
  predicate MissingField(s: Submission) {
    !Present(s.shoeId) || !Present(s.customerId) || !Present(s.status)
  }

  /** The report a valid submission creates at instant `now`; the issue list is kept only for
      a report with issues. */
  function NewRecord(s: Submission, now: nat): (f: Record)
    requires !MissingField(s)
    ensures f.id == "feedback_" + Text.NatToString(now)
    ensures f.shoeId == s.shoeId.value && f.customerId == s.customerId.value && f.status == s.status.value
    ensures f.issues == (if s.status.value == Issues then s.issues.GetOr([]) else [])
    ensures f.comments == s.comments.GetOr("") && f.timestamp == now && !f.processed && f.updatedAt.None?
  {
    Record("feedback_" + Text.NatToString(now), s.shoeId.value, s.customerId.value, s.status.value,
           if s.status.value == Issues then s.issues.GetOr([]) else [], s.comments.GetOr(""), now,
           false, None)
  }

  /** A report after an edit at instant `now`: comments change only to a non-empty string, the
      issue list whenever one is sent (an empty array is truthy). */
  function Revise(f: Record, e: Edit, now: nat): (r: Record)
    ensures r.id == f.id && r.shoeId == f.shoeId && r.customerId == f.customerId
    ensures r.status == f.status && r.timestamp == f.timestamp && r.processed == f.processed
    ensures r.comments == OrElse(e.comments, f.comments)
    ensures r.issues == e.issues.GetOr(f.issues)
    ensures r.updatedAt == Some(now)
  {
    f.(comments := OrElse(e.comments, f.comments), issues := e.issues.GetOr(f.issues), updatedAt := Some(now))
  }

  /** The module-level `feedbackDatabase` and its handlers. */
  class Store {
    var records: seq<Record>

    /** Every stored report is perfect or has issues: POST admits nothing else and PUT never
        touches the status. */
    ghost predicate Valid()
      reads this
    {
      forall k :: 0 <= k < |records| ==> ValidStatus(records[k].status)
    }

    constructor()
      ensures Valid() && records == []
    {
      records := [];
    }

    /** `POST` at instant `now`. */
    method Post(s: Submission, now: nat) returns (r: Response<Body>)
      requires Valid()
      modifies this
      ensures Valid()
      ensures MissingField(s) ==>
                r == Response(BAD_REQUEST, Error("Missing required fields: shoeId, customerId, and status are required"))
                && records == old(records)
      ensures !MissingField(s) && !ValidStatus(s.status.value) ==>
                r == Response(BAD_REQUEST, Error("Invalid status. Must be \"perfect\" or \"issues\""))
                && records == old(records)
      ensures r.status == CREATED <==> !MissingField(s) && ValidStatus(s.status.value)
      ensures r.status == CREATED ==>
                var f := NewRecord(s, now);
                records == old(records) + [f]
                && r.body == Submitted(f.id, f.status, CalculateFeedbackImpact(f.status, s.issues.GetOr([])),
                                       "Thank you for your feedback. This helps us perfect your next pair.")
    {
      if MissingField(s) {
        return Response(BAD_REQUEST, Error("Missing required fields: shoeId, customerId, and status are required"));
      }
      if !ValidStatus(s.status.value) {
        return Response(BAD_REQUEST, Error("Invalid status. Must be \"perfect\" or \"issues\""));
      }
      var f := NewRecord(s, now);
      records := records + [f];
      r := Response(CREATED, Submitted(f.id, f.status, CalculateFeedbackImpact(f.status, s.issues.GetOr([])),
                                        "Thank you for your feedback. This helps us perfect your next pair."));
    }

    /** `GET ?customerId=&shoeId=` */
    method Get(customerId: Option<string>, shoeId: Option<string>) returns (r: Response<Body>)
      ensures !Present(customerId) ==> r == Response(BAD_REQUEST, Error("Customer ID required"))
      ensures Present(customerId) ==>
                r.status == OK && r.body.History?
                && r.body.feedback == HistoryFor(records, customerId.value, shoeId)
                && r.body.total == |r.body.feedback|
                && r.body.stats.totalFeedback == |r.body.feedback|
                && r.body.stats.perfectFit == Seqs.Count(r.body.feedback, IsPerfect)
                && r.body.stats.withIssues == Seqs.Count(r.body.feedback, HasIssues)
                && IsTopIssues(r.body.feedback, r.body.stats.commonIssues)
      ensures Present(customerId) && Valid() ==>
                r.body.stats.perfectFit + r.body.stats.withIssues == r.body.stats.totalFeedback
    {
      if !Present(customerId) {
        return Response(BAD_REQUEST, Error("Customer ID required"));
      }
      var feedback := HistoryFor(records, customerId.value, shoeId);
      var common := CommonIssues(feedback);
      if Valid() {
        forall k | 0 <= k < |feedback| ensures ValidStatus(feedback[k].status) {
          assert feedback[k] in multiset(records);
        }
        StatusCountsAddUp(feedback);
      }
      var stats := Stats(|feedback|, Seqs.Count(feedback, IsPerfect), Seqs.Count(feedback, HasIssues), common);
      r := Response(OK, History(feedback, stats, |feedback|));
    }

    /** `PUT /[feedbackId]` at instant `now`. */
    method Put(feedbackId: string, e: Edit, now: nat) returns (r: Response<Body>)
      requires Valid()
      modifies this
      ensures Valid()
      ensures Seqs.FindIndex(old(records), IdOf, feedbackId) == -1 ==>
                r == Response(NOT_FOUND, Error("Feedback not found")) && records == old(records)
      ensures var i := Seqs.FindIndex(old(records), IdOf, feedbackId);
              i >= 0 ==>
                records == old(records)[i := Revise(old(records)[i], e, now)]
                && r == Response(OK, Revised(records[i], "Feedback updated successfully"))
    {
      var i := Seqs.FindIndex(records, IdOf, feedbackId);
      if i == -1 {
        return Response(NOT_FOUND, Error("Feedback not found"));
      }
      records := records[i := Revise(records[i], e, now)];
      r := Response(OK, Revised(records[i], "Feedback updated successfully"));
    }
  }
}
