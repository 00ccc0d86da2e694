/** Array operations of JavaScript that the handlers use: `filter`, a stable `sort` by a numeric
    key, `slice`, and removal by index. */
module Seqs {

  /** `s.filter(p)` */
  function Filter<T>(s: seq<T>, p: T -> bool): (r: seq<T>)
    ensures |r| <= |s|
    ensures forall k :: 0 <= k < |r| ==> r[k] in s && p(r[k])
    ensures forall k :: 0 <= k < |s| && p(s[k]) ==> s[k] in r
    ensures multiset(r) <= multiset(s)
    decreases |s|
  {
    if |s| == 0 then []
    else
      var rest := Filter(s[1..], p);
      assert s == [s[0]] + s[1..];
      if p(s[0]) then [s[0]] + rest else rest
  }

  /** Filtering twice by the same predicate changes nothing the second time. */
  lemma {:induction false} FilterIdempotent<T>(s: seq<T>, p: T -> bool)
    ensures Filter(Filter(s, p), p) == Filter(s, p)
    decreases |s|
  {
    if |s| > 0 {
      FilterIdempotent(s[1..], p);
    }
  }

  /** The filter keeps every copy of an element that passes and none of one that fails. */
  lemma {:induction false} FilterCounts<T>(s: seq<T>, p: T -> bool, x: T)
    ensures multiset(Filter(s, p))[x] == if p(x) then multiset(s)[x] else 0
    decreases |s|
  {
    if |s| > 0 {
      FilterCounts(s[1..], p, x);
      assert s == [s[0]] + s[1..];
      assert multiset(s) == multiset{s[0]} + multiset(s[1..]);
      var rest := Filter(s[1..], p);
      assert Filter(s, p) == if p(s[0]) then [s[0]] + rest else rest;
    }
  }

  /** `FilterCounts` for every value at once. */
  lemma FilterCountsAll<T>(s: seq<T>, p: T -> bool)
    ensures forall x :: multiset(Filter(s, p))[x] == if p(x) then multiset(s)[x] else 0
  {
    forall x {
      FilterCounts(s, p, x);
    }
  }


  /** No element passes, so nothing is kept. */
  lemma {:induction false} FilterNone<T>(s: seq<T>, p: T -> bool)
    requires forall k :: 0 <= k < |s| ==> !p(s[k])
    ensures Filter(s, p) == []
    decreases |s|
  {
    if |s| > 0 {
      assert !p(s[0]);
      forall k | 0 <= k < |s[1..]| ensures !p(s[1..][k]) {
        assert s[1..][k] == s[k + 1];
      }
      FilterNone(s[1..], p);
    }
  }

  /** How many elements satisfy `p`. */
  function Count<T>(s: seq<T>, p: T -> bool): (n: nat)
    ensures n <= |s|
    decreases |s|
  {
    if |s| == 0 then 0 else (if p(s[0]) then 1 else 0) + Count(s[1..], p)
  }

  lemma {:induction false} CountIsFilterLength<T>(s: seq<T>, p: T -> bool)
    ensures Count(s, p) == |Filter(s, p)|
    decreases |s|
  {
    if |s| > 0 {
      CountIsFilterLength(s[1..], p);
    }
  }

  // ---------------------------------------------------------------- sort

  /** Non-decreasing by `key`. */
  predicate SortedBy<T>(s: seq<T>, key: T -> int) {
    forall i, j :: 0 <= i < j < |s| ==> key(s[i]) <= key(s[j])
  }

  /** Insert `x` before the first element whose key is not smaller. */
  function Insert<T>(x: T, s: seq<T>, key: T -> int): (r: seq<T>)
    requires SortedBy(s, key)
    ensures SortedBy(r, key)
    ensures multiset(r) == multiset(s) + multiset{x}
    ensures |r| == |s| + 1
    decreases |s|
  {
    if |s| == 0 then [x]
    else if key(x) <= key(s[0]) then [x] + s
    else
      var rest := Insert(x, s[1..], key);
      assert s == [s[0]] + s[1..];
      InsertHead(s[0], rest, x, s[1..], key);
      [s[0]] + rest
  }

  lemma InsertHead<T>(h: T, rest: seq<T>, x: T, tail: seq<T>, key: T -> int)
    requires SortedBy(rest, key)
    requires multiset(rest) == multiset(tail) + multiset{x}
    requires key(h) <= key(x)
    requires forall k :: 0 <= k < |tail| ==> key(h) <= key(tail[k])
    ensures SortedBy([h] + rest, key)
  {
    forall y | y in rest ensures key(h) <= key(y) {
      assert y in multiset(rest);
      if y != x {
        assert y in multiset(tail);
        var k :| 0 <= k < |tail| && tail[k] == y;
      }
    }
    forall i, j | 0 <= i < j < |[h] + rest| ensures key(([h] + rest)[i]) <= key(([h] + rest)[j]) {
      if i == 0 {
        assert ([h] + rest)[j] == rest[j - 1];
        assert rest[j - 1] in rest;
      }
    }
  }

  /** A stable sort by ascending `key` (`s.sort((a, b) => key(a) - key(b))`; V8's sort is stable). */
  function SortBy<T>(s: seq<T>, key: T -> int): (r: seq<T>)
    ensures SortedBy(r, key)
    ensures multiset(r) == multiset(s)
    ensures |r| == |s|
    decreases |s|
  {
    if |s| == 0 then []
    else
      assert s == [s[0]] + s[1..];
      Insert(s[0], SortBy(s[1..], key), key)
  }

  /** A sorted sequence is its own sort. */
  lemma {:induction false} SortBySorted<T>(s: seq<T>, key: T -> int)
    requires SortedBy(s, key)
    ensures SortBy(s, key) == s
    decreases |s|
  {
    if |s| > 0 {
      assert SortedBy(s[1..], key);
      SortBySorted(s[1..], key);
      if |s| > 1 {
        assert key(s[0]) <= key(s[1..][0]);
      }
    }
  }

  // ---------------------------------------------------------------- distinctness

  /** No element occurs twice. */
  predicate Distinct<T(==)>(s: seq<T>) {
    forall i, j :: 0 <= i < j < |s| ==> s[i] != s[j]
  }

  /** In a sequence without repeats every element is counted once. */
  lemma {:induction false} DistinctCountsOnce<T>(s: seq<T>, x: T)
    requires Distinct(s)
    ensures multiset(s)[x] <= 1
    decreases |s|
  {
    if |s| > 0 {
      assert s == [s[0]] + s[1..];
      assert Distinct(s[1..]);
      DistinctCountsOnce(s[1..], x);
      if x == s[0] {
        assert x !in s[1..];
      }
    }
  }

  /** A repeated element is counted at least twice. */
  lemma RepeatCountsTwice<T>(s: seq<T>, i: nat, j: nat)
    requires i < j < |s| && s[i] == s[j]
    ensures multiset(s)[s[i]] >= 2
  {
    assert s == s[..i] + [s[i]] + s[i + 1..j] + [s[j]] + s[j + 1..];
  }

  /** A rearrangement of a sequence without repeats, or of part of one, has none either. */
  lemma DistinctMultiset<T>(s: seq<T>, t: seq<T>)
    requires Distinct(s)
    requires multiset(t) <= multiset(s)
    ensures Distinct(t)
  {
    forall i, j | 0 <= i < j < |t| ensures t[i] != t[j] {
      if t[i] == t[j] {
        RepeatCountsTwice(t, i, j);
        DistinctCountsOnce(s, t[i]);
      }
    }
  }

  // ---------------------------------------------------------------- search

  /** `s.findIndex(x => key(x) === k)` started at `from`. */
  function FindIndexFrom<T, K(==)>(s: seq<T>, key: T -> K, k: K, from: nat): (r: int)
    requires from <= |s|
    ensures r == -1 || from <= r < |s|
    ensures r == -1 <==> forall i :: from <= i < |s| ==> key(s[i]) != k
    ensures r >= 0 ==> key(s[r]) == k && forall i :: from <= i < r ==> key(s[i]) != k
    decreases |s| - from
  {
    if from == |s| then -1
    else if key(s[from]) == k then from
    else FindIndexFrom(s, key, k, from + 1)
  }

  /** `s.findIndex(x => key(x) === k)`: the first position whose key is `k`, or -1. */
  function FindIndex<T, K(==)>(s: seq<T>, key: T -> K, k: K): (r: int)
    ensures r == -1 || 0 <= r < |s|
    ensures r == -1 <==> forall i :: 0 <= i < |s| ==> key(s[i]) != k
    ensures r >= 0 ==> key(s[r]) == k && forall i :: 0 <= i < r ==> key(s[i]) != k
  {
    FindIndexFrom(s, key, k, 0)
  }

  // ---------------------------------------------------------------- slice and removal

  /** `s.slice(0, n)` */
  function Take<T>(s: seq<T>, n: nat): (r: seq<T>)
    ensures |r| == if n < |s| then n else |s|
    ensures r == s[..|r|]
  {
    if n < |s| then s[..n] else s
  }

  /** `s.filter((_, i) => i !== index)`; an out-of-range index removes nothing. */
  function RemoveAt<T>(s: seq<T>, index: int): (r: seq<T>)
    ensures 0 <= index < |s| ==> r == s[..index] + s[index + 1..]
    ensures !(0 <= index < |s|) ==> r == s
  {
    if 0 <= index < |s| then s[..index] + s[index + 1..] else s
  }

  /** Removal shifts the later elements down by one and keeps the earlier ones in place. */
  lemma RemoveAtPositions<T>(s: seq<T>, index: int)
    requires 0 <= index < |s|
    ensures var r := RemoveAt(s, index);
            |r| == |s| - 1
            && (forall k :: 0 <= k < index ==> r[k] == s[k])
            && (forall k :: index <= k < |r| ==> r[k] == s[k + 1])
  {
  }

  /** Removing the element just appended gives the sequence back. */
  lemma RemoveAppended<T>(s: seq<T>, x: T)
    ensures RemoveAt(s + [x], |s|) == s
  {
    assert (s + [x])[..|s|] == s;
  }

  lemma RemoveAtMultiset<T>(s: seq<T>, index: int)
    requires 0 <= index < |s|
    ensures multiset(RemoveAt(s, index)) + multiset{s[index]} == multiset(s)
  {
    assert s == s[..index] + [s[index]] + s[index + 1..];
  }
}
