/** String operations of JavaScript that the portal uses, on `seq<char>`.
    Case mapping is ASCII only; `split` takes a one-character separator. */
module Text {

  // ---------------------------------------------------------------- case

  function UpperChar(c: char): char {
    if 'a' <= c <= 'z' then (c as int - 32) as char else c
  }

  function LowerChar(c: char): char {
    if 'A' <= c <= 'Z' then (c as int + 32) as char else c
  }

  /** `toUpperCase()` */
  function Upper(s: string): (r: string)
    ensures |r| == |s|
    ensures forall i :: 0 <= i < |s| ==> r[i] == UpperChar(s[i])
  {
    seq(|s|, i requires 0 <= i < |s| => UpperChar(s[i]))
  }

  /** `toLowerCase()` */
  function Lower(s: string): (r: string)
    ensures |r| == |s|
    ensures forall i :: 0 <= i < |s| ==> r[i] == LowerChar(s[i])
  {
    seq(|s|, i requires 0 <= i < |s| => LowerChar(s[i]))
  }

  /** Lower-casing forgets any earlier upper-casing. */
  lemma LowerOfUpper(s: string)
    ensures Lower(Upper(s)) == Lower(s)
  {
    assert forall i :: 0 <= i < |s| ==> Lower(Upper(s))[i] == Lower(s)[i];
  }

  lemma LowerIdempotent(s: string)
    ensures Lower(Lower(s)) == Lower(s)
  {
    assert forall i :: 0 <= i < |s| ==> Lower(Lower(s))[i] == Lower(s)[i];
  }

  lemma UpperIdempotent(s: string)
    ensures Upper(Upper(s)) == Upper(s)
  {
    assert forall i :: 0 <= i < |s| ==> Upper(Upper(s))[i] == Upper(s)[i];
  }

  // ---------------------------------------------------------------- search

  predicate IsPrefix(p: string, s: string) {
    |p| <= |s| && s[..|p|] == p
  }

  /** `s.includes(sub)` */
  predicate Contains(s: string, sub: string)
    decreases |s|
  {
    IsPrefix(sub, s) || (|s| > 0 && Contains(s[1..], sub))
  }

  predicate HasChar(s: string, c: char) {
    c in s
  }

  // ---------------------------------------------------------------- split and join

  /** `s.split(sep)`: never empty; consecutive separators give empty parts. */
  function Split(s: string, sep: char): (r: seq<string>)
    ensures |r| >= 1
    ensures forall k :: 0 <= k < |r| ==> sep !in r[k]
    decreases |s|
  {
    if |s| == 0 then [""]
    else
      var rest := Split(s[1..], sep);
      if s[0] == sep then [""] + rest
      else [[s[0]] + rest[0]] + rest[1..]
  }

  /** The first part is what comes before the first separator, or the whole string. */
  lemma {:induction false} SplitFirst(s: string, sep: char)
    ensures var f := Split(s, sep)[0];
            |f| <= |s| && f == s[..|f|] && (|f| < |s| ==> s[|f|] == sep)
    decreases |s|
  {
    if |s| > 0 && s[0] != sep {
      SplitFirst(s[1..], sep);
    }
  }

  /** `parts.join(sep)` */
  function Join(parts: seq<string>, sep: string): string
    decreases |parts|
  {
    if |parts| == 0 then ""
    else if |parts| == 1 then parts[0]
    else parts[0] + sep + Join(parts[1..], sep)
  }

  lemma JoinLength(parts: seq<string>, sep: string)
    requires |parts| >= 1
    ensures |Join(parts, sep)| == SumLengths(parts) + (|parts| - 1) * |sep|
    decreases |parts|
  {
    if |parts| > 1 {
      JoinLength(parts[1..], sep);
    }
  }

  function SumLengths(parts: seq<string>): nat
    decreases |parts|
  {
    if |parts| == 0 then 0 else |parts[0]| + SumLengths(parts[1..])
  }

  /** Joining the parts of a split with the same separator gives the string back. */
  lemma {:induction false} JoinSplit(s: string, sep: char)
    ensures Join(Split(s, sep), [sep]) == s
    decreases |s|
  {
    if |s| > 0 {
      var rest := Split(s[1..], sep);
      JoinSplit(s[1..], sep);
      if s[0] == sep {
        assert Split(s, sep) == [""] + rest;
        assert ([""] + rest)[1..] == rest;
      } else {
        var r := Split(s, sep);
        assert r == [[s[0]] + rest[0]] + rest[1..];
        if |rest| > 1 {
          assert r[1..] == rest[1..];
          assert Join(rest, [sep]) == rest[0] + [sep] + Join(rest[1..], [sep]);
        }
      }
    }
  }

  /** Splitting `w + t` where `w` holds no separator glues `w` onto the first part of `t`. */
  lemma {:induction false} SplitPrefixWord(w: string, t: string, sep: char)
    requires sep !in w
    ensures Split(w + t, sep) == [w + Split(t, sep)[0]] + Split(t, sep)[1..]
    decreases |w|
  {
    if |w| > 0 {
      SplitPrefixWord(w[1..], t, sep);
      assert (w + t)[1..] == w[1..] + t;
      assert (w + t)[0] == w[0];
      assert [w[0]] + (w[1..] + Split(t, sep)[0]) == w + Split(t, sep)[0];
    } else {
      assert w + t == t;
      assert w + Split(t, sep)[0] == Split(t, sep)[0];
      assert [Split(t, sep)[0]] + Split(t, sep)[1..] == Split(t, sep);
    }
  }

  /** Splitting a join of separator-free words gives the words back. */
  lemma {:induction false} SplitJoin(ws: seq<string>, sep: char)
    requires |ws| >= 1
    requires forall k :: 0 <= k < |ws| ==> sep !in ws[k]
    ensures Split(Join(ws, [sep]), sep) == ws
    decreases |ws|
  {
    if |ws| == 1 {
      SplitPrefixWord(ws[0], "", sep);
      assert ws[0] + "" == ws[0];
    } else {
      var tail := Join(ws[1..], [sep]);
      SplitJoin(ws[1..], sep);
      assert Join(ws, [sep]) == ws[0] + ([sep] + tail);
      SplitPrefixWord(ws[0], [sep] + tail, sep);
      assert ([sep] + tail)[1..] == tail;
      assert Split([sep] + tail, sep) == [""] + ws[1..];
      assert ws[0] + "" == ws[0];
      assert [ws[0]] + ws[1..] == ws;
    }
  }

  // ---------------------------------------------------------------- numbers

  function DigitChar(d: nat): char
    requires d < 10
  {
    ('0' as int + d) as char
  }

  predicate IsDigit(c: char) {
    '0' <= c <= '9'
  }

  function DigitValue(c: char): nat
    requires IsDigit(c)
  {
    c as int - '0' as int
  }

  /** `String(n)` for a non-negative integer: decimal, no leading zeros. */
  function NatToString(n: nat): (r: string)
    ensures |r| >= 1
    ensures forall k :: 0 <= k < |r| ==> IsDigit(r[k])
    decreases n
  {
    if n < 10 then [DigitChar(n)] else NatToString(n / 10) + [DigitChar(n % 10)]
  }

  /** Reads a string of decimal digits. */
  function ParseNat(s: string): nat
    requires forall k :: 0 <= k < |s| ==> IsDigit(s[k])
    decreases |s|
  {
    if |s| == 0 then 0 else ParseNat(s[..|s| - 1]) * 10 + DigitValue(s[|s| - 1])
  }

  lemma {:induction false} ParseNatToString(n: nat)
    ensures ParseNat(NatToString(n)) == n
    decreases n
  {
    if n >= 10 {
      ParseNatToString(n / 10);
      var s := NatToString(n);
      assert s[..|s| - 1] == NatToString(n / 10);
    }
  }

  /** `String(n).padStart(2, '0')` */
  function Pad2(n: nat): (r: string)
    ensures n < 100 ==> |r| == 2
    ensures n >= 10 ==> r == NatToString(n)
    ensures forall k :: 0 <= k < |r| ==> IsDigit(r[k])
  {
    if n < 10 then ['0'] + NatToString(n)
    else
      assert n < 100 ==> |NatToString(n / 10)| == 1;
      NatToString(n)
  }

  lemma ParsePad2(n: nat)
    ensures ParseNat(Pad2(n)) == n
  {
    ParseNatToString(n);
    if n < 10 {
      assert Pad2(n) == ['0', DigitChar(n)];
      assert Pad2(n)[..1] == ['0'];
    }
  }

  /** `s.padStart(width, c)` */
  function PadStart(s: string, width: nat, c: char): (r: string)
    ensures |r| == if |s| < width then width else |s|
    ensures r[|r| - |s|..] == s
    ensures forall k :: 0 <= k < |r| - |s| ==> r[k] == c
  {
    if |s| < width then seq(width - |s|, _ => c) + s else s
  }

  function Zeros(n: nat): (r: string)
    ensures |r| == n
    ensures forall k :: 0 <= k < n ==> r[k] == '0'
  {
    seq(n, _ => '0')
  }

  /** A leading zero does not change the number a digit string reads as. */
  lemma {:induction false} ParseNatLeadingZero(s: string)
    requires forall k :: 0 <= k < |s| ==> IsDigit(s[k])
    ensures ParseNat(['0'] + s) == ParseNat(s)
    decreases |s|
  {
    if |s| > 0 {
      assert (['0'] + s)[..|s|] == ['0'] + s[..|s| - 1];
      ParseNatLeadingZero(s[..|s| - 1]);
    } else {
      assert (['0'] + s)[..0] == [];
    }
  }

  /** Any number of leading zeros leaves the number unchanged. */
  lemma {:induction false} ParseNatLeadingZeros(n: nat, s: string)
    requires forall k :: 0 <= k < |s| ==> IsDigit(s[k])
    ensures forall k :: 0 <= k < n + |s| ==> IsDigit((Zeros(n) + s)[k])
    ensures ParseNat(Zeros(n) + s) == ParseNat(s)
    decreases n
  {
    if n > 0 {
      ParseNatLeadingZeros(n - 1, s);
      var t := Zeros(n - 1) + s;
      assert Zeros(n) + s == ['0'] + t;
      ParseNatLeadingZero(t);
    } else {
      assert Zeros(n) + s == s;
    }
  }

  /** Zero padding keeps the number a digit string reads as. */
  lemma ParseNatZeroPadded(s: string, width: nat)
    requires forall k :: 0 <= k < |s| ==> IsDigit(s[k])
    ensures forall k :: 0 <= k < |PadStart(s, width, '0')| ==> IsDigit(PadStart(s, width, '0')[k])
    ensures ParseNat(PadStart(s, width, '0')) == ParseNat(s)
  {
    if |s| < width {
      ParseNatLeadingZeros(width - |s|, s);
      assert PadStart(s, width, '0') == Zeros(width - |s|) + s;
    }
  }

  // ---------------------------------------------------------------- whitespace

  /** The characters `String.prototype.trim` removes (ECMAScript WhiteSpace and LineTerminator). */
  predicate IsWhitespace(c: char) {
    c == ' ' || c == '\t' || c == '\n' || c == '\r' || c == '\U{B}' || c == '\U{C}'
    || c == '\U{A0}' || c == '\U{1680}' || ('\U{2000}' <= c <= '\U{200A}')
    || c == '\U{2028}' || c == '\U{2029}' || c == '\U{202F}' || c == '\U{205F}'
    || c == '\U{3000}' || c == '\U{FEFF}'
  }

  predicate Blank(s: string) {
    forall k :: 0 <= k < |s| ==> IsWhitespace(s[k])
  }

  function TrimStart(s: string): string
    decreases |s|
  {
    if |s| > 0 && IsWhitespace(s[0]) then TrimStart(s[1..]) else s
  }

  function TrimEnd(s: string): string
    decreases |s|
  {
    if |s| > 0 && IsWhitespace(s[|s| - 1]) then TrimEnd(s[..|s| - 1]) else s
  }

  /** `s.trim()` */
  function Trim(s: string): string {
    TrimEnd(TrimStart(s))
  }

  lemma {:induction false} TrimStartEmpty(s: string)
    ensures TrimStart(s) == "" <==> Blank(s)
    ensures TrimStart(s) != "" ==> !IsWhitespace(TrimStart(s)[0])
    decreases |s|
  {
    if |s| > 0 && IsWhitespace(s[0]) {
      TrimStartEmpty(s[1..]);
      assert Blank(s) <==> Blank(s[1..]) by {
        assert forall k :: 0 <= k < |s[1..]| ==> s[1..][k] == s[k + 1];
      }
    }
  }

  lemma {:induction false} TrimEndKeepsFirst(s: string)
    requires |s| > 0 && !IsWhitespace(s[0])
    ensures TrimEnd(s) != ""
    decreases |s|
  {
    if IsWhitespace(s[|s| - 1]) {
      TrimEndKeepsFirst(s[..|s| - 1]);
    }
  }

  /** A string trims to nothing exactly when it is all whitespace (`!s.trim()` means blank). */
  lemma TrimEmptyIffBlank(s: string)
    ensures Trim(s) == "" <==> Blank(s)
  {
    TrimStartEmpty(s);
    if TrimStart(s) != "" {
      TrimEndKeepsFirst(TrimStart(s));
    }
  }
}
