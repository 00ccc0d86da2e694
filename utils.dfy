/** The portal's formatting and classification helpers (`src/lib/utils.ts`). */
module Utils {
  import opened Wrappers
  import opened Text

  // ---------------------------------------------------------------- formatTime

  /** `formatTime(seconds)`: `m:ss`, whole minutes then the remaining seconds on two digits. */
  function FormatTime(seconds: nat): (r: string)
    ensures |r| >= 4 && r[|r| - 3] == ':'
    ensures r[|r| - 2..] == Pad2(seconds % 60) && seconds % 60 < 60
  {
    NatToString(seconds / 60) + ":" + Pad2(seconds % 60)
  }

  /** Reads an `m:ss` clock back into seconds. */
  function ParseClock(t: string): Option<nat> {
    var parts := Split(t, ':');
    if |parts| == 2 && |parts[0]| > 0 && |parts[1]| > 0
       && (forall k :: 0 <= k < |parts[0]| ==> IsDigit(parts[0][k]))
       && (forall k :: 0 <= k < |parts[1]| ==> IsDigit(parts[1][k]))
    then Some(ParseNat(parts[0]) * 60 + ParseNat(parts[1]))
    else None
  }

  /** `formatTime` loses nothing: reading the clock back gives `mins * 60 + secs == seconds`. */
  lemma FormatTimeRoundTrip(seconds: nat)
    ensures ParseClock(FormatTime(seconds)) == Some(seconds)
  {
    var m, s := NatToString(seconds / 60), Pad2(seconds % 60);
    assert ':' !in m;
    assert ':' !in s;
    var ws := [m, s];
    assert Join(ws, [':']) == m + [':'] + Join(ws[1..], [':']);
    assert ws[1..] == [s];
    assert FormatTime(seconds) == Join(ws, [':']);
    SplitJoin(ws, ':');
    ParseNatToString(seconds / 60);
    ParsePad2(seconds % 60);
  }

  // ---------------------------------------------------------------- fit confidence

  /** `FIT_CONFIDENCE_THRESHOLDS` */
  const ExcellentThreshold := 95
  const GoodThreshold := 85
  const FairThreshold := 75

  /** `getFitConfidenceLevel(confidence)` */
  function FitConfidenceLevel(confidence: int): (r: string)
    ensures r == "excellent" <==> confidence >= ExcellentThreshold
    ensures r == "good" <==> GoodThreshold <= confidence < ExcellentThreshold
    ensures r == "fair" <==> FairThreshold <= confidence < GoodThreshold
    ensures r == "poor" <==> confidence < FairThreshold
  {
    if confidence >= ExcellentThreshold then "excellent"
    else if confidence >= GoodThreshold then "good"
    else if confidence >= FairThreshold then "fair"
    else "poor"
  }

  /** The levels from worst to best. */
  function LevelRank(level: string): int {
    if level == "excellent" then 3 else if level == "good" then 2 else if level == "fair" then 1 else 0
  }

  /** A higher confidence never gives a lower level. */
  lemma FitConfidenceMonotone(a: int, b: int)
    requires a <= b
    ensures LevelRank(FitConfidenceLevel(a)) <= LevelRank(FitConfidenceLevel(b))
  {
  }

  // ---------------------------------------------------------------- truncateText

  /** `truncateText(text, maxLength)`: `substring` clamps a negative end to 0. */
  function TruncateText(text: string, maxLength: int): (r: string)
    ensures |text| <= maxLength ==> r == text
    ensures |text| > maxLength ==> |r| == (if maxLength >= 3 then maxLength else 3)
    ensures |text| > maxLength ==> (r[|r| - 3..] == "..." && IsPrefix(r[..|r| - 3], text))
  {
    if |text| <= maxLength then text
    else
      var keep := if maxLength - 3 > 0 then maxLength - 3 else 0;
      text[..keep] + "..."
  }

  /** Truncation is idempotent for `maxLength >= 3`: a truncated text already fits. */
  lemma TruncateIdempotent(text: string, maxLength: int)
    requires maxLength >= 3
    ensures TruncateText(TruncateText(text, maxLength), maxLength) == TruncateText(text, maxLength)
  {
  }

  // ---------------------------------------------------------------- calculateProgress

  /** `Math.round((completed / total) * 100)` on exact rationals: the nearest integer to
      `100 * completed / total`, halves rounding up; 0 when `total` is 0. */
  function CalculateProgress(completed: int, total: int): (r: int)
    ensures total == 0 ==> r == 0
    ensures total > 0 ==> total * (2 * r - 1) <= 200 * completed < total * (2 * r + 1)
    ensures total < 0 ==> -total * (2 * r - 1) <= -200 * completed < -total * (2 * r + 1)
  {
    if total == 0 then 0
    else
      var n := if total > 0 then 100 * completed else -100 * completed;
      var d := if total > 0 then total else -total;
      (2 * n + d) / (2 * d)
  }

  /** A positive factor can be cancelled from a strict comparison. */
  lemma CancelPositive(a: int, x: int, y: int)
    requires a > 0 && a * x < a * y
    ensures x < y
  {
  }

  /** For `0 <= completed <= total` the result is a percentage. */
  lemma ProgressBounded(completed: int, total: int)
    requires 0 <= completed <= total
    ensures 0 <= CalculateProgress(completed, total) <= 100
  {
    var r := CalculateProgress(completed, total);
    if total > 0 {
      assert total * (2 * r - 1) < total * 201;
      CancelPositive(total, 2 * r - 1, 201);
      assert total * 0 < total * (2 * r + 1);
      CancelPositive(total, 0, 2 * r + 1);
    }
  }

  /** More work done never shows less progress. */
  lemma ProgressMonotone(c1: int, c2: int, total: int)
    requires total > 0 && c1 <= c2
    ensures CalculateProgress(c1, total) <= CalculateProgress(c2, total)
  {
    var r1, r2 := CalculateProgress(c1, total), CalculateProgress(c2, total);
    assert total * (2 * r1 - 1) < total * (2 * r2 + 1);
    CancelPositive(total, 2 * r1 - 1, 2 * r2 + 1);
  }

  // ---------------------------------------------------------------- capitalizeWords

  /** `word.charAt(0).toUpperCase() + word.slice(1).toLowerCase()` */
  function CapitalizeWord(w: string): (r: string)
    ensures |r| == |w|
    ensures ' ' !in w ==> ' ' !in r
  {
    if |w| == 0 then "" else Upper(w[..1]) + Lower(w[1..])
  }

  function MapCapitalize(ws: seq<string>): (r: seq<string>)
    ensures |r| == |ws|
    ensures forall k :: 0 <= k < |ws| ==> r[k] == CapitalizeWord(ws[k])
    decreases |ws|
  {
    if |ws| == 0 then [] else [CapitalizeWord(ws[0])] + MapCapitalize(ws[1..])
  }

  /** `capitalizeWords(str)` */
  function CapitalizeWords(s: string): string {
    Join(MapCapitalize(Split(s, ' ')), " ")
  }

  lemma CapitalizeWordIdempotent(w: string)
    ensures CapitalizeWord(CapitalizeWord(w)) == CapitalizeWord(w)
  {
    if |w| > 0 {
      var c := CapitalizeWord(w);
      assert c[..1] == Upper(w[..1]);
      assert c[1..] == Lower(w[1..]);
      UpperIdempotent(w[..1]);
      LowerIdempotent(w[1..]);
    }
  }

  /** The words of the result are the capitalised words of the input. */
  lemma CapitalizeWordsSplit(s: string)
    ensures Split(CapitalizeWords(s), ' ') == MapCapitalize(Split(s, ' '))
  {
    var ws := MapCapitalize(Split(s, ' '));
    forall k | 0 <= k < |ws| ensures ' ' !in ws[k] {
      assert ' ' !in Split(s, ' ')[k];
    }
    SplitJoin(ws, ' ');
  }

  /** Capitalising keeps the number of space-separated words. */
  lemma CapitalizeWordsKeepsWordCount(s: string)
    ensures |Split(CapitalizeWords(s), ' ')| == |Split(s, ' ')|
  {
    CapitalizeWordsSplit(s);
  }

  /** Capitalising twice is capitalising once. */
  lemma CapitalizeWordsIdempotent(s: string)
    ensures CapitalizeWords(CapitalizeWords(s)) == CapitalizeWords(s)
  {
    CapitalizeWordsSplit(s);
    var ws := MapCapitalize(Split(s, ' '));
    var ws2 := MapCapitalize(ws);
    forall k | 0 <= k < |ws| ensures ws2[k] == ws[k] {
      CapitalizeWordIdempotent(Split(s, ' ')[k]);
    }
    assert ws2 == ws;
  }

  // ---------------------------------------------------------------- getInitials

  /** `words.map(n => n[0]).join('')`: an empty word's `n[0]` is `undefined`, which `join` prints
      as nothing. */
  function FirstChars(ws: seq<string>): string
    decreases |ws|
  {
    if |ws| == 0 then ""
    else (if |ws[0]| > 0 then [ws[0][0]] else "") + FirstChars(ws[1..])
  }

  /** `getInitials(name)` */
  function GetInitials(name: string): string {
    Upper(FirstChars(Split(name, ' ')))
  }

  function NonEmpty(ws: seq<string>): (r: seq<string>)
    ensures forall k :: 0 <= k < |r| ==> |r[k]| > 0
    decreases |ws|
  {
    if |ws| == 0 then [] else (if |ws[0]| > 0 then [ws[0]] else []) + NonEmpty(ws[1..])
  }

  lemma {:induction false} FirstCharsOfNonEmpty(ws: seq<string>)
    ensures |FirstChars(ws)| == |NonEmpty(ws)|
    ensures forall k :: 0 <= k < |NonEmpty(ws)| ==> FirstChars(ws)[k] == NonEmpty(ws)[k][0]
    decreases |ws|
  {
    if |ws| > 0 {
      FirstCharsOfNonEmpty(ws[1..]);
    }
  }

  /** One upper-cased character per non-empty space-separated word, in order. */
  lemma GetInitialsSpec(name: string)
    ensures |GetInitials(name)| == |NonEmpty(Split(name, ' '))|
    ensures forall k :: 0 <= k < |GetInitials(name)| ==>
              GetInitials(name)[k] == UpperChar(NonEmpty(Split(name, ' '))[k][0])
  {
    FirstCharsOfNonEmpty(Split(name, ' '));
  }

  // ---------------------------------------------------------------- classNames

  /** An argument of `classNames`: a string, a boolean or `undefined`. */
  datatype ClassArg = Name(s: string) | Flag(b: bool) | Absent

  /** `Boolean(arg)` */
  predicate Kept(a: ClassArg) {
    match a
    case Name(s) => s != ""
    case Flag(b) => b
    case Absent => false
  }

  /** How `join` prints a kept argument: `true` prints as "true". */
  function Printed(a: ClassArg): string {
    match a
    case Name(s) => s
    case Flag(b) => if b then "true" else "false"
    case Absent => ""
  }

  function PrintedKept(args: seq<ClassArg>): (r: seq<string>)
    ensures |r| <= |args|
    decreases |args|
  {
    if |args| == 0 then []
    else (if Kept(args[0]) then [Printed(args[0])] else []) + PrintedKept(args[1..])
  }

  /** `classNames(...classes)` */
  function ClassNames(args: seq<ClassArg>): string {
    Join(PrintedKept(args), " ")
  }

  /** The classes that come out are exactly the kept arguments, in order: for class names without
      spaces, splitting the result recovers them. */
  lemma ClassNamesSplit(args: seq<ClassArg>)
    requires forall k :: 0 <= k < |args| ==> ' ' !in Printed(args[k])
    requires exists k :: 0 <= k < |args| && Kept(args[k])
    ensures Split(ClassNames(args), ' ') == PrintedKept(args)
  {
    PrintedKeptNoSpace(args);
    PrintedKeptNonEmpty(args);
    SplitJoin(PrintedKept(args), ' ');
  }

  lemma {:induction false} PrintedKeptNoSpace(args: seq<ClassArg>)
    requires forall k :: 0 <= k < |args| ==> ' ' !in Printed(args[k])
    ensures forall k :: 0 <= k < |PrintedKept(args)| ==> ' ' !in PrintedKept(args)[k]
    decreases |args|
  {
    if |args| > 0 {
      PrintedKeptNoSpace(args[1..]);
      assert ' ' !in Printed(args[0]);
    }
  }

  lemma {:induction false} PrintedKeptNonEmpty(args: seq<ClassArg>)
    requires exists k :: 0 <= k < |args| && Kept(args[k])
    ensures |PrintedKept(args)| >= 1
    decreases |args|
  {
    if !Kept(args[0]) {
      var k :| 0 <= k < |args| && Kept(args[k]);
      assert args[1..][k - 1] == args[k];
      PrintedKeptNonEmpty(args[1..]);
    }
  }

  /** With nothing truthy the result is the empty string. */
  lemma {:induction false} ClassNamesNoneKept(args: seq<ClassArg>)
    requires forall k :: 0 <= k < |args| ==> !Kept(args[k])
    ensures ClassNames(args) == ""
    decreases |args|
  {
    if |args| > 0 {
      ClassNamesNoneKept(args[1..]);
    }
  }

  // ---------------------------------------------------------------- formatDate('relative')

  const DayMs := 1000 * 60 * 60 * 24

  /** `Math.ceil(Math.abs(now - date) / day)` */
  function DiffDays(nowMs: int, dateMs: int): (d: nat)
    ensures var x := if nowMs >= dateMs then nowMs - dateMs else dateMs - nowMs;
            (d - 1) * DayMs < x <= d * DayMs
  {
    var x := if nowMs >= dateMs then nowMs - dateMs else dateMs - nowMs;
    (x + DayMs - 1) / DayMs
  }

  datatype Unit = Days | Weeks | Months | Years

  function UnitDays(u: Unit): nat {
    match u
    case Days => 1
    case Weeks => 7
    case Months => 30
    case Years => 365
  }

  function UnitName(u: Unit): string {
    match u
    case Days => " days ago"
    case Weeks => " weeks ago"
    case Months => " months ago"
    case Years => " years ago"
  }

  /** What the relative date says: today, yesterday, or a count of some unit. */
  datatype Relative = Today | Yesterday | Ago(count: nat, unit: Unit)

  function Bucket(diffDays: nat): Relative {
    if diffDays == 0 then Today
    else if diffDays == 1 then Yesterday
    else if diffDays < 7 then Ago(diffDays, Days)
    else if diffDays < 30 then Ago(diffDays / 7, Weeks)
    else if diffDays < 365 then Ago(diffDays / 30, Months)
    else Ago(diffDays / 365, Years)
  }

  function Render(r: Relative): string {
    match r
    case Today => "Today"
    case Yesterday => "Yesterday"
    case Ago(n, u) => NatToString(n) + UnitName(u)
  }

  /** `formatDate(date, 'relative')`, given the day difference. */
  function FormatRelative(diffDays: nat): (r: string)
    ensures r == "Today" <==> diffDays == 0
    ensures r == "Yesterday" <==> diffDays == 1
  {
    Render(Bucket(diffDays))
  }

  /** The count is the whole number of units in the difference, and each unit is used only in its
      range: days below 7, weeks below 30, months below 365. */
  lemma BucketBrackets(diffDays: nat)
    ensures Bucket(diffDays) == Today <==> diffDays == 0
    ensures Bucket(diffDays) == Yesterday <==> diffDays == 1
    ensures Bucket(diffDays).Ago? ==>
              var b := Bucket(diffDays);
              b.count * UnitDays(b.unit) <= diffDays < (b.count + 1) * UnitDays(b.unit)
              && b.count >= 1
    ensures Bucket(diffDays) == Ago(diffDays, Days) <==> 2 <= diffDays < 7
    ensures Bucket(diffDays).Ago? && Bucket(diffDays).unit == Weeks <==> 7 <= diffDays < 30
    ensures Bucket(diffDays).Ago? && Bucket(diffDays).unit == Months <==> 30 <= diffDays < 365
    ensures Bucket(diffDays).Ago? && Bucket(diffDays).unit == Years <==> diffDays >= 365
  {
  }

  function RelativeRank(r: Relative): int {
    match r
    case Today => 0
    case Yesterday => 1
    case Ago(_, u) => match u case Days => 2 case Weeks => 3 case Months => 4 case Years => 5
  }

  /** Older dates never use a finer unit. */
  lemma BucketMonotone(d1: nat, d2: nat)
    requires d1 <= d2
    ensures RelativeRank(Bucket(d1)) <= RelativeRank(Bucket(d2))
  {
  }

  /** Different buckets render differently: the text determines the bucket. */
  lemma RenderInjective(a: Relative, b: Relative)
    requires Render(a) == Render(b)
    ensures a == b
  {
    if a.Ago? && b.Ago? {
      var ta, tb := NatToString(a.count), NatToString(b.count);
      var ua, ub := UnitName(a.unit), UnitName(b.unit);
      DigitsThenSpace(ta, ua, tb, ub);
      assert ta == tb && ua == ub;
      ParseNatToString(a.count);
      ParseNatToString(b.count);
      assert a.unit == b.unit by {
        assert ua[1] == ub[1];
      }
    }
  }

  /** The position of the first character that is not a decimal digit. */
  function DigitRun(s: string): (n: nat)
    ensures n <= |s|
    decreases |s|
  {
    if |s| == 0 || !IsDigit(s[0]) then 0 else 1 + DigitRun(s[1..])
  }

  lemma {:induction false} DigitRunOfConcat(t: string, u: string)
    requires forall k :: 0 <= k < |t| ==> IsDigit(t[k])
    requires |u| > 0 && !IsDigit(u[0])
    ensures DigitRun(t + u) == |t|
    decreases |t|
  {
    if |t| > 0 {
      DigitRunOfConcat(t[1..], u);
      assert (t + u)[1..] == t[1..] + u;
    } else {
      assert t + u == u;
    }
  }

  lemma DigitsThenSpace(ta: string, ua: string, tb: string, ub: string)
    requires forall k :: 0 <= k < |ta| ==> IsDigit(ta[k])
    requires forall k :: 0 <= k < |tb| ==> IsDigit(tb[k])
    requires |ua| > 0 && |ub| > 0 && ua[0] == ' ' && ub[0] == ' '
    requires ta + ua == tb + ub
    ensures ta == tb && ua == ub
  {
    DigitRunOfConcat(ta, ua);
    DigitRunOfConcat(tb, ub);
    assert ta == (ta + ua)[..|ta|];
    assert tb == (tb + ub)[..|tb|];
    assert ua == (ta + ua)[|ta|..];
    assert ub == (tb + ub)[|tb|..];
  }

  // ---------------------------------------------------------------- getWeatherIcon

  const DefaultWeatherIcon := "\U{1F324}\U{FE0F}"

  /** The icon table of `getWeatherIcon`. */
  const WeatherIcons: map<string, string> := map[
    "clear" := "\U{2600}\U{FE0F}",
    "partly-cloudy" := "\U{26C5}",
    "cloudy" := "\U{2601}\U{FE0F}",
    "rain" := "\U{1F327}\U{FE0F}",
    "light-rain" := "\U{2614}",
    "heavy-rain" := "\U{26C8}\U{FE0F}",
    "snow" := "\U{2744}\U{FE0F}",
    "fog" := "\U{1F32B}\U{FE0F}"
  ]

  /** `getWeatherIcon(condition)`: the table's icon, or the sun-behind-cloud default. */
  function WeatherIcon(condition: string): (r: string)
    ensures condition in WeatherIcons ==> r == WeatherIcons[condition]
    ensures condition !in WeatherIcons ==> r == DefaultWeatherIcon
    ensures r != ""
  {
    if condition in WeatherIcons then WeatherIcons[condition] else DefaultWeatherIcon
  }

  /** The default is not one of the table's icons, so it appears exactly for unknown conditions. */
  lemma WeatherIconDefaultOnlyForUnknown(condition: string)
    ensures WeatherIcon(condition) == DefaultWeatherIcon <==> condition !in WeatherIcons
  {
  }
}
