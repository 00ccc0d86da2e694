/** The wardrobe shoe card (`ShoeCard`): the condition badge and the parts of the card that appear
    or not. */
module ShoeCard {
  import opened Wrappers
  import Text
  import Utils

  /** The fields of a shoe the card and the wardrobe screen look at; `lastWorn` is an instant. */
  datatype Shoe = Shoe(id: string, name: string, condition: string, fitConfidence: int,
                       lastWorn: Option<int>, occasions: seq<string>)

  /** The four conditions of the data model. */
  const Conditions: seq<string> := ["excellent", "good", "fair", "needs-attention"]

  /** `getConditionColor`: the badge variant. */
  function ConditionColor(condition: string): (r: string)
    ensures r == "default" <==> condition !in Conditions
    ensures condition == "needs-attention" <==> r == "error"
  {
    match condition
    case "excellent" => "success"
    case "good" => "info"
    case "fair" => "warning"
    case "needs-attention" => "error"
    case _ => "default"
  }

  /** `word.charAt(0).toUpperCase() + word.slice(1)`; the rest keeps its case. */
  function CapitalizeFirst(w: string): (r: string)
    ensures |r| == |w|
    ensures |w| > 0 ==> r[0] == Text.UpperChar(w[0]) && r[1..] == w[1..]
    ensures ' ' !in w ==> ' ' !in r
  {
    if |w| == 0 then "" else [Text.UpperChar(w[0])] + w[1..]
  }

  function MapCapitalizeFirst(ws: seq<string>): (r: seq<string>)
    ensures |r| == |ws|
    ensures forall k :: 0 <= k < |ws| ==> r[k] == CapitalizeFirst(ws[k])
    decreases |ws|
  {
    if |ws| == 0 then [] else [CapitalizeFirst(ws[0])] + MapCapitalizeFirst(ws[1..])
  }

  /** `getConditionLabel`: the dash-separated parts, each capitalised, joined with spaces. */
  function ConditionLabel(condition: string): string {
    Text.Join(MapCapitalizeFirst(Text.Split(condition, '-')), " ")
  }

  /** For a condition without spaces, the label's words are its capitalised parts, one for one. */
  lemma ConditionLabelWords(condition: string)
    requires ' ' !in condition
    ensures Text.Split(ConditionLabel(condition), ' ') == MapCapitalizeFirst(Text.Split(condition, '-'))
    ensures |Text.Split(ConditionLabel(condition), ' ')| == |Text.Split(condition, '-')|
  {
    var parts := Text.Split(condition, '-');
    var ws := MapCapitalizeFirst(parts);
    forall k | 0 <= k < |ws| ensures ' ' !in ws[k] {
      assert ' ' !in parts[k] by {
        Text.JoinSplit(condition, '-');
        PartsWithin(condition, '-', k, ' ');
      }
    }
    Text.SplitJoin(ws, ' ');
  }

  /** A character absent from a string is absent from each of its parts. */
  lemma {:induction false} PartsWithin(s: string, sep: char, k: nat, c: char)
    requires c !in s && k < |Text.Split(s, sep)|
    ensures c !in Text.Split(s, sep)[k]
    decreases |s|
  {
    if |s| > 0 {
      assert c !in s[1..];
      var rest := Text.Split(s[1..], sep);
      if s[0] == sep {
        if k > 0 {
          PartsWithin(s[1..], sep, k - 1, c);
        }
      } else {
        PartsWithin(s[1..], sep, if k == 0 then 0 else k, c);
        if k == 0 {
          assert Text.Split(s, sep)[0] == [s[0]] + rest[0];
        } else {
          assert Text.Split(s, sep)[k] == rest[k];
        }
      }
    }
  }

  /** A two-part condition such as `needs-attention` reads as its two capitalised parts with a
      space between them ("Needs Attention"). */
  lemma TwoPartLabel(a: string, b: string)
    requires '-' !in a && '-' !in b
    ensures ConditionLabel(a + "-" + b) == CapitalizeFirst(a) + " " + CapitalizeFirst(b)
  {
    var ws := [a, b];
    assert ws[1..] == [b];
    assert Text.Join(ws, "-") == a + "-" + b;
    Text.SplitJoin(ws, '-');
    var cs := MapCapitalizeFirst(ws);
    assert cs == [CapitalizeFirst(a), CapitalizeFirst(b)];
    assert cs[1..] == [CapitalizeFirst(b)];
    assert Text.Split(a + "-" + b, '-') == ws;
    assert Text.Join(cs, " ") == CapitalizeFirst(a) + " " + CapitalizeFirst(b);
  }

  /** Below this confidence the card offers the Update button. */
  const UpdateThreshold := 90

  /** What the card shows besides the always-present fields. */
  datatype Display = Display(updateButton: bool, lastWornLine: bool, attentionPanel: bool)

  function DisplayOf(s: Shoe): (d: Display)
    ensures d.updateButton <==> s.fitConfidence < UpdateThreshold
    ensures d.lastWornLine <==> s.lastWorn.Some?
    ensures d.attentionPanel <==> s.condition == "needs-attention"
    ensures d.attentionPanel <==> ConditionColor(s.condition) == "error"
  {
    Display(s.fitConfidence < UpdateThreshold, s.lastWorn.Some?, s.condition == "needs-attention")
  }

  /** A shoe whose fit is rated excellent is never offered an update; a good one may be. */
  lemma UpdateOnlyBelowExcellent(s: Shoe)
    ensures DisplayOf(s).updateButton ==> Utils.FitConfidenceLevel(s.fitConfidence) != "excellent"
    ensures s.fitConfidence == 88 ==>
              DisplayOf(s).updateButton && Utils.FitConfidenceLevel(s.fitConfidence) == "good"
  {
  }
}
