/** The emotions panel of frontend/features.js: the radar's has-data rule,
    the dominant emotion shown (given or inferred from the breakdown), and
    the pattern summary with its share of the dominant emotion and its
    diversity score. */
module Emotions {
  import opened Text
  import opened Seqs
  import opened Json
  import opened Charts

  /** `report.emotions || {}`, then `{ ...em.breakdown }`, its keys and
      `Number(breakdown[k]) || 0` for each. */
  function PanelSeries(em: Value): (s: Series)
    ensures |s.labels| == |s.values|
  {
    EmotionSeries(Get(Or(em, Obj([])), "breakdown"))
  }

  /** `labels.length > 0 && hasNonZero(data)`. */
  predicate HasData(s: Series)
  {
    |s.labels| > 0 && HasNonZero(Arr(Nums(s.values)))
  }

  /** The series has data exactly when it has a label and a positive value. */
  lemma HasDataIff(s: Series)
    requires |s.labels| == |s.values|
    ensures HasData(s) <==> |s.labels| > 0 && exists i :: 0 <= i < |s.values| && s.values[i] > 0.0
  {
    var vs := Nums(s.values);
    assert forall i :: 0 <= i < |vs| ==> NumericOrZero(vs[i]) == s.values[i];
  }

  /** `ok && labels.length >= 3`: the radar is drawn. */
  predicate RadarDrawn(em: Value)
  {
    HasData(PanelSeries(em)) && |PanelSeries(em).labels| >= 3
  }

  /** The radar needs three labels and one positive value. */
  lemma RadarDrawnIff(em: Value)
    ensures var s := PanelSeries(em);
            RadarDrawn(em) <==> |s.labels| >= 3 && exists i :: 0 <= i < |s.values| && s.values[i] > 0.0
  {
    HasDataIff(PanelSeries(em));
  }

  /** What the dominant-emotion element ends up showing. */
  datatype Dominant = Given(v: Value) | Inferred(name: string) | Placeholder

  /** `em.dominant || "—"`, replaced, when no dominant is given and the
      series has data, by the label at `data.indexOf(Math.max(...data))`
      with its first character upper-cased. */
  function DominantShown(em: Value): Dominant
  {
    var given := Get(Or(em, Obj([])), "dominant");
    var s := PanelSeries(em);
    if Truthy(given) then Given(given)
    else if HasData(s) then Inferred(Capitalize(s.labels[FirstMaxIndex(s.values)]))
    else Placeholder
  }

  /** A given dominant is shown as is; otherwise one is inferred exactly
      when the series has data ... */
  lemma DominantCases(em: Value)
    ensures var given := Get(Or(em, Obj([])), "dominant");
            (DominantShown(em).Given? <==> Truthy(given))
            && (DominantShown(em).Inferred? <==> !Truthy(given) && HasData(PanelSeries(em)))
            && (DominantShown(em).Given? ==> DominantShown(em).v == given)
  {
  }

  /** ... and the inferred one is the first label holding the largest
      value, capitalized. */
  lemma InferredIsFirstMax(em: Value)
    requires DominantShown(em).Inferred?
    ensures var s := PanelSeries(em);
            exists i :: 0 <= i < |s.labels|
              && DominantShown(em).name == Capitalize(s.labels[i])
              && (forall j :: 0 <= j < |s.values| ==> s.values[j] <= s.values[i])
              && (forall j :: 0 <= j < i ==> s.values[j] < s.values[i])
  {
    var s := PanelSeries(em);
    var i := FirstMaxIndex(s.values);
    assert DominantShown(em).name == Capitalize(s.labels[i]);
  }

  /** The emotional-pattern summary. */
  datatype Summary = Summary(dominant: string, percent: real, diversity: int, rich: bool)

  function Positive(v: real): bool
  {
    v > 0.0
  }

  /** `Math.round((activeCount / 6) * 100)`. */
  function DiversityScore(active: nat): int
  {
    JsRound(active as real / 6.0 * 100.0)
  }

  /** The summary drawn when `ok && labels.length > 0`: the first label at
      the maximum (or "—" for an empty label), its share of the total,
      the diversity score and whether the "rich variety" text is chosen. */
  function SummaryOf(s: Series): Option<Summary>
    requires |s.labels| == |s.values|
  {
    if !HasData(s) then None
    else
      var m := FirstMaxIndex(s.values);
      var name := if s.labels[m] == "" then MisreadDash else s.labels[m];
      var total := Sum(s.values);
      var percent := if total > 0.0 then s.values[m] / total * 100.0 else 0.0;
      var diversity := if total > 0.0 then DiversityScore(Count(s.values, Positive)) else 0;
      Some(Summary(name, percent, diversity, diversity > 65))
  }

  /** The "rich variety" text is chosen exactly when at least four emotions
      are present (and the total is positive). */
  lemma RichIffFourActive(s: Series)
    requires |s.labels| == |s.values| && SummaryOf(s).Some?
    ensures SummaryOf(s).value.rich <==> Sum(s.values) > 0.0 && Count(s.values, Positive) >= 4
  {
    if Sum(s.values) > 0.0 {
      ScoreAboveSixtyFive(Count(s.values, Positive));
    }
  }

  /** A score above 65 means four or more of the six emotions. */
  lemma ScoreAboveSixtyFive(active: nat)
    ensures DiversityScore(active) > 65 <==> active >= 4
  {
    var x := active as real / 6.0 * 100.0;
    if active >= 4 {
      assert x >= 4.0 / 6.0 * 100.0;
    } else {
      assert x <= 3.0 / 6.0 * 100.0;
    }
  }

  /** With no negative value the share of the dominant emotion is a
      percentage. */
  lemma PercentInRange(s: Series)
    requires |s.labels| == |s.values| && SummaryOf(s).Some?
    requires forall i :: 0 <= i < |s.values| ==> s.values[i] >= 0.0
    ensures 0.0 <= SummaryOf(s).value.percent <= 100.0
  {
    var m := FirstMaxIndex(s.values);
    ElementAtMostSum(s.values, m);
    if Sum(s.values) > 0.0 {
      ShareOfWhole(s.values[m], Sum(s.values));
    }
  }

  lemma ShareOfWhole(part: real, whole: real)
    requires 0.0 <= part <= whole && whole > 0.0
    ensures 0.0 <= part / whole * 100.0 <= 100.0
  {
    var q := part / whole;
    assert q * whole == part;
  }

  /** A negative value elsewhere lets the share exceed 100: {a: 5, b: -4}
      gives 500. */
  lemma PercentUnboundedWithNegatives()
    ensures var s := Series(["a", "b"], [5.0, -4.0]);
            SummaryOf(s).Some? && SummaryOf(s).value.percent == 500.0
  {
    var s := Series(["a", "b"], [5.0, -4.0]);
    assert HasData(s) by {
      HasDataIff(s);
      assert s.values[0] > 0.0;
    }
    assert FirstMaxIndex(s.values) == 0;
    assert Sum(s.values) == 1.0 by {
      assert s.values[..1] == [5.0];
      assert Sum([5.0]) == Sum([]) + 5.0;
    }
  }
}
