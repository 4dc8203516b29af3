/** The two ways the dashboard pages turn a backend sentiment value into the
    Positive / Neutral / Negative percentages they chart, and the pick of
    the dominant tone. Arithmetic is exact; the one-decimal rounding the
    pages apply for display is not part of the model. */
module Sentiment {
  import opened Json

  /** The chart's three slices, in the order the pages list them. */
  datatype Percentages = Percentages(pos: real, neu: real, neg: real)

  function Total(p: Percentages): real { p.pos + p.neu + p.neg }

  predicate InPercentRange(p: Percentages)
  {
    0.0 <= p.pos <= 100.0 && 0.0 <= p.neu <= 100.0 && 0.0 <= p.neg <= 100.0
  }

  function Max0(x: real): (r: real)
    ensures r >= 0.0 && r >= x
    ensures x >= 0.0 ==> r == x
  {
    if x > 0.0 then x else 0.0
  }

  function Clamp01(x: real): (r: real)
    ensures 0.0 <= r <= 1.0
    ensures 0.0 <= x <= 1.0 ==> r == x
  {
    if x < 0.0 then 0.0 else if x > 1.0 then 1.0 else x
  }

  lemma ShareOfTotal(x: real, d: real)
    requires 0.0 <= x <= d && d > 0.0
    ensures 0.0 <= x / d * 100.0 <= 100.0
  {
    assert x / d <= 1.0;
  }

  lemma SharesSum(a: real, b: real, c: real, d: real)
    requires d > 0.0 && a + b + c == d
    ensures a / d * 100.0 + b / d * 100.0 + c / d * 100.0 == 100.0
  {
    assert a / d + b / d + c / d == (a + b + c) / d;
  }

  /** Three non-negative shares as percentages of their sum, with a sum of 0
      replaced by 1 (the pages' `sum || 1`). */
  function Normalized(a: real, b: real, c: real): (r: Percentages)
    requires a >= 0.0 && b >= 0.0 && c >= 0.0
    ensures InPercentRange(r)
    ensures a + b + c > 0.0 ==> Total(r) == 100.0
    ensures a + b + c == 0.0 ==> r == Percentages(0.0, 0.0, 0.0)
  {
    var t := a + b + c;
    var d := if t != 0.0 then t else 1.0;
    ShareOfTotal(if t != 0.0 then a else 0.0, d);
    ShareOfTotal(if t != 0.0 then b else 0.0, d);
    ShareOfTotal(if t != 0.0 then c else 0.0, d);
    if t != 0.0 then SharesSum(a, b, c, d); Percentages(a / d * 100.0, b / d * 100.0, c / d * 100.0)
    else Percentages(0.0, 0.0, 0.0)
  }

  /** Each percentage is its share's part of the sum. */
  lemma NormalizedProportional(a: real, b: real, c: real, t: real)
    requires a >= 0.0 && b >= 0.0 && c >= 0.0 && t == a + b + c && t > 0.0
    ensures var r := Normalized(a, b, c);
            r.pos * t == a * 100.0 && r.neu * t == b * 100.0 && r.neg * t == c * 100.0
  {
    var r := Normalized(a, b, c);
    assert r.pos == a / t * 100.0;
    assert r.neu == b / t * 100.0;
    assert r.neg == c / t * 100.0;
  }

  /** `Math.max(0, Number(s[k] ?? 0))`. */
  function RawShare(s: Value, k: string): (r: real)
    ensures r >= 0.0
  {
    Max0(NumberOrZero(Coalesce(Get(s, k), Num(0.0))))
  }

  /** The positive, negative and neutral shares before damping. */
  datatype Shares = Shares(pos: real, neg: real, neu: real)

  function RawShares(s: Value): Shares
  {
    Shares(RawShare(s, "positive"), RawShare(s, "negative"), RawShare(s, "neutral"))
  }

  predicate AllZero(sh: Shares) { sh.pos == 0.0 && sh.neg == 0.0 && sh.neu == 0.0 }

  /** `Number(s.polarity) || 0`. */
  function Polarity(s: Value): real
  {
    NumberOrZero(Get(s, "polarity"))
  }

  /** `Math.min(1, Math.max(0, Number(s.subjectivity) || 0))`. */
  function Subjectivity(s: Value): (r: real)
    ensures 0.0 <= r <= 1.0
  {
    Clamp01(NumberOrZero(Get(s, "subjectivity")))
  }

  /** The shares the backend deriver works with: the raw shares, or, when
      all of them are zero, shares derived from polarity and subjectivity. */
  function BackendShares(s: Value): (sh: Shares)
    ensures sh.pos >= 0.0 && sh.neg >= 0.0 && sh.neu >= 0.0
    ensures !AllZero(RawShares(s)) ==> sh == RawShares(s)
    ensures AllZero(RawShares(s)) ==>
              sh == Shares(Max0(Polarity(s)), Max0(-Polarity(s)), (1.0 - Subjectivity(s)) * 0.5)
  {
    var raw := RawShares(s);
    if !AllZero(raw) then raw
    else
      var polarity := Polarity(s);
      Shares(if polarity > 0.0 then polarity else 0.0,
             if polarity < 0.0 then -polarity else 0.0,
             (1.0 - Subjectivity(s)) * 0.5)
  }

  /** The denominator before the `|| 1` fallback. */
  function BackendTotal(s: Value): (t: real)
    ensures t >= 0.0
  {
    var sh := BackendShares(s);
    sh.pos + sh.neg + sh.neu * 0.6
  }

  /** `sentimentFromBackend` (frontend/dashboard.js and frontend/features.js). */
  function SentimentFromBackend(s: Value): (r: Percentages)
    ensures InPercentRange(r)
    ensures BackendTotal(s) > 0.0 ==> Total(r) == 100.0
    ensures BackendTotal(s) == 0.0 ==> r == Percentages(0.0, 0.0, 0.0)
  {
    var sh := BackendShares(s);
    Normalized(sh.pos, sh.neu * 0.6, sh.neg)  // neutral damped by 0.6
  }

  /** A sentiment carrying no numbers at all reads as fully neutral: with
      subjectivity absent the neutral share is one half. */
  lemma BackendEmptyIsNeutral(s: Value)
    requires !s.Obj?
    ensures SentimentFromBackend(s) == Percentages(0.0, 100.0, 0.0)
  {
    assert RawShares(s) == Shares(0.0, 0.0, 0.0);
    assert BackendShares(s) == Shares(0.0, 0.0, 0.5);
  }

  /** The same holds for an object without any of the five fields. */
  lemma BackendNoFieldsIsNeutral(ms: seq<Member>)
    requires "positive" !in Keys(ms) && "negative" !in Keys(ms) && "neutral" !in Keys(ms)
    requires "polarity" !in Keys(ms) && "subjectivity" !in Keys(ms)
    ensures SentimentFromBackend(Obj(ms)) == Percentages(0.0, 100.0, 0.0)
  {
    var s := Obj(ms);
    assert RawShares(s) == Shares(0.0, 0.0, 0.0);
    assert BackendShares(s) == Shares(0.0, 0.0, 0.5);
  }

  /** All three slices vanish exactly when there are no shares, polarity is
      zero and subjectivity is at least one. */
  lemma BackendAllZeroIff(s: Value)
    ensures SentimentFromBackend(s) == Percentages(0.0, 0.0, 0.0)
        <==> AllZero(RawShares(s)) && Polarity(s) == 0.0 && Subjectivity(s) == 1.0
  {
    var r := SentimentFromBackend(s);
    if r == Percentages(0.0, 0.0, 0.0) {
      assert BackendTotal(s) == 0.0;
      var sh := BackendShares(s);
      assert sh.pos + sh.neg + sh.neu * 0.6 == 0.0;
      assert sh.pos == 0.0 && sh.neg == 0.0 && sh.neu == 0.0;
    }
  }

  /** The backend deriver normalizes the damped shares: together with
      `NormalizedProportional`, each slice is its damped share of the
      damped total. */
  lemma BackendIsNormalized(s: Value)
    ensures var sh := BackendShares(s);
            SentimentFromBackend(s) == Normalized(sh.pos, sh.neu * 0.6, sh.neg)
  {
  }

  /** When the backend sends any positive share, those shares are used and
      the damped total is positive. */
  lemma BackendRawSharesPositive(s: Value)
    requires !AllZero(RawShares(s))
    ensures BackendShares(s) == RawShares(s)
    ensures BackendTotal(s) > 0.0
  {
    var sh := RawShares(s);
    assert sh.neu * 0.6 >= 0.0;
  }

  // ----- sentimentFromPolarity (frontend/js/dashboard.js) -----

  /** `Math.max(0, s[k] || 0)`. */
  function ObjectShare(s: Value, k: string): (r: real)
    ensures r >= 0.0
  {
    Max0(NumberOrZero(Or(Get(s, k), Num(0.0))))
  }

  /** The sum of the clamped shares in the object branch. */
  function ObjectSum(s: Value): (t: real)
    ensures t >= 0.0
  {
    ObjectShare(s, "positive") + ObjectShare(s, "negative") + ObjectShare(s, "neutral")
  }

  /** `typeof s === "object" && s !== null`. */
  predicate IsObjectLike(s: Value) { s.Obj? || s.Arr? }

  /** The percentages for a scalar polarity reading p. */
  function ScalarPercentages(p: real): (r: Percentages)
    ensures InPercentRange(r)
    ensures Total(r) == 100.0
  {
    var pos := if p > 0.0 then p * 100.0 else 0.0;
    var neg := if p < 0.0 then -p * 100.0 else 0.0;
    var neu := Max0(100.0 - pos - neg);
    Normalized(pos, neu, neg)
  }

  /** `sentimentFromPolarity`: a breakdown object is normalized by the sum of
      its clamped shares; anything else is read as a polarity number. */
  function SentimentFromPolarity(s: Value): (r: Percentages)
    ensures InPercentRange(r)
    ensures IsObjectLike(s) && ObjectSum(s) > 0.0 ==> Total(r) == 100.0
    ensures IsObjectLike(s) && ObjectSum(s) == 0.0 ==> r == Percentages(0.0, 0.0, 0.0)
    ensures !IsObjectLike(s) ==> Total(r) == 100.0
  {
    if IsObjectLike(s) then
      Normalized(ObjectShare(s, "positive"), ObjectShare(s, "neutral"), ObjectShare(s, "negative"))
    else
      ScalarPercentages(NumberOrZero(s))
  }

  /** A polarity within [-1, 1] maps linearly onto the three slices. */
  lemma PolarityLinear(p: real)
    requires -1.0 <= p <= 1.0
    ensures SentimentFromPolarity(Num(p))
         == Percentages(Max0(p) * 100.0, 100.0 - (if p >= 0.0 then p else -p) * 100.0, Max0(-p) * 100.0)
  {
    var pos := if p > 0.0 then p * 100.0 else 0.0;
    var neg := if p < 0.0 then -p * 100.0 else 0.0;
    assert NumberOrZero(Num(p)) == p;
    assert Max0(100.0 - pos - neg) == 100.0 - pos - neg;
    NormalizedHundred(pos, 100.0 - pos - neg, neg);
  }

  /** Shares that already sum to 100 are their own percentages. */
  lemma NormalizedHundred(a: real, b: real, c: real)
    requires a >= 0.0 && b >= 0.0 && c >= 0.0 && a + b + c == 100.0
    ensures Normalized(a, b, c) == Percentages(a, b, c)
  {
    assert a / 100.0 * 100.0 == a;
    assert b / 100.0 * 100.0 == b;
    assert c / 100.0 * 100.0 == c;
  }

  /** A polarity beyond [-1, 1] saturates to a single slice. */
  lemma PolaritySaturates(p: real)
    requires p > 1.0 || p < -1.0
    ensures SentimentFromPolarity(Num(p))
         == if p > 1.0 then Percentages(100.0, 0.0, 0.0) else Percentages(0.0, 0.0, 100.0)
  {
  }

  /** A report without sentiment is charted as `sentimentFromPolarity(0)`:
      fully neutral. */
  lemma AbsentSentimentIsNeutral(report: Value)
    requires Get(report, "sentiment").Undefined? || Get(report, "sentiment").Null?
    ensures SentimentFromPolarity(Coalesce(Get(report, "sentiment"), Num(0.0)))
         == Percentages(0.0, 100.0, 0.0)
  {
    PolarityLinear(0.0);
  }

  // ----- Dominant tone (frontend/features.js) -----

  datatype Tone = Positive | Neutral | Negative

  /** The tone shown in the sentiment description and its percentage:
      Positive or Negative only when that slice strictly exceeds both
      others, Neutral otherwise, ties included. */
  method DominantSentiment(posPct: real, neuPct: real, negPct: real) returns (tone: Tone, value: real)
    ensures tone == Positive <==> posPct > neuPct && posPct > negPct
    ensures tone == Negative <==> negPct > posPct && negPct > neuPct
    ensures tone == Neutral ==> value == neuPct
    ensures tone == Positive ==> value == posPct
    ensures tone == Negative ==> value == negPct
    ensures tone != Neutral ==> value > neuPct
  {
    tone := Neutral;
    value := neuPct;
    if posPct > neuPct && posPct > negPct {
      tone := Positive;
      value := posPct;
    } else if negPct > posPct && negPct > neuPct {
      tone := Negative;
      value := negPct;
    }
  }
}
