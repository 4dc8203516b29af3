/** The chart-data adapters of the dashboard and features pages: the
    "has data" rule, the keyword, sentiment, emotion and keyness charts,
    and the value panels of frontend/js/features.js. Rendering itself is
    not modelled; each adapter yields the labels and values a chart would
    be drawn with, whether it is drawn, or that the page stops on a
    TypeError first. */
module Charts {
  import opened Text
  import opened Seqs
  import opened Json
  import opened Sentiment
  import opened Normalize

  /** What a chart block ends in: a TypeError that stops the page script,
      the empty placeholder, or a chart drawn from `data`. */
  datatype Chart<T> = Crashed | Empty | Drawn(data: T)

  /** Bar-chart inputs: one label and one value per bar. */
  datatype BarData = BarData(labels: seq<Value>, values: seq<Value>)

  /** Radar-chart inputs with numeric values. */
  datatype Series = Series(labels: seq<string>, values: seq<real>)

  // ----- hasNonZero -----

  /** `typeof v === "number" ? v : 0`. */
  function NumericOrZero(v: Value): real
  {
    if v.Num? then v.n else 0.0
  }

  /** `items.some(v => (typeof v === "number" ? v : 0) > 0)`. */
  function SomePositive(items: seq<Value>): (b: bool)
    ensures b <==> exists i :: 0 <= i < |items| && NumericOrZero(items[i]) > 0.0
  {
    if items == [] then false
    else
      assert forall i :: 1 <= i < |items| ==> items[i] == items[1..][i - 1];
      NumericOrZero(items[0]) > 0.0 || SomePositive(items[1..])
  }

  /** `hasNonZero(arr)`: an array holding some number above zero;
      non-numbers count as zero. */
  predicate HasNonZero(arr: Value)
  {
    arr.Arr? && SomePositive(arr.items)
  }

  /** The values of a numeric series, as the pages feed them to the rule. */
  function Nums(xs: seq<real>): (r: seq<Value>)
    ensures |r| == |xs|
    ensures forall i :: 0 <= i < |xs| ==> r[i] == Num(xs[i])
  {
    seq(|xs|, i requires 0 <= i < |xs| => Num(xs[i]))
  }

  // ----- keywords (dashboard pages) -----

  /** `top = list.slice(0, n)` then `top.map(x => x.token)` and
      `top.map(x => x.count)`; None when an entry read is null or undefined. */
  function TokenCounts(list: seq<Value>, n: nat): (r: Option<BarData>)
    ensures r.None? <==> HasNullish(Take(list, n))
    ensures r.Some? ==>
              |r.value.labels| == |r.value.values| == |Take(list, n)| <= n
              && (forall i :: 0 <= i < |r.value.labels| ==>
                    r.value.labels[i] == Get(list[i], "token") && r.value.values[i] == Get(list[i], "count"))
  {
    var top := Take(list, n);
    if HasNullish(top) then None
    else Some(BarData(seq(|top|, i requires 0 <= i < |top| => Get(top[i], "token")),
                      seq(|top|, i requires 0 <= i < |top| => Get(top[i], "count"))))
  }

  /** A null or undefined entry among the first m is also among the first
      n, for m <= n. */
  lemma NullishInLongerTake(s: seq<Value>, m: nat, n: nat)
    requires m <= n
    ensures HasNullish(Take(s, m)) ==> HasNullish(Take(s, n))
  {
    if HasNullish(Take(s, m)) {
      var i :| 0 <= i < |Take(s, m)| && IsNullish(Take(s, m)[i]);
      assert Take(s, m)[i] == s[i] == Take(s, n)[i];
    }
  }

  /** `resp?.keywords?.list || []`. */
  function KeywordList(report: Value): Value
  {
    Or(Get(Get(report, "keywords"), "list"), Arr([]))
  }

  /** The keyword bar chart: the first ten entries, drawn when there is a
      label and some count above zero. */
  function KeywordChart(report: Value): (r: Chart<BarData>)
    ensures r.Crashed? <==> !KeywordList(report).Arr? || HasNullish(Take(KeywordList(report).items, 10))
    ensures r.Drawn? ==> 0 < |r.data.labels| <= 10 && Some(r.data) == TokenCounts(KeywordList(report).items, 10)
    ensures r.Drawn? <==>
              KeywordList(report).Arr? && !HasNullish(Take(KeywordList(report).items, 10))
              && exists i :: 0 <= i < |Take(KeywordList(report).items, 10)|
                   && NumericOrZero(Get(KeywordList(report).items[i], "count")) > 0.0
  {
    var list := KeywordList(report);
    if !list.Arr? then Crashed
    else
      match TokenCounts(list.items, 10)
      case None => Crashed
      case Some(bar) =>
        if |bar.labels| > 0 && SomePositive(bar.values) then Drawn(bar) else Empty
  }

  // ----- sentiment doughnut -----

  /** `hasNonZero([posPct, neuPct, negPct])`. */
  predicate SentimentDrawn(p: Percentages)
  {
    HasNonZero(Arr(Nums([p.pos, p.neu, p.neg])))
  }

  /** Percentages in range are drawn exactly when they do not all vanish. */
  lemma SentimentDrawnIff(p: Percentages)
    requires InPercentRange(p)
    ensures SentimentDrawn(p) <==> Total(p) > 0.0
  {
    var items := Nums([p.pos, p.neu, p.neg]);
    assert NumericOrZero(items[0]) == p.pos;
    assert NumericOrZero(items[1]) == p.neu;
    assert NumericOrZero(items[2]) == p.neg;
  }

  /** frontend/dashboard.js and frontend/features.js draw the doughnut
      exactly when the weighted backend total is positive. */
  lemma BackendSentimentDrawnIff(s: Value)
    ensures SentimentDrawn(SentimentFromBackend(s)) <==> BackendTotal(s) > 0.0
  {
    SentimentDrawnIff(SentimentFromBackend(s));
  }

  /** frontend/js/dashboard.js draws the doughnut for every polarity number,
      and for a breakdown object exactly when its clamped shares do not all
      vanish. */
  lemma PolaritySentimentDrawnIff(s: Value)
    ensures SentimentDrawn(SentimentFromPolarity(s)) <==> !IsObjectLike(s) || ObjectSum(s) > 0.0
  {
    SentimentDrawnIff(SentimentFromPolarity(s));
  }

  // ----- emotions radar (dashboard pages) -----

  /** `resp?.emotions?.breakdown || {}`. */
  function Breakdown(report: Value): Value
  {
    Or(Get(EmotionsOf(report), "breakdown"), Obj([]))
  }

  /** `Object.keys(b)` and `keys.map(k => Number(b[k]) || 0)`. */
  function EmotionSeries(b: Value): (r: Series)
    ensures |r.labels| == |r.values| == |OwnEntries(b)|
    ensures forall i :: 0 <= i < |r.labels| ==>
              r.labels[i] == OwnEntries(b)[i].key && r.values[i] == NumberOrZero(OwnEntries(b)[i].val)
  {
    var es := OwnEntries(b);
    Series(seq(|es|, i requires 0 <= i < |es| => es[i].key),
           seq(|es|, i requires 0 <= i < |es| => NumberOrZero(es[i].val)))
  }

  /** The emotions radar over a breakdown: drawn when it has a key whose
      value reads as a number above zero. */
  function EmotionChartOf(b: Value): (r: Chart<Series>)
    ensures !r.Crashed?
    ensures r.Drawn? ==> r.data == EmotionSeries(b) && |r.data.labels| > 0
    ensures r.Drawn? <==> exists i :: 0 <= i < |OwnEntries(b)| && NumberOrZero(OwnEntries(b)[i].val) > 0.0
  {
    var s := EmotionSeries(b);
    var vs := Nums(s.values);
    assert forall i :: 0 <= i < |vs| ==> NumericOrZero(vs[i]) == s.values[i];
    if |s.labels| > 0 && HasNonZero(Arr(vs)) then Drawn(s) else Empty
  }

  /** The emotions radar of a report. */
  function EmotionChart(report: Value): Chart<Series>
  {
    EmotionChartOf(Breakdown(report))
  }

  /** The emotions the analysis module returns, `{dominant, distribution}`,
      carry no `breakdown`: wrapped whole as the breakdown, their two values
      read as zero, so the radar stays empty. */
  lemma DominantDistributionWrapped(d: string, dist: seq<Member>)
    requires |d| > 0 && !IsDigit(d[0]) && d[0] != '-'
    ensures var em := Obj([Member("dominant", Str(d)), Member("distribution", Obj(dist))]);
            EmotionChartOf(Or(Get(NormalizeEmotions(em), "breakdown"), Obj([]))) == Empty
  {
    var ms := [Member("dominant", Str(d)), Member("distribution", Obj(dist))];
    var em := Obj(ms);
    LookupMissing(ms, "breakdown");
    assert Get(NormalizeEmotions(em), "breakdown") == em by {
      LookupAt([Member("breakdown", em)], 0);
    }
    assert !AllDigits(d);
    assert NumberOrZero(Str(d)) == 0.0;
    assert NumberOrZero(Obj(dist)) == 0.0;
    NoPositiveValueEmpty(ms);
  }

  /** A breakdown none of whose values reads as a positive number is not
      charted. */
  lemma NoPositiveValueEmpty(ms: seq<Member>)
    requires forall m :: m in ms ==> NumberOrZero(m.val) == 0.0
    ensures EmotionChartOf(Obj(ms)) == Empty
  {
    var es := OwnEntries(Obj(ms));
    forall i | 0 <= i < |es|
      ensures NumberOrZero(es[i].val) == 0.0
    {
      assert es[i] in multiset(ms);
    }
  }

  /** A dashboard report carrying the analysis module's emotions never draws
      the emotions radar. */
  lemma DominantDistributionNotCharted(resp: Value, d: string, dist: seq<Member>)
    requires resp.Obj? && NormalizeReport(resp).Shaped?
    requires EmotionsOf(resp) == Obj([Member("dominant", Str(d)), Member("distribution", Obj(dist))])
    requires |d| > 0 && !IsDigit(d[0]) && d[0] != '-'
    ensures EmotionChart(NormalizeReport(resp).view) == Empty
  {
    DominantDistributionWrapped(d, dist);
  }

  // ----- keyness (frontend/features.js) -----

  /** `x.score || x.keyness || x.count || 0`. */
  function KeynessValue(x: Value): (r: Value)
    ensures Truthy(Get(x, "score")) ==> r == Get(x, "score")
    ensures !Truthy(Get(x, "score")) && Truthy(Get(x, "keyness")) ==> r == Get(x, "keyness")
    ensures !Truthy(Get(x, "score")) && !Truthy(Get(x, "keyness")) && Truthy(Get(x, "count")) ==> r == Get(x, "count")
    ensures Truthy(r) || r == Num(0.0)
  {
    Or(Or(Or(Get(x, "score"), Get(x, "keyness")), Get(x, "count")), Num(0.0))
  }

  /** `Array.isArray(keyness.list) ? keyness.list : []` with
      `keyness = report.keyness || {}`. */
  function KeynessList(report: Value): seq<Value>
  {
    ArrayOrEmpty(Get(Or(Get(report, "keyness"), Obj([])), "list"))
  }

  /** The keyness bar chart: drawn for a non-empty list, from its first ten
      entries. */
  function KeynessChart(report: Value): (r: Chart<BarData>)
    ensures r.Empty? <==> KeynessList(report) == []
    ensures r.Crashed? <==> KeynessList(report) != [] && HasNullish(Take(KeynessList(report), 10))
    ensures r.Drawn? ==>
              var top := Take(KeynessList(report), 10);
              |r.data.labels| == |r.data.values| == |top| <= 10
              && forall i :: 0 <= i < |top| ==>
                   r.data.labels[i] == Get(top[i], "token") && r.data.values[i] == KeynessValue(top[i])
  {
    var list := KeynessList(report);
    if list == [] then Empty
    else
      var top := Take(list, 10);
      if HasNullish(top) then Crashed
      else Drawn(BarData(seq(|top|, i requires 0 <= i < |top| => Get(top[i], "token")),
                         seq(|top|, i requires 0 <= i < |top| => KeynessValue(top[i]))))
  }

  // ----- value panels of frontend/js/features.js -----

  /** The keyword panel: badges, the frequency and bigram bars and the
      clickable list of entries. */
  datatype KeywordPanel = KeywordPanel(unique: Value, top: Value, frequency: BarData, bigrams: BarData, entries: seq<Value>)

  /** `v || []` read as an array; None for a truthy value that is not one. */
  function ListValue(v: Value): Option<seq<Value>>
  {
    ListOr(v)
  }

  function KeywordPanelOf(report: Value): (r: Option<KeywordPanel>)
    ensures var kw := Or(Get(report, "keywords"), Obj([]));
            var list := ListOr(Get(kw, "list"));
            var bigrams := ListOr(Get(Or(Get(kw, "ngrams"), Obj([])), "bigrams"));
            (r.None? <==> list.None? || bigrams.None? || HasNullish(Take(list.value, 40)) || HasNullish(Take(bigrams.value, 10)))
            && (r.Some? ==> Some(r.value.frequency) == TokenCounts(list.value, 10)
                            && Some(r.value.bigrams) == TokenCounts(bigrams.value, 10))
    ensures r.Some? ==>
              var kw := Or(Get(report, "keywords"), Obj([]));
              ListOr(Get(kw, "list")).Some?
              && var list := ListOr(Get(kw, "list")).value;
              |r.value.frequency.labels| <= 10 && |r.value.bigrams.labels| <= 10
              && r.value.entries == Take(list, 40) && |r.value.entries| <= 40
              && (Truthy(r.value.unique) || r.value.unique == Num(0.0))
              && (Truthy(r.value.top) || r.value.top == Str("—"))
  {
    var kw := Or(Get(report, "keywords"), Obj([]));
    match ListOr(Get(kw, "list"))
    case None => None
    case Some(list) =>
      NullishInLongerTake(list, 10, 40);
      var bigrams := ListOr(Get(Or(Get(kw, "ngrams"), Obj([])), "bigrams"));
      if bigrams.None? then None
      else
        match (TokenCounts(list, 10), TokenCounts(bigrams.value, 10))
        case (Some(freq), Some(bi)) =>
          if HasNullish(Take(list, 40)) then None
          else Some(KeywordPanel(Or(Get(kw, "unique"), Num(0.0)), Or(Get(kw, "top"), Str("—")), freq, bi, Take(list, 40)))
        case _ => None
  }

  /** Where the dashboard draws its keyword chart and the features panel
      is shown, the panel's frequency bars are the dashboard's bars. */
  lemma KeywordBarsAgree(report: Value)
    requires KeywordChart(report).Drawn? && KeywordPanelOf(report).Some?
    ensures KeywordPanelOf(report).value.frequency == KeywordChart(report).data
  {
    PanelListIsKeywordList(report);
  }

  /** The panel's `kw.list || []` with `kw = report.keywords || {}` reads the
      same list as the dashboard's `resp?.keywords?.list || []`. */
  lemma PanelListIsKeywordList(report: Value)
    requires KeywordList(report).Arr?
    ensures ListOr(Get(Or(Get(report, "keywords"), Obj([])), "list")) == Some(KeywordList(report).items)
  {
    var k := Get(report, "keywords");
    if !Truthy(k) {
      assert !k.Obj?;
      assert Get(Or(k, Obj([])), "list") == Undefined == Get(k, "list");
    }
  }

  /** A bare keyword array, once the features page has wrapped it, is what
      the panel lists. */
  lemma WrappedKeywordsListed(report: Value)
    requires report.Obj? && Get(report, "keywords").Arr?
    requires KeywordPanelOf(NormalizeForFeatures(report)).Some?
    ensures KeywordPanelOf(NormalizeForFeatures(report)).value.entries == Take(Get(report, "keywords").items, 40)
  {
    var k := Get(report, "keywords");
    var kw := Get(NormalizeForFeatures(report), "keywords");
    assert kw == Obj([Member("list", k)]);
    PairLiteralHead("list", k);
    assert Or(kw, Obj([])) == kw;
    assert ListOr(Get(kw, "list")) == Some(k.items);
  }

  /** `[se.pos || 0, se.neu || 0, se.neg || 0]` with
      `se = report.sentiment || {}`. */
  function SentimentBadges(report: Value): (r: seq<Value>)
    ensures |r| == 3
    ensures forall i :: 0 <= i < 3 ==> Truthy(r[i]) || r[i] == Num(0.0)
  {
    var se := Or(Get(report, "sentiment"), Obj([]));
    [Or(Get(se, "pos"), Num(0.0)), Or(Get(se, "neu"), Num(0.0)), Or(Get(se, "neg"), Num(0.0))]
  }

  /** A sentiment rebuilt from a polarity in [-1, 1] shows three badges that
      sum to 100. */
  lemma RebuiltBadgesSum(report: Value)
    requires report.Obj? && RebuildTest(Get(report, "sentiment"))
    requires -1.0 <= PolarityOrZero(Get(report, "sentiment")) <= 1.0
    ensures var b := SentimentBadges(NormalizeForFeatures(report));
            NumberOrZero(b[0]) + NumberOrZero(b[1]) + NumberOrZero(b[2]) == 100.0
  {
    var se := Get(report, "sentiment");
    RebuiltSentimentAgrees(se);
    var r := RebuiltSentiment(se);
    assert Get(NormalizeForFeatures(report), "sentiment") == r;
    var p := PolarityOrZero(se);
    assert Or(r, Obj([])) == r;
    assert NumberOrZero(Or(Get(r, "pos"), Num(0.0))) == NumberOrZero(Get(r, "pos"));
    assert NumberOrZero(Or(Get(r, "neu"), Num(0.0))) == NumberOrZero(Get(r, "neu"));
    assert NumberOrZero(Or(Get(r, "neg"), Num(0.0))) == NumberOrZero(Get(r, "neg"));
  }

  /** The radar's fixed labels. */
  const RadarLabels: seq<string> := ["joy", "anger", "sadness", "fear", "surprise"]

  /** `labels.map(l => (em.breakdown || {})[l] || 0)` with
      `em = report.emotions || {}`. */
  function RadarValues(report: Value): (r: seq<Value>)
    ensures |r| == |RadarLabels| == 5
    ensures forall i :: 0 <= i < 5 ==>
              var b := Or(Get(Or(Get(report, "emotions"), Obj([])), "breakdown"), Obj([]));
              (Truthy(Get(b, RadarLabels[i])) ==> r[i] == Get(b, RadarLabels[i]))
              && (!Truthy(Get(b, RadarLabels[i])) ==> r[i] == Num(0.0))
  {
    var b := Or(Get(Or(Get(report, "emotions"), Obj([])), "breakdown"), Obj([]));
    seq(5, i requires 0 <= i < 5 => Or(Get(b, RadarLabels[i]), Num(0.0)))
  }

  /** Bare emotions, wrapped by the features page, feed the radar directly:
      each label shows the emotion's own value or 0. */
  lemma WrappedEmotionsOnRadar(report: Value, i: nat)
    requires report.Obj? && i < 5
    requires Truthy(Get(report, "emotions")) && !Truthy(Get(Get(report, "emotions"), "breakdown"))
    ensures RadarValues(NormalizeForFeatures(report))[i] == Or(Get(Get(report, "emotions"), RadarLabels[i]), Num(0.0))
  {
    var em := Get(report, "emotions");
    LookupAt([Member("breakdown", em)], 0);
  }

  /** `(v || []).map(p => [p[xk], p[yk]])`: the two coordinate lists of a
      line chart; None for a truthy non-array or a null entry. */
  function LineSeries(v: Value, xk: string, yk: string): (r: Option<(seq<Value>, seq<Value>)>)
    ensures r.Some? ==>
              ListOr(v).Some? &&
              var items := ListOr(v).value;
              |r.value.0| == |r.value.1| == |items|
              && forall i :: 0 <= i < |items| ==> r.value.0[i] == Get(items[i], xk) && r.value.1[i] == Get(items[i], yk)
    ensures r.None? <==> ListOr(v).None? || HasNullish(ListOr(v).value)
  {
    match ListOr(v)
    case None => None
    case Some(items) =>
      if HasNullish(items) then None
      else Some((seq(|items|, i requires 0 <= i < |items| => Get(items[i], xk)),
                 seq(|items|, i requires 0 <= i < |items| => Get(items[i], yk))))
  }
}
