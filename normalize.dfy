/** Report normalization. frontend/dashboard.js reshapes a loaded report in
    place before charting and storing it: theme points and clusters become
    arrays, missing clusters are synthesized from the points' cluster ids,
    and bare emotions are wrapped as a breakdown. frontend/js/features.js
    runs a different normalization over keywords, sentiment and emotions. */
module Normalize {
  import opened Text
  import opened Seqs
  import opened Json
  import opened Sentiment

  /** What the in-place normalization leaves behind: `view` is the report
      the page goes on to read, `stored` is what `JSON.stringify` sees. They
      differ only where a property was added to an array, which
      serialization drops. `ShapeError` is the TypeError that assigning a
      property to a primitive, or reading one from null, raises. */
  datatype Shaping = Shaped(view: Value, stored: Value) | ShapeError

  /** `{ clusters: [], points: [] }`. */
  const EmptyThemes: Value := Obj([Member("clusters", Arr([])), Member("points", Arr([]))])

  function ThemesOf(report: Value): Value { Get(report, "themes") }
  function PointsOf(report: Value): Value { Get(ThemesOf(report), "points") }
  function ClustersOf(report: Value): Value { Get(ThemesOf(report), "clusters") }
  function EmotionsOf(report: Value): Value { Get(report, "emotions") }

  /** `points.map(p => p.cluster)`. */
  function ClusterIds(points: seq<Value>): (ids: seq<Value>)
    ensures |ids| == |points|
    ensures forall i :: 0 <= i < |points| ==> ids[i] == Get(points[i], "cluster")
  {
    seq(|points|, i requires 0 <= i < |points| => Get(points[i], "cluster"))
  }

  /** `{ id, label: "Cluster " + (i + 1) }`. */
  function SynthCluster(id: Value, i: nat): (c: Value)
    ensures Get(c, "id") == id
    ensures Get(c, "label") == Str("Cluster " + NatText(i + 1))
  {
    PairFields("id", id, "label", Str("Cluster " + NatText(i + 1)));
    Obj([Member("id", id), Member("label", Str("Cluster " + NatText(i + 1)))])
  }

  /** One cluster per distinct cluster id, in order of first appearance. */
  function SynthesizedClusters(points: seq<Value>): (cs: seq<Value>)
    ensures |cs| == |Distinct(ClusterIds(points))|
    ensures |points| > 0 ==> |cs| > 0
  {
    var ids := Distinct(ClusterIds(points));
    assert |points| > 0 ==> ClusterIds(points)[0] in ids;
    seq(|ids|, i requires 0 <= i < |ids| => SynthCluster(ids[i], i))
  }

  predicate HasNullish(points: seq<Value>)
  {
    exists i :: 0 <= i < |points| && IsNullish(points[i])
  }

  /** `if (!Array.isArray(o.k)) o.k = []`. */
  function CoerceArray(ms: seq<Member>, k: string): (r: seq<Member>)
    ensures Get(Obj(r), k) == Arr(ArrayOrEmpty(Get(Obj(ms), k)))
    ensures forall j :: j != k ==> Lookup(r, j) == Lookup(ms, j)
  {
    if Get(Obj(ms), k).Arr? then ms
    else
      PutOthers(ms, k, Arr([]));
      Put(ms, k, Arr([]))
  }

  lemma PutOthers(ms: seq<Member>, k: string, x: Value)
    ensures forall j :: j != k ==> Lookup(Put(ms, k, x), j) == Lookup(ms, j)
  {
    forall j | j != k
      ensures Lookup(Put(ms, k, x), j) == Lookup(ms, j)
    {
      PutOther(ms, k, x, j);
    }
  }

  /** Steps two to four of the themes normalization on a themes object:
      coerce points, then clusters, to arrays, then synthesize clusters when
      there are points but no clusters. None when one of those points is
      null or undefined, whose `cluster` cannot be read. */
  function ShapeThemeMembers(ms: seq<Member>): (r: Option<seq<Member>>)
    ensures var points := ArrayOrEmpty(Get(Obj(ms), "points"));
            var clusters := ArrayOrEmpty(Get(Obj(ms), "clusters"));
            (r.None? <==> clusters == [] && points != [] && HasNullish(points))
            && (r.Some? ==>
                  Get(Obj(r.value), "points") == Arr(points)
                  && Get(Obj(r.value), "clusters").Arr?
                  && (clusters != [] ==> Get(Obj(r.value), "clusters") == Arr(clusters))
                  && (clusters == [] && points != [] ==>
                        Get(Obj(r.value), "clusters") == Arr(SynthesizedClusters(points)))
                  && (points == [] ==> Get(Obj(r.value), "clusters") == Arr(clusters)))
  {
    var ms2 := CoerceArray(CoerceArray(ms, "points"), "clusters");
    var points := ArrayOrEmpty(Get(Obj(ms2), "points"));
    var clusters := ArrayOrEmpty(Get(Obj(ms2), "clusters"));
    if |clusters| == 0 && |points| > 0 then
      if HasNullish(points) then None
      else
        PutOther(ms2, "clusters", Arr(SynthesizedClusters(points)), "points");
        Some(Put(ms2, "clusters", Arr(SynthesizedClusters(points))))
    else Some(ms2)
  }

  /** A themes value is in normal form when points and clusters are arrays
      and there are clusters whenever there are points. */
  predicate ThemesInShape(th: Value)
  {
    Get(th, "points").Arr? && Get(th, "clusters").Arr?
    && (Get(th, "points").items != [] ==> Get(th, "clusters").items != [])
  }

  lemma ShapedMembersInShape(ms: seq<Member>)
    requires ShapeThemeMembers(ms).Some?
    ensures ThemesInShape(Obj(ShapeThemeMembers(ms).value))
  {
    var r := Obj(ShapeThemeMembers(ms).value);
    var points := ArrayOrEmpty(Get(Obj(ms), "points"));
    if points != [] {
      assert Get(r, "clusters").items != [];
    }
  }

  /** Property reads on a two-member object literal. */
  lemma PairFields(a: string, x: Value, b: string, y: Value)
    requires a != b
    ensures Get(Obj([Member(a, x), Member(b, y)]), a) == x
    ensures Get(Obj([Member(a, x), Member(b, y)]), b) == y
  {
    var ms := [Member(a, x), Member(b, y)];
    assert ms[1..] == [Member(b, y)];
    assert ms[1..][1..] == [];
  }

  /** The themes value after normalization, as a (view, stored) pair. */
  function NormalizeThemes(th: Value): (r: Option<(Value, Value)>)
    ensures r.None? <==>
              (Truthy(th) && !th.Obj? && !th.Arr?)
              || (th.Obj? && ShapeThemeMembers(th.members).None?)
    ensures r.Some? ==> ThemesInShape(r.value.0)
    ensures th.Obj? && r.Some? ==> r.value.0.Obj? && r.value.0.members == ShapeThemeMembers(th.members).value
    ensures th.Obj? && r.Some? ==> r.value.1 == r.value.0
    ensures r.Some? && !th.Obj? ==> Get(r.value.0, "points") == Arr([]) == Get(r.value.0, "clusters")
  {
    if th.Obj? then
      var sh := ShapeThemeMembers(th.members);
      if sh.Some? then
        ShapedMembersInShape(th.members);
        Some((Obj(sh.value), Obj(sh.value)))
      else None
    else if !Truthy(th) then
      PairFields("clusters", Arr([]), "points", Arr([]));
      Some((EmptyThemes, EmptyThemes))
    else if th.Arr? then
      // two named properties on an array, which serialization drops
      PairFields("points", Arr([]), "clusters", Arr([]));
      Some((Obj([Member("points", Arr([])), Member("clusters", Arr([]))]), th))
    else None
  }

  /** `em?.breakdown ? em : { breakdown: em || {} }`. */
  function NormalizeEmotions(em: Value): (r: Value)
    ensures Truthy(Get(r, "breakdown"))
    ensures Truthy(Get(em, "breakdown")) ==> r == em
    ensures !Truthy(Get(em, "breakdown")) ==> Get(r, "breakdown") == Or(em, Obj([]))
  {
    if Truthy(Get(em, "breakdown")) then em
    else Obj([Member("breakdown", Or(em, Obj([])))])
  }

  /** The report members after themes and then emotions are assigned. */
  function Reshaped(ms: seq<Member>, themes: Value): (r: seq<Member>)
    ensures Get(Obj(r), "themes") == themes
    ensures Get(Obj(r), "emotions") == NormalizeEmotions(Get(Obj(ms), "emotions"))
    ensures forall j :: j != "themes" && j != "emotions" ==> Lookup(r, j) == Lookup(ms, j)
  {
    var ms1 := Put(ms, "themes", themes);
    PutOthers(ms, "themes", themes);
    var em := NormalizeEmotions(Get(Obj(ms1), "emotions"));
    PutOthers(ms1, "emotions", em);
    Put(ms1, "emotions", em)
  }

  /** The normalization block of frontend/dashboard.js, reached only with a
      truthy report. */
  function NormalizeReport(resp: Value): (r: Shaping)
    requires Truthy(resp)
    ensures r.Shaped? ==> NormalizeThemes(ThemesOf(resp)).Some?
    ensures r.Shaped? ==> ThemesInShape(ThemesOf(r.view))
    ensures r.Shaped? ==> Truthy(Get(EmotionsOf(r.view), "breakdown"))
    ensures r.Shaped? && resp.Obj? ==>
              ThemesOf(r.view) == NormalizeThemes(ThemesOf(resp)).value.0
              && ThemesOf(r.stored) == NormalizeThemes(ThemesOf(resp)).value.1
              && EmotionsOf(r.view) == EmotionsOf(r.stored) == NormalizeEmotions(EmotionsOf(resp))
    ensures r.Shaped? && resp.Arr? ==> ThemesOf(r.view) == EmptyThemes && r.stored == resp
    ensures r.ShapeError? <==>
              (!resp.Obj? && !resp.Arr?) || (resp.Obj? && NormalizeThemes(ThemesOf(resp)).None?)
  {
    match resp
    case Obj(ms) =>
      (match NormalizeThemes(Get(resp, "themes"))
       case None => ShapeError
       case Some(t) => Shaped(Obj(Reshaped(ms, t.0)), Obj(Reshaped(ms, t.1))))
    case Arr(_) =>
      assert NormalizeThemes(Undefined).Some?;
      Shaped(Obj(Reshaped([], EmptyThemes)), resp)
    case _ => ShapeError
  }

  // ----- properties of the dashboard normalization -----

  /** Synthesized clusters: cluster i carries the i-th distinct id in order
      of first appearance and the label "Cluster i+1"; every point's id is
      the id of exactly one cluster. */
  lemma SynthesizedClustersPartition(points: seq<Value>)
    ensures var cs := SynthesizedClusters(points);
            var ids := Distinct(ClusterIds(points));
            (forall i :: 0 <= i < |cs| ==>
               Get(cs[i], "id") == ids[i] && Get(cs[i], "label") == Str("Cluster " + NatText(i + 1)))
            && (forall i, j :: 0 <= i < j < |cs| ==> Get(cs[i], "id") != Get(cs[j], "id"))
            && (forall k :: 0 <= k < |points| ==>
                  exists i :: 0 <= i < |cs| && Get(cs[i], "id") == Get(points[k], "cluster"))
  {
    var cs := SynthesizedClusters(points);
    var ids := Distinct(ClusterIds(points));
    forall k | 0 <= k < |points|
      ensures exists i :: 0 <= i < |cs| && Get(cs[i], "id") == Get(points[k], "cluster")
    {
      var c := ClusterIds(points)[k];
      assert c in ids;
      var i := IndexOf(ids, c);
      assert Get(cs[i], "id") == ids[i];
    }
  }

  /** Normalizing the stored report again yields the same view and the same
      stored report: reloading a normalized report changes nothing. */
  lemma NormalizeIdempotent(resp: Value)
    requires Truthy(resp) && NormalizeReport(resp).Shaped?
    ensures Truthy(NormalizeReport(resp).stored)
    ensures NormalizeReport(NormalizeReport(resp).stored) == NormalizeReport(resp)
  {
    if resp.Obj? {
      var ms := resp.members;
      var t := NormalizeThemes(ThemesOf(resp)).value;
      NormalizeThemesStable(ThemesOf(resp));
      var stored := Reshaped(ms, t.1);
      ReshapedStable(ms, t.1);
      ReshapedTwice(ms, t.1, t.0);
    }
  }

  /** Reshaping an already reshaped report with the themes it holds changes
      nothing. */
  lemma ReshapedStable(ms: seq<Member>, themes: Value)
    ensures Reshaped(Reshaped(ms, themes), themes) == Reshaped(ms, themes)
  {
    var r := Reshaped(ms, themes);
    var em := NormalizeEmotions(Get(Obj(ms), "emotions"));
    assert NormalizeEmotions(em) == em;
    assert Lookup(r, "themes") == Some(themes);
    PutExisting(r, "themes");
    assert Lookup(r, "emotions") == Some(em);
    PutExisting(r, "emotions");
  }

  /** Reshaping with new themes replaces the themes in place. */
  lemma ReshapedTwice(ms: seq<Member>, t1: Value, t0: Value)
    ensures Reshaped(Reshaped(ms, t1), t0) == Reshaped(ms, t0)
  {
    var em := NormalizeEmotions(Get(Obj(ms), "emotions"));
    ReshapedIs(ms, t1, em);
    ReshapedIs(ms, t0, em);
    ReshapedThemesOnly(Reshaped(ms, t1), t0, em);
    PutOverOther(ms, "themes", "emotions", t1, t0, em);
    PutPut(Put(ms, "themes", t0), "emotions", em, em);
  }

  lemma ReshapedIs(ms: seq<Member>, t: Value, em: Value)
    requires em == NormalizeEmotions(Get(Obj(ms), "emotions"))
    ensures Reshaped(ms, t) == Put(Put(ms, "themes", t), "emotions", em)
  {
    PutOther(ms, "themes", t, "emotions");
  }

  /** Reshaping a report whose emotions are already in shape only assigns
      the themes. */
  lemma ReshapedThemesOnly(stored: seq<Member>, t0: Value, em: Value)
    requires Get(Obj(stored), "emotions") == em && NormalizeEmotions(em) == em
    ensures Reshaped(stored, t0) == Put(Put(stored, "themes", t0), "emotions", em)
  {
    PutOther(stored, "themes", t0, "emotions");
  }


  /** The themes normalization maps its stored result to the same pair. */
  lemma NormalizeThemesStable(th: Value)
    requires NormalizeThemes(th).Some?
    ensures NormalizeThemes(NormalizeThemes(th).value.1) == NormalizeThemes(th)
  {
    if !Truthy(th) {
      var ms := EmptyThemes.members;
      assert Get(Obj(ms), "points") == Arr([]);
      assert Get(Obj(ms), "clusters") == Arr([]);
      assert ShapeThemeMembers(ms) == Some(ms);
    } else if th.Obj? {
      var ms2 := ShapeThemeMembers(th.members).value;
      assert ShapeThemeMembers(ms2) == Some(ms2);
    }
  }

  // ----- the features page (frontend/js/features.js) -----

  /** `Math.abs`. */
  function Abs(x: real): (r: real)
    ensures r >= 0.0 && (r == x || r == -x)
  {
    if x < 0.0 then -x else x
  }

  /** `pol = sentiment.polarity || 0`. */
  function PolarityOrZero(se: Value): real
  {
    NumberOrZero(Or(Get(se, "polarity"), Num(0.0)))
  }

  /** The sentiment the features page rebuilds from a polarity reading:
      `{ pos, neu, neg, mood }`. */
  function RebuiltSentiment(se: Value): Value
  {
    PolarityShares(PolarityOrZero(se), Get(se, "mood"))
  }

  function PolarityShares(p: real, mood: Value): (r: Value)
    ensures Get(r, "pos") == Num(Max0(p * 100.0))
    ensures Get(r, "neu") == Num(100.0 - Abs(p * 100.0))
    ensures Get(r, "neg") == Num(if p < 0.0 then -p * 100.0 else 0.0)
    ensures Get(r, "mood") == mood
  {
    SharesObject(Max0(p * 100.0), 100.0 - Abs(p * 100.0), if p < 0.0 then Abs(p * 100.0) else 0.0, mood)
  }

  /** The object literal `{ pos, neu, neg, mood }`. */
  function SharesObject(pos: real, neu: real, neg: real, mood: Value): (r: Value)
    ensures Get(r, "pos") == Num(pos)
    ensures Get(r, "neu") == Num(neu)
    ensures Get(r, "neg") == Num(neg)
    ensures Get(r, "mood") == mood
  {
    ShareKeysDistinct();
    LookupFour("pos", "neu", "neg", "mood", Num(pos), Num(neu), Num(neg), mood);
    Obj([Member("pos", Num(pos)), Member("neu", Num(neu)), Member("neg", Num(neg)), Member("mood", mood)])
  }

  lemma ShareKeysDistinct()
    ensures "pos" != "neu" && "pos" != "neg" && "pos" != "mood"
    ensures "neu" != "neg" && "neu" != "mood" && "neg" != "mood"
  {
    assert "neu"[2] != "neg"[2];
  }

  /** The test the page applies before rebuilding: a truthy sentiment whose
      `pos` is falsy, which includes a positive share of 0. */
  predicate RebuildTestAsWritten(se: Value)
  {
    Truthy(se) && !Truthy(Get(se, "pos"))
  }

  /** The test the rebuild evidently means: a truthy sentiment that has no
      positive share at all. */
  predicate RebuildTest(se: Value)
  {
    Truthy(se) && IsNullish(Get(se, "pos"))
  }

  /** The three normalization steps of the features page, with the test that
      decides whether the sentiment is rebuilt as a parameter. Values other
      than objects carry none of the three properties, so nothing happens to
      them. */
  function NormalizeFeaturesWith(report: Value, rebuild: Value -> bool): (r: Value)
    ensures !report.Obj? ==> r == report
    ensures report.Obj? ==> r.Obj?
    ensures Get(r, "keywords") ==
              if Get(report, "keywords").Arr? then Obj([Member("list", Get(report, "keywords"))])
              else Get(report, "keywords")
    ensures Get(r, "sentiment") ==
              if report.Obj? && rebuild(Get(report, "sentiment")) then RebuiltSentiment(Get(report, "sentiment"))
              else Get(report, "sentiment")
    ensures Get(r, "emotions") == WrappedEmotions(Get(report, "emotions"))
    ensures report.Obj? ==> forall j :: j != "keywords" && j != "sentiment" && j != "emotions" ==>
              Lookup(r.members, j) == Lookup(report.members, j)
  {
    if !report.Obj? then report
    else
      var ms := report.members;
      var m1 := WrapKeywordsIn(ms);
      var m2 := RebuildSentimentIn(m1, rebuild);
      var m3 := WrapEmotionsIn(m2);
      assert Lookup(m3, "keywords") == Lookup(m2, "keywords") == Lookup(m1, "keywords");
      assert Lookup(m3, "sentiment") == Lookup(m2, "sentiment");
      assert Lookup(m1, "sentiment") == Lookup(ms, "sentiment");
      assert Lookup(m2, "emotions") == Lookup(m1, "emotions") == Lookup(ms, "emotions");
      Obj(m3)
  }

  /** `if (Array.isArray(r.keywords)) r.keywords = { list: r.keywords }`. */
  function WrapKeywordsIn(ms: seq<Member>): (r: seq<Member>)
    ensures Get(Obj(r), "keywords") ==
              if Get(Obj(ms), "keywords").Arr? then Obj([Member("list", Get(Obj(ms), "keywords"))])
              else Get(Obj(ms), "keywords")
    ensures forall j :: j != "keywords" ==> Lookup(r, j) == Lookup(ms, j)
  {
    var kw := Get(Obj(ms), "keywords");
    PutOthers(ms, "keywords", Obj([Member("list", kw)]));
    if kw.Arr? then Put(ms, "keywords", Obj([Member("list", kw)])) else ms
  }

  /** `if (rebuild(r.sentiment)) r.sentiment = { pos, neu, neg, mood }`. */
  function RebuildSentimentIn(ms: seq<Member>, rebuild: Value -> bool): (r: seq<Member>)
    ensures Get(Obj(r), "sentiment") ==
              if rebuild(Get(Obj(ms), "sentiment")) then RebuiltSentiment(Get(Obj(ms), "sentiment"))
              else Get(Obj(ms), "sentiment")
    ensures forall j :: j != "sentiment" ==> Lookup(r, j) == Lookup(ms, j)
  {
    var se := Get(Obj(ms), "sentiment");
    PutOthers(ms, "sentiment", RebuiltSentiment(se));
    if rebuild(se) then Put(ms, "sentiment", RebuiltSentiment(se)) else ms
  }

  /** `r.emotions && !r.emotions.breakdown ? { breakdown: r.emotions } : r.emotions`. */
  function WrappedEmotions(em: Value): (r: Value)
    ensures Truthy(em) ==> Truthy(r) && Truthy(Get(r, "breakdown"))
    ensures !Truthy(em) ==> r == em
    ensures Truthy(Get(em, "breakdown")) ==> r == em
  {
    if Truthy(em) && !Truthy(Get(em, "breakdown")) then
      LookupAt([Member("breakdown", em)], 0);
      Obj([Member("breakdown", em)])
    else em
  }

  function WrapEmotionsIn(ms: seq<Member>): (r: seq<Member>)
    ensures Get(Obj(r), "emotions") == WrappedEmotions(Get(Obj(ms), "emotions"))
    ensures forall j :: j != "emotions" ==> Lookup(r, j) == Lookup(ms, j)
  {
    var em := Get(Obj(ms), "emotions");
    PutOthers(ms, "emotions", WrappedEmotions(em));
    if Truthy(em) && !Truthy(Get(em, "breakdown")) then Put(ms, "emotions", WrappedEmotions(em)) else ms
  }

  /** The features page normalization as the page writes it. */
  function NormalizeForFeaturesAsWritten(report: Value): Value
  {
    NormalizeFeaturesWith(report, RebuildTestAsWritten)
  }

  /** The features page normalization with the rebuild limited to sentiments
      that carry no positive share. */
  function NormalizeForFeatures(report: Value): Value
  {
    NormalizeFeaturesWith(report, RebuildTest)
  }

  /** A rebuilt sentiment from a polarity in [-1, 1] has non-negative shares
      summing to 100, and they are exactly the slices the dashboard's
      `sentimentFromPolarity` charts for that polarity. */
  lemma RebuiltSentimentAgrees(se: Value)
    requires -1.0 <= PolarityOrZero(se) <= 1.0
    ensures var r := RebuiltSentiment(se);
            var shares := Percentages(NumberOrZero(Get(r, "pos")), NumberOrZero(Get(r, "neu")), NumberOrZero(Get(r, "neg")));
            InPercentRange(shares) && Total(shares) == 100.0
            && shares == SentimentFromPolarity(Num(PolarityOrZero(se)))
  {
    PolaritySharesAgree(PolarityOrZero(se));
  }

  lemma PolaritySharesAgree(p: real)
    requires -1.0 <= p <= 1.0
    ensures var shares := Percentages(Max0(p * 100.0), 100.0 - Abs(p * 100.0), if p < 0.0 then -p * 100.0 else 0.0);
            InPercentRange(shares) && Total(shares) == 100.0
            && shares == SentimentFromPolarity(Num(p))
  {
    PolarityLinear(p);
    assert Max0(p * 100.0) == Max0(p) * 100.0;
    assert Abs(p * 100.0) == (if p >= 0.0 then p else -p) * 100.0;
    assert (if p < 0.0 then -p * 100.0 else 0.0) == Max0(-p) * 100.0;
  }

  /** A backend sentiment with percentage shares keeps them under the
      corrected test, whatever the shares are. */
  lemma SharesKept(report: Value)
    requires Get(Get(report, "sentiment"), "pos").Num?
    ensures Get(NormalizeForFeatures(report), "sentiment") == Get(report, "sentiment")
  {
  }

  /** Under the page's own test a sentiment with a positive share of 0 (a
      wholly negative text, say) is rebuilt from a polarity it does not
      have, and charts as fully neutral. */
  lemma ZeroPositiveShareDiscarded()
    ensures var se := Obj([Member("pos", Num(0.0)), Member("neu", Num(40.0)), Member("neg", Num(60.0))]);
            var report := Obj([Member("sentiment", se)]);
            var r := Get(NormalizeForFeaturesAsWritten(report), "sentiment");
            Get(r, "neu") == Num(100.0) && Get(r, "neg") == Num(0.0)
            && Get(NormalizeForFeatures(report), "sentiment") == se
  {
    var ms := [Member("pos", Num(0.0)), Member("neu", Num(40.0)), Member("neg", Num(60.0))];
    var se := Obj(ms);
    LookupAt(ms, 0);
    LookupMissing(ms, "polarity");
    assert PolarityOrZero(se) == 0.0;
    var report := Obj([Member("sentiment", se)]);
    LookupAt(report.members, 0);
    assert Get(report, "sentiment") == se;
    assert RebuildTestAsWritten(se) && !RebuildTest(se);
    var r := PolarityShares(0.0, Get(se, "mood"));
    assert Get(NormalizeForFeaturesAsWritten(report), "sentiment") == r;
  }

  /** The corrected normalization is idempotent: keywords, once wrapped, are
      no longer an array; a rebuilt sentiment has a positive share; wrapped
      emotions have a breakdown. */
  lemma FeaturesNormalizeIdempotent(report: Value)
    ensures NormalizeForFeatures(NormalizeForFeatures(report)) == NormalizeForFeatures(report)
  {
    if report.Obj? {
      var r := NormalizeForFeatures(report);
      var kw := Get(r, "keywords");
      assert !kw.Arr? by {
        if Get(report, "keywords").Arr? {
          PairLiteralHead("list", Get(report, "keywords"));
        }
      }
      var se := Get(r, "sentiment");
      if RebuildTest(Get(report, "sentiment")) {
        assert se == RebuiltSentiment(Get(report, "sentiment"));
        assert Get(se, "pos").Num?;
      }
      assert !RebuildTest(se);
      var em := Get(r, "emotions");
      if Truthy(Get(report, "emotions")) && !Truthy(Get(Get(report, "emotions"), "breakdown")) {
        PairLiteralHead("breakdown", Get(report, "emotions"));
      }
      assert !(Truthy(em) && !Truthy(Get(em, "breakdown")));
      var rr := NormalizeForFeatures(r);
      assert Lookup(rr.members, "keywords") == Lookup(r.members, "keywords");
      assert rr.members == r.members;
    }
  }

  /** Under the page's own test a second normalization can still change the
      sentiment: a rebuilt negative reading has a positive share of 0. */
  lemma AsWrittenNotIdempotent()
    ensures var report := Obj([Member("sentiment", Obj([Member("polarity", Num(-0.5))]))]);
            var once := NormalizeForFeaturesAsWritten(report);
            Get(Get(once, "sentiment"), "neg") == Num(50.0)
            && Get(Get(NormalizeForFeaturesAsWritten(once), "sentiment"), "neg") == Num(0.0)
  {
    var se := Obj([Member("polarity", Num(-0.5))]);
    LookupAt(se.members, 0);
    assert PolarityOrZero(se) == -0.5;
    var report := Obj([Member("sentiment", se)]);
    LookupAt(report.members, 0);
    assert RebuildTestAsWritten(se);
    var once := NormalizeForFeaturesAsWritten(report);
    assert Get(once, "sentiment") == PolarityShares(-0.5, Get(se, "mood"));
    RebuiltNonPositiveRebuiltAgain(once, -0.5, Get(se, "mood"));
  }

  /** Under the page's own test, a sentiment rebuilt from a polarity of 0 or
      less is rebuilt once more on the next pass, from a polarity it no
      longer carries, and becomes fully neutral. */
  lemma RebuiltNonPositiveRebuiltAgain(report: Value, p: real, mood: Value)
    requires p <= 0.0
    requires Get(report, "sentiment") == PolarityShares(p, mood)
    ensures var se := Get(NormalizeForFeaturesAsWritten(report), "sentiment");
            Get(se, "pos") == Num(0.0) && Get(se, "neu") == Num(100.0) && Get(se, "neg") == Num(0.0)
  {
    RebuildAsWrittenFires(p, mood);
    assert Get(NormalizeForFeaturesAsWritten(report), "sentiment") == RebuiltSentiment(PolarityShares(p, mood));
    NeutralShares(mood);
  }

  /** The page's own test fires on a sentiment rebuilt from a polarity of 0
      or less, and the rebuild reads its polarity as 0. */
  lemma RebuildAsWrittenFires(p: real, mood: Value)
    requires p <= 0.0
    ensures RebuildTestAsWritten(PolarityShares(p, mood))
    ensures RebuiltSentiment(PolarityShares(p, mood)) == PolarityShares(0.0, mood)
  {
    var se := PolarityShares(p, mood);
    SharesCarryNoPolarity(Max0(p * 100.0), 100.0 - Abs(p * 100.0), if p < 0.0 then Abs(p * 100.0) else 0.0, mood);
    assert Get(se, "polarity") == Undefined;
    assert Or(Get(se, "polarity"), Num(0.0)) == Num(0.0);
    assert JsNumber(Num(0.0)) == Some(0.0);
    assert PolarityOrZero(se) == 0.0;
  }

  /** A polarity of 0 rebuilds as fully neutral. */
  lemma NeutralShares(mood: Value)
    ensures var se := PolarityShares(0.0, mood);
            Get(se, "pos") == Num(0.0) && Get(se, "neu") == Num(100.0) && Get(se, "neg") == Num(0.0)
  {
    assert Abs(0.0 * 100.0) == 0.0;
  }

  /** The rebuilt literal has no `polarity` member. */
  lemma SharesCarryNoPolarity(pos: real, neu: real, neg: real, mood: Value)
    ensures Get(SharesObject(pos, neu, neg, mood), "polarity") == Undefined
  {
    LookupMissingFour("pos", "neu", "neg", "mood", Num(pos), Num(neu), Num(neg), mood, "polarity");
  }

  /** A one-member object literal reads back its member. */
  lemma PairLiteralHead(k: string, x: Value)
    ensures Get(Obj([Member(k, x)]), k) == x
  {
  }
}
