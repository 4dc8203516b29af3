/** The theme adapters of frontend/dashboard.js and frontend/features.js:
    bubble datasets per cluster, the per-cluster popup and tables with their
    show-more toggle, and the ranking behind the themes description. */
module Themes {
  import opened Text
  import opened Seqs
  import opened Json
  import opened Normalize
  import opened Charts

  /** One bubble: `Number()` of the coordinates (None is NaN), the radius
      (None is NaN) and the label as read. */
  datatype Bubble = Bubble(x: Option<real>, y: Option<real>, r: Option<real>, caption: Value)

  /** The dataset drawn for the cluster at position `index`, labelled
      "Cluster index+1". */
  datatype Dataset = Dataset(index: nat, data: seq<Bubble>)

  /** A point of the "Semantic Points" fallback, drawn with radius 6. */
  datatype PlainPoint = PlainPoint(x: Value, y: Value, caption: Value)

  datatype ThemesChart =
    | ThemesCrashed
    | ThemesEmpty
    | Clustered(datasets: seq<Dataset>)
    | Unclustered(points: seq<PlainPoint>)

  /** `Math.max(lo, Math.min(hi, v))`. */
  function Clamp(lo: real, hi: real, v: real): (r: real)
    requires lo <= hi
    ensures lo <= r <= hi
    ensures lo <= v <= hi ==> r == v
    ensures v < lo ==> r == lo
    ensures v > hi ==> r == hi
  {
    if v > hi then hi else if v < lo then lo else v
  }

  // ----- bubble radius of frontend/dashboard.js -----

  /** `Math.max(3, Math.min(12, p.count * 1.5))` as written: a count that
      does not read as a number gives NaN. */
  function RadiusAsWritten(count: Value): (r: Option<real>)
    ensures r.None? <==> JsNumber(count).None?
    ensures r.Some? ==> 3.0 <= r.value <= 12.0
  {
    match JsNumber(count)
    case None => None
    case Some(n) => Some(Clamp(3.0, 12.0, n * 1.5))
  }

  /** The radius with a missing count read as 1, as the features page and
      the other dashboard do: always a number in [3, 12], and the radius as
      written wherever that one is a number. */
  function Radius(count: Value): (r: real)
    ensures 3.0 <= r <= 12.0
    ensures JsNumber(count).Some? ==> RadiusAsWritten(count) == Some(r)
    ensures JsNumber(count).None? ==> r == 3.0
  {
    var n := NumberOrZero(count);
    Clamp(3.0, 12.0, (if n == 0.0 then 1.0 else n) * 1.5)
  }

  function CorrectedRadius(count: Value): Option<real>
  {
    Some(Radius(count))
  }

  /** A point missing its count is drawn with a NaN radius as written and
      with the smallest radius once corrected. */
  lemma MissingCountRadius()
    ensures RadiusAsWritten(Get(Obj([Member("cluster", Num(0.0)), Member("x", Num(0.0)), Member("y", Num(0.0))]), "count")) == None
    ensures CorrectedRadius(Get(Obj([Member("cluster", Num(0.0)), Member("x", Num(0.0)), Member("y", Num(0.0))]), "count")) == Some(3.0)
  {
    LookupMissing([Member("cluster", Num(0.0)), Member("x", Num(0.0)), Member("y", Num(0.0))], "count");
  }

  // ----- cluster datasets -----

  /** `{ x: Number(p.x), y: Number(p.y), r: radius(p.count), label: p.label }`. */
  function BubbleOf(p: Value, radius: Value -> Option<real>): Bubble
  {
    Bubble(JsNumber(Get(p, "x")), JsNumber(Get(p, "y")), radius(Get(p, "count")), Get(p, "label"))
  }

  function Bubbles(ps: seq<Value>, radius: Value -> Option<real>): (r: seq<Bubble>)
    ensures |r| == |ps|
    ensures forall i :: 0 <= i < |ps| ==> r[i] == BubbleOf(ps[i], radius)
  {
    seq(|ps|, i requires 0 <= i < |ps| => BubbleOf(ps[i], radius))
  }

  /** `p => p.cluster === id`; objects compare by structure in this model. */
  function InCluster(id: Value): Value -> bool
  {
    p => Get(p, "cluster") == id
  }

  /** `p => String(p.cluster) === String(id)`. */
  function SameCluster(id: Value): Value -> bool
  {
    p => SameText(Get(p, "cluster"), id)
  }

  /** The themes bubble chart of frontend/dashboard.js, for a given radius
      rule: drawn when points is a non-empty array, one dataset per cluster
      holding the points whose cluster is the cluster's id. */
  function DashboardThemesWith(report: Value, radius: Value -> Option<real>): (r: ThemesChart)
    ensures var points := Or(PointsOf(report), Arr([]));
            r.ThemesEmpty? <==> !points.Arr? || points.items == []
    ensures var points := Or(PointsOf(report), Arr([]));
            var clusters := Or(ClustersOf(report), Arr([]));
            r.ThemesCrashed? <==>
              points.Arr? && points.items != []
              && (!clusters.Arr? || HasNullish(points.items) || (clusters.items != [] && HasNullish(clusters.items)))
    ensures var clusters := Or(ClustersOf(report), Arr([]));
            r.Unclustered? ==> clusters == Arr([]) && |r.points| == |Or(PointsOf(report), Arr([])).items|
    ensures r.Unclustered? ==>
              var ps := Or(PointsOf(report), Arr([])).items;
              forall i :: 0 <= i < |r.points| ==>
                r.points[i] == PlainPoint(Get(ps[i], "x"), Get(ps[i], "y"), Get(ps[i], "label"))
    ensures r.Clustered? ==>
              var points := Or(PointsOf(report), Arr([])).items;
              var clusters := Or(ClustersOf(report), Arr([]));
              clusters.Arr? && |r.datasets| == |clusters.items| > 0
              && forall i :: 0 <= i < |r.datasets| ==>
                   r.datasets[i].index == i
                   && r.datasets[i].data == Bubbles(Filter(points, InCluster(Get(clusters.items[i], "id"))), radius)
  {
    var clusters := Or(ClustersOf(report), Arr([]));
    var points := Or(PointsOf(report), Arr([]));
    if !points.Arr? || points.items == [] then ThemesEmpty
    else if !clusters.Arr? then ThemesCrashed
    else if clusters.items == [] then
      if HasNullish(points.items) then ThemesCrashed
      else
        var ps := points.items;
        Unclustered(seq(|ps|, i requires 0 <= i < |ps| => PlainPoint(Get(ps[i], "x"), Get(ps[i], "y"), Get(ps[i], "label"))))
    else if HasNullish(points.items) || HasNullish(clusters.items) then ThemesCrashed
    else
      var cs := clusters.items;
      Clustered(seq(|cs|, i requires 0 <= i < |cs| =>
        Dataset(i, Bubbles(Filter(points.items, InCluster(Get(cs[i], "id"))), radius))))
  }

  function DashboardThemesAsWritten(report: Value): ThemesChart
  {
    DashboardThemesWith(report, RadiusAsWritten)
  }

  /** The dashboard themes chart with the corrected radius. */
  function DashboardThemes(report: Value): ThemesChart
  {
    DashboardThemesWith(report, CorrectedRadius)
  }

  /** As written, a drawn point whose count is missing gets a NaN radius. */
  lemma MissingCountNaNRadius(report: Value, i: nat, p: Value)
    requires DashboardThemesAsWritten(report).Clustered?
    requires i < |DashboardThemesAsWritten(report).datasets|
    requires p in Or(PointsOf(report), Arr([])).items && Get(p, "count") == Undefined
    requires Get(p, "cluster") == Get(Or(ClustersOf(report), Arr([])).items[i], "id")
    ensures exists j :: 0 <= j < |DashboardThemesAsWritten(report).datasets[i].data|
              && DashboardThemesAsWritten(report).datasets[i].data[j].r.None?
  {
    var points := Or(PointsOf(report), Arr([])).items;
    var id := Get(Or(ClustersOf(report), Arr([])).items[i], "id");
    var members := Filter(points, InCluster(id));
    var k :| 0 <= k < |points| && points[k] == p;
    assert InCluster(id)(points[k]);
    var j := IndexOf(members, p);
    assert DashboardThemesAsWritten(report).datasets[i].data[j] == BubbleOf(p, RadiusAsWritten);
  }

  /** With the corrected radius every bubble's radius is a number in [3, 12]. */
  lemma DashboardRadiiBounded(report: Value)
    requires DashboardThemes(report).Clustered?
    ensures var ds := DashboardThemes(report).datasets;
            forall i, j :: 0 <= i < |ds| && 0 <= j < |ds[i].data| ==>
              ds[i].data[j].r.Some? && 3.0 <= ds[i].data[j].r.value <= 12.0
  {
  }

  /** After normalization non-empty points come with non-empty clusters, so
      the "Semantic Points" fallback is never drawn. */
  lemma NormalizedNeverUnclustered(resp: Value)
    requires Truthy(resp) && NormalizeReport(resp).Shaped?
    ensures !DashboardThemes(NormalizeReport(resp).view).Unclustered?
  {
    ShapedNeverUnclustered(NormalizeReport(resp).view);
  }

  /** Themes in normal form never take the "Semantic Points" fallback. */
  lemma ShapedNeverUnclustered(view: Value)
    requires ThemesInShape(ThemesOf(view))
    ensures !DashboardThemes(view).Unclustered?
  {
    assert Or(PointsOf(view), Arr([])) == PointsOf(view);
  }

  /** Datasets filtered by a list of distinct ids covering every point's
      cluster, as synthesized clusters are (`SynthesizedClustersPartition`),
      hold each point in exactly one of them. */
  lemma PartitionByIds(points: seq<Value>, ids: seq<Value>)
    requires NoDuplicates(ids)
    requires forall k :: 0 <= k < |points| ==> Get(points[k], "cluster") in ids
    ensures forall k :: 0 <= k < |points| ==>
              exists i :: 0 <= i < |ids| && points[k] in Filter(points, InCluster(ids[i]))
    ensures forall k, i, j ::
              (0 <= k < |points| && 0 <= i < |ids| && 0 <= j < |ids|
               && points[k] in Filter(points, InCluster(ids[i]))
               && points[k] in Filter(points, InCluster(ids[j]))) ==> i == j
  {
    forall k | 0 <= k < |points|
      ensures exists i :: 0 <= i < |ids| && points[k] in Filter(points, InCluster(ids[i]))
    {
      var i := IndexOf(ids, Get(points[k], "cluster"));
      assert InCluster(ids[i])(points[k]);
    }
    forall k, i, j | 0 <= k < |points| && 0 <= i < |ids| && 0 <= j < |ids|
      && points[k] in Filter(points, InCluster(ids[i]))
      && points[k] in Filter(points, InCluster(ids[j]))
      ensures i == j
    {
      InFilter(points, InCluster(ids[i]), points[k]);
      InFilter(points, InCluster(ids[j]), points[k]);
    }
  }

  /** Whatever a filter keeps satisfies its predicate. */
  lemma InFilter(s: seq<Value>, p: Value -> bool, x: Value)
    requires x in Filter(s, p)
    ensures p(x)
  {
    var i :| 0 <= i < |Filter(s, p)| && Filter(s, p)[i] == x;
  }

  // ----- bubble chart of frontend/features.js -----

  /** `Math.max(3, Math.min(12, (p.count || 1) * 1.5))`. */
  function FeaturesRadius(count: Value): (r: Option<real>)
    ensures r.Some? ==> 3.0 <= r.value <= 12.0
    ensures !Truthy(count) ==> r == Some(3.0)
    ensures count.Num? ==> r.Some?
  {
    match JsNumber(Or(count, Num(1.0)))
    case None => None
    case Some(n) => Some(Clamp(3.0, 12.0, n * 1.5))
  }

  /** The features page's points and clusters: `Array.isArray` or empty,
      read from `report.themes || {}`. */
  function FeaturePoints(report: Value): seq<Value>
  {
    ArrayOrEmpty(Get(Or(ThemesOf(report), Obj([])), "points"))
  }

  function FeatureClusters(report: Value): seq<Value>
  {
    ArrayOrEmpty(Get(Or(ThemesOf(report), Obj([])), "clusters"))
  }

  /** The themes bubble chart of frontend/features.js: drawn only when both
      clusters and points are non-empty, one dataset per cluster holding
      the points whose cluster has the same text as the cluster's id. */
  function FeaturesThemes(report: Value): (r: ThemesChart)
    ensures !r.Unclustered?
    ensures r.ThemesEmpty? <==> FeatureClusters(report) == [] || FeaturePoints(report) == []
    ensures r.ThemesCrashed? <==>
              FeatureClusters(report) != [] && FeaturePoints(report) != []
              && (HasNullish(FeatureClusters(report)) || HasNullish(FeaturePoints(report)))
    ensures r.Clustered? ==>
              |r.datasets| == |FeatureClusters(report)|
              && forall i :: 0 <= i < |r.datasets| ==>
                   r.datasets[i].index == i
                   && r.datasets[i].data == Bubbles(Filter(FeaturePoints(report), SameCluster(Get(FeatureClusters(report)[i], "id"))), FeaturesRadius)
  {
    var points := FeaturePoints(report);
    var clusters := FeatureClusters(report);
    if clusters == [] || points == [] then ThemesEmpty
    else if HasNullish(clusters) || HasNullish(points) then ThemesCrashed
    else
      Clustered(seq(|clusters|, i requires 0 <= i < |clusters| =>
        Dataset(i, Bubbles(Filter(points, SameCluster(Get(clusters[i], "id"))), FeaturesRadius))))
  }

  /** A features dataset, `Bubbles(Filter(points, SameCluster(id)),
      FeaturesRadius)` for cluster id `id`, draws every point whose cluster
      reads as the same text as the id ... */
  lemma FeaturesDatasetComplete(points: seq<Value>, id: Value)
    ensures forall p :: p in points && SameText(Get(p, "cluster"), id) ==>
              BubbleOf(p, FeaturesRadius) in Bubbles(Filter(points, SameCluster(id)), FeaturesRadius)
  {
    var sel := Filter(points, SameCluster(id));
    forall p | p in points && SameText(Get(p, "cluster"), id)
      ensures BubbleOf(p, FeaturesRadius) in Bubbles(sel, FeaturesRadius)
    {
      BubbleDrawn(points, sel, SameCluster(id), p);
    }
  }

  /** ... and nothing else ... */
  lemma FeaturesDatasetSound(points: seq<Value>, id: Value)
    ensures var d := Bubbles(Filter(points, SameCluster(id)), FeaturesRadius);
            forall j :: 0 <= j < |d| ==> DrawnFrom(points, id, d[j])
  {
    var sel := Filter(points, SameCluster(id));
    var d := Bubbles(sel, FeaturesRadius);
    forall j | 0 <= j < |d|
      ensures DrawnFrom(points, id, d[j])
    {
      BubbleFrom(points, sel, SameCluster(id), j);
      var p := sel[j];
      assert p in points && SameText(Get(p, "cluster"), id) && d[j] == BubbleOf(p, FeaturesRadius);
    }
  }

  /** b is the bubble of a point whose cluster reads as the id. */
  ghost predicate DrawnFrom(points: seq<Value>, id: Value, b: Bubble)
  {
    exists p :: p in points && SameText(Get(p, "cluster"), id) && b == BubbleOf(p, FeaturesRadius)
  }

  /** ... with every radius in [3, 12]. */
  lemma FeaturesDatasetRadii(points: seq<Value>, id: Value)
    ensures var d := Bubbles(Filter(points, SameCluster(id)), FeaturesRadius);
            forall j :: 0 <= j < |d| && d[j].r.Some? ==> 3.0 <= d[j].r.value <= 12.0
  {
    var sel := Filter(points, SameCluster(id));
    var d := Bubbles(sel, FeaturesRadius);
    forall j | 0 <= j < |d| && d[j].r.Some?
      ensures 3.0 <= d[j].r.value <= 12.0
    {
      assert d[j].r == FeaturesRadius(Get(sel[j], "count"));
    }
  }

  /** A point selected by the filter is drawn. */
  lemma BubbleDrawn(points: seq<Value>, sel: seq<Value>, keep: Value -> bool, p: Value)
    requires sel == Filter(points, keep)
    requires p in points && keep(p)
    ensures BubbleOf(p, FeaturesRadius) in Bubbles(sel, FeaturesRadius)
  {
    var k :| 0 <= k < |points| && points[k] == p;
    assert keep(points[k]);
    var j := IndexOf(sel, p);
    assert Bubbles(sel, FeaturesRadius)[j] == BubbleOf(p, FeaturesRadius);
  }

  /** Every drawn bubble comes from a point of the input the filter kept. */
  lemma BubbleFrom(points: seq<Value>, sel: seq<Value>, keep: Value -> bool, j: int)
    requires sel == Filter(points, keep)
    requires 0 <= j < |sel|
    ensures sel[j] in points && keep(sel[j])
    ensures Bubbles(sel, FeaturesRadius)[j] == BubbleOf(sel[j], FeaturesRadius)
  {
    assert sel[j] in sel;
  }

  // ----- per-cluster selection: popup and tables -----

  /** `(p.count || 0)` in the comparator `(b.count || 0) - (a.count || 0)`. */
  function CountKey(p: Value): real
  {
    NumberOrZero(Or(Get(p, "count"), Num(0.0)))
  }

  /** The points of one cluster, sorted by count, largest first (a stable
      sort). */
  function Related(points: seq<Value>, id: Value): (r: seq<Value>)
    ensures multiset(r) == multiset(Filter(points, SameCluster(id)))
  {
    SortDesc(Filter(points, SameCluster(id)), CountKey)
  }

  /** The related points are those of the cluster, largest count first, and
      equal counts keep their order in the input. */
  lemma RelatedShape(points: seq<Value>, id: Value, v: real)
    ensures SortedDesc(Related(points, id), CountKey)
    ensures forall p :: p in Related(points, id) <==> p in points && SameText(Get(p, "cluster"), id)
    ensures Filter(Related(points, id), KeyIs(CountKey, v)) == Filter(Filter(points, SameCluster(id)), KeyIs(CountKey, v))
  {
    var sel := Filter(points, SameCluster(id));
    SortDescSorted(sel, CountKey);
    SortDescStable(sel, CountKey, v);
    forall p
      ensures p in Related(points, id) <==> p in points && SameText(Get(p, "cluster"), id)
    {
      if p in Related(points, id) {
        assert p in multiset(sel);
        InFilter(points, SameCluster(id), p);
      }
      if p in points && SameText(Get(p, "cluster"), id) {
        var k :| 0 <= k < |points| && points[k] == p;
        assert SameCluster(id)(points[k]);
        assert p in multiset(Related(points, id));
      }
    }
  }

  /** A bubble of the cluster popup, which also carries the raw count. */
  datatype PopupBubble = PopupBubble(x: Option<real>, y: Option<real>, r: Option<real>, caption: Value, count: Value)

  /** `Math.max(10, Math.min(30, (p.count || 1) * 2.5))`. */
  function PopupRadius(count: Value): (r: Option<real>)
    ensures r.Some? ==> 10.0 <= r.value <= 30.0
    ensures !Truthy(count) ==> r == Some(10.0)
  {
    match JsNumber(Or(count, Num(1.0)))
    case None => None
    case Some(n) => Some(Clamp(10.0, 30.0, n * 2.5))
  }

  function PopupBubbleOf(p: Value): PopupBubble
  {
    PopupBubble(JsNumber(Get(p, "x")), JsNumber(Get(p, "y")), PopupRadius(Get(p, "count")), Get(p, "label"), Get(p, "count"))
  }

  /** `renderCluster(idx)`: the ten largest points of cluster idx. A point
      or cluster that cannot be read (a missing cluster included) stops the
      page, unless there are no points to compare with it. */
  function ClusterPopup(clusters: seq<Value>, points: seq<Value>, idx: nat): (r: Option<seq<PopupBubble>>)
    ensures r.None? <==> points != [] && (idx >= |clusters| || IsNullish(clusters[idx]) || HasNullish(points))
    ensures r.Some? && points != [] ==>
              var top := Take(Related(points, Get(clusters[idx], "id")), 10);
              |r.value| == |top| <= 10
              && forall j :: 0 <= j < |top| ==> r.value[j] == PopupBubbleOf(top[j])
    ensures r.Some? && points == [] ==> r.value == []
  {
    if points == [] then Some([])
    else if idx >= |clusters| || IsNullish(clusters[idx]) || HasNullish(points) then None
    else
      var top := Take(Related(points, Get(clusters[idx], "id")), 10);
      Some(seq(|top|, j requires 0 <= j < |top| => PopupBubbleOf(top[j])))
  }

  /** The popup shows the cluster's largest points: no point of the cluster
      left out has a larger count than one shown. */
  lemma PopupShowsLargest(points: seq<Value>, id: Value)
    ensures var rel := Related(points, id);
            var top := Take(rel, 10);
            |top| <= 10
            && (forall j :: 0 <= j < |top| ==> SameText(Get(top[j], "cluster"), id))
            && (forall i, j :: 0 <= i < |top| <= j < |rel| ==> CountKey(rel[i]) >= CountKey(rel[j]))
  {
    var rel := Related(points, id);
    RelatedShape(points, id, 0.0);
    forall j | 0 <= j < |Take(rel, 10)|
      ensures SameText(Get(Take(rel, 10)[j], "cluster"), id)
    {
      assert Take(rel, 10)[j] == rel[j];
      assert rel[j] in rel;
    }
  }

  /** One table row: `p.label || "(no label)"` and `p.count || 0`. */
  datatype Row = Row(caption: Value, weight: Value)

  function RowOf(p: Value): (r: Row)
    ensures Truthy(r.caption) && (Truthy(r.weight) || r.weight == Num(0.0))
  {
    Row(Or(Get(p, "label"), Str("(no label)")), Or(Get(p, "count"), Num(0.0)))
  }

  function Rows(ps: seq<Value>): (r: seq<Row>)
    ensures |r| == |ps|
    ensures forall i :: 0 <= i < |ps| ==> r[i] == RowOf(ps[i])
  {
    seq(|ps|, i requires 0 <= i < |ps| => RowOf(ps[i]))
  }

  /** The table of the cluster at position `index` ("Cluster index+1") with
      all its rows, largest count first. */
  datatype Table = Table(index: nat, rows: seq<Row>)

  /** The related points of each cluster, in cluster order. */
  function RelatedLists(clusters: seq<Value>, points: seq<Value>): (r: seq<seq<Value>>)
    ensures |r| == |clusters|
    ensures forall c :: 0 <= c < |clusters| ==> r[c] == Related(points, Get(clusters[c], "id"))
  {
    seq(|clusters|, c requires 0 <= c < |clusters| => Related(points, Get(clusters[c], "id")))
  }

  /** The positions from i on whose list is non-empty, in increasing order. */
  function NonEmptyFrom<T>(rels: seq<seq<T>>, i: nat): (r: seq<nat>)
    requires i <= |rels|
    ensures forall t :: 0 <= t < |r| ==> i <= r[t] < |rels| && rels[r[t]] != []
    ensures forall s, t :: 0 <= s < t < |r| ==> r[s] < r[t]
    ensures forall c :: i <= c < |rels| && rels[c] != [] ==> c in r
    decreases |rels| - i
  {
    if i == |rels| then []
    else if rels[i] == [] then NonEmptyFrom(rels, i + 1)
    else [i] + NonEmptyFrom(rels, i + 1)
  }

  /** One table per cluster with related points, keeping its position. */
  function TablesOf(rels: seq<seq<Value>>): (r: seq<Table>)
    ensures forall t :: 0 <= t < |r| ==>
              r[t].index < |rels| && rels[r[t].index] != [] && r[t].rows == Rows(rels[r[t].index])
    ensures forall s, t :: 0 <= s < t < |r| ==> r[s].index < r[t].index
    ensures forall c :: 0 <= c < |rels| && rels[c] != [] ==> exists t :: 0 <= t < |r| && r[t].index == c
  {
    var idx := NonEmptyFrom(rels, 0);
    var r := seq(|idx|, t requires 0 <= t < |idx| => Table(idx[t], Rows(rels[idx[t]])));
    assert forall c :: 0 <= c < |rels| && rels[c] != [] ==> exists t :: 0 <= t < |r| && r[t].index == c by {
      forall c | 0 <= c < |rels| && rels[c] != []
        ensures exists t :: 0 <= t < |r| && r[t].index == c
      {
        var t :| 0 <= t < |idx| && idx[t] == c;
        assert r[t].index == c;
      }
    }
    r
  }

  /** The cluster tables: one per cluster with related points, in cluster
      order, titled by the cluster's own position; a cluster or point that
      cannot be read stops the page. */
  function ClusterTables(clusters: seq<Value>, points: seq<Value>): (r: Option<seq<Table>>)
    ensures r.None? <==> clusters != [] && points != [] && (HasNullish(clusters) || HasNullish(points))
    ensures r.Some? ==> r.value == TablesOf(RelatedLists(clusters, points))
  {
    if clusters == [] then Some([])
    else if points != [] && (HasNullish(clusters) || HasNullish(points)) then None
    else Some(TablesOf(RelatedLists(clusters, points)))
  }

  /** A rendered cluster table: all its rows, of which the first ten are
      shown until the toggle expands it. */
  class ClusterCard {
    const rows: seq<Row>
    var expanded: bool

    constructor (rows: seq<Row>)
      ensures this.rows == rows && !expanded
      ensures Shown() == Take(rows, 10)
    {
      this.rows := rows;
      expanded := false;
    }

    /** The rows in the table body. */
    function Shown(): (r: seq<Row>)
      reads this
      ensures r <= rows
      ensures expanded ==> r == rows
      ensures !expanded ==> |r| <= 10 && (|rows| >= 10 ==> |r| == 10)
      ensures |rows| <= 10 ==> r == rows
    {
      if expanded then rows else Take(rows, 10)
    }

    /** The show-more button exists only for more than ten rows. */
    predicate HasToggle()
    {
      |rows| > 10
    }

    /** A click on the toggle flips between all rows and the first ten. */
    method Click()
      requires HasToggle()
      modifies this
      ensures expanded == !old(expanded)
      ensures Shown() == if old(expanded) then rows[..10] else rows
    {
      expanded := !expanded;
    }
  }

  // ----- ranking in getThemesDescription -----

  /** Reading `p.label?.toLowerCase()`: a theme word, a label skipped
      (missing, or of at most two characters), or a TypeError (the point
      itself missing, or a label that is not a string). */
  datatype LabelRead = Skip | Word(w: string) | LabelError

  function LabelKey(p: Value): LabelRead
  {
    if IsNullish(p) then LabelError
    else
      var lab := Get(p, "label");
      if IsNullish(lab) then Skip
      else if lab.Str? then
        if |lab.s| <= 2 then Skip else Word(Lower(lab.s))
      else LabelError
  }

  /** The read fails exactly for a missing point or a label that is present
      but not a string; a theme word is a lower-cased label of more than two
      characters, so never the placeholder. */
  lemma LabelKeyCases(p: Value)
    ensures LabelKey(p).LabelError? <==> IsNullish(p) || !(IsNullish(Get(p, "label")) || Get(p, "label").Str?)
    ensures LabelKey(p).Word? ==>
              Get(p, "label").Str? && LabelKey(p).w == Lower(Get(p, "label").s)
              && |LabelKey(p).w| > 2 && LabelKey(p).w != MisreadDash
  {
    if LabelKey(p).Word? {
      LowerNeverMisreadDash(Get(p, "label").s);
    }
  }

  /** `p.count || 1`, read as a number. */
  function Weight(p: Value): real
  {
    NumberOrZero(Or(Get(p, "count"), Num(1.0)))
  }

  /** The number stored under w, or 0. */
  function Tally(f: seq<Member>, w: string): real
  {
    match Lookup(f, w)
    case Some(v) => if v.Num? then v.n else 0.0
    case None => 0.0
  }

  /** One step of the `themeFrequency` accumulation. */
  function TallyPoint(f: seq<Member>, p: Value): Option<seq<Member>>
  {
    match LabelKey(p)
    case LabelError => None
    case Skip => Some(f)
    case Word(w) => Some(Put(f, w, Num(Tally(f, w) + Weight(p))))
  }

  /** The `themeFrequency` object after the points have been visited. */
  function ThemeFrequency(ps: seq<Value>): Option<seq<Member>>
    decreases |ps|
  {
    if ps == [] then Some([])
    else
      match ThemeFrequency(ps[..|ps| - 1])
      case None => None
      case Some(f) => TallyPoint(f, ps[|ps| - 1])
  }

  /** The accumulation loop at frontend/features.js:550-555. */
  method AccumulateThemeFrequency(points: seq<Value>) returns (freq: Option<seq<Member>>)
    ensures freq == ThemeFrequency(points)
  {
    var f: seq<Member> := [];
    var i := 0;
    while i < |points|
      invariant 0 <= i <= |points|
      invariant ThemeFrequency(points[..i]) == Some(f)
    {
      FrequencyStep(points, i, f);
      var next := VisitPoint(f, points[i]);
      if next.None? {
        FrequencyErrorSticks(points, i + 1);
        return None;
      }
      f := next.value;
      i := i + 1;
    }
    assert points[..i] == points;
    freq := Some(f);
  }

  /** The body of that loop for one point. */
  method VisitPoint(f: seq<Member>, p: Value) returns (r: Option<seq<Member>>)
    ensures r == TallyPoint(f, p)
  {
    if LabelKey(p).LabelError? {
      TallyError(f, p);
      return None;
    }
    if LabelKey(p).Word? {
      TallyWord(f, p);
      r := Some(Put(f, LabelKey(p).w, Num(Tally(f, LabelKey(p).w) + Weight(p))));
    } else {
      TallySkip(f, p);
      r := Some(f);
    }
  }

  /** Visiting one more point applies one step to the frequency so far. */
  lemma FrequencyStep(ps: seq<Value>, n: nat, f: seq<Member>)
    requires n < |ps| && ThemeFrequency(ps[..n]) == Some(f)
    ensures ThemeFrequency(ps[..n + 1]) == TallyPoint(f, ps[n])
  {
    assert ps[..n + 1][..n] == ps[..n];
    assert ps[..n + 1][n] == ps[n];
  }

  /** Once a point stops the accumulation, the rest of the points do not
      matter. */
  lemma {:induction false} FrequencyErrorSticks(ps: seq<Value>, n: nat)
    requires n <= |ps| && ThemeFrequency(ps[..n]).None?
    ensures ThemeFrequency(ps).None?
    decreases |ps| - n
  {
    if n < |ps| {
      assert ps[..n + 1][..n] == ps[..n];
      FrequencyErrorSticks(ps, n + 1);
    } else {
      assert ps[..n] == ps;
    }
  }

  /** The sum of the weights of the points whose theme word is w. */
  function TotalFor(ps: seq<Value>, w: string): real
    decreases |ps|
  {
    if ps == [] then 0.0
    else TotalFor(ps[..|ps| - 1], w) + (if LabelKey(ps[|ps| - 1]) == Word(w) then Weight(ps[|ps| - 1]) else 0.0)
  }

  /** Some point's theme word is w. */
  ghost predicate Carries(ps: seq<Value>, w: string)
  {
    exists i :: 0 <= i < |ps| && LabelKey(ps[i]) == Word(w)
  }

  /** What the frequency object holds: each theme word once, exactly the
      words some point carries, each with the total weight of its points. */
  ghost predicate FrequencyOf(f: seq<Member>, ps: seq<Value>)
  {
    NoDuplicates(Keys(f)) && KeysCarried(f, ps) && TotalsHeld(f, ps)
  }

  ghost predicate KeysCarried(f: seq<Member>, ps: seq<Value>)
  {
    forall w :: w in Keys(f) <==> Carries(ps, w)
  }

  ghost predicate TotalsHeld(f: seq<Member>, ps: seq<Value>)
  {
    forall w :: w in Keys(f) ==> Lookup(f, w) == Some(Num(TotalFor(ps, w)))
  }

  /** The accumulation stops exactly at a point that cannot be read, and
      otherwise totals each theme word's weights. */
  lemma {:induction false} ThemeFrequencyTotals(ps: seq<Value>)
    ensures ThemeFrequency(ps).None? <==> exists i :: 0 <= i < |ps| && LabelKey(ps[i]).LabelError?
    ensures ThemeFrequency(ps).Some? ==> FrequencyOf(ThemeFrequency(ps).value, ps)
    decreases |ps|
  {
    if ps == [] {
      assert Keys([]) == [];
    } else {
      var init := ps[..|ps| - 1];
      var p := ps[|ps| - 1];
      assert ps == init + [p];
      ThemeFrequencyTotals(init);
      assert forall i :: 0 <= i < |init| ==> init[i] == ps[i];
      if ThemeFrequency(init).Some? && !LabelKey(p).LabelError? {
        assert ThemeFrequency(ps) == TallyPoint(ThemeFrequency(init).value, p);
        FrequencyOfStep(ThemeFrequency(init).value, init, p, ThemeFrequency(ps).value);
      }
    }
  }

  /** A word that no point carries has total 0. */
  lemma {:induction false} TotalForAbsent(ps: seq<Value>, w: string)
    requires forall i :: 0 <= i < |ps| ==> LabelKey(ps[i]) != Word(w)
    ensures TotalFor(ps, w) == 0.0
    decreases |ps|
  {
    if ps != [] {
      TotalForAbsent(ps[..|ps| - 1], w);
    }
  }

  /** Appending a point adds its weight to its own word only. */
  lemma TotalForAppend(init: seq<Value>, p: Value, w: string)
    ensures TotalFor(init + [p], w) == TotalFor(init, w) + (if LabelKey(p) == Word(w) then Weight(p) else 0.0)
  {
    var ps := init + [p];
    assert ps[..|ps| - 1] == init && ps[|ps| - 1] == p;
  }

  /** Appending a point adds its weight to its own word only, and makes
      its own word carried. */
  lemma TotalForStep(init: seq<Value>, p: Value, w: string)
    ensures TotalFor(init + [p], w) == TotalFor(init, w) + (if LabelKey(p) == Word(w) then Weight(p) else 0.0)
    ensures Carries(init + [p], w) <==> Carries(init, w) || LabelKey(p) == Word(w)
  {
    var ps := init + [p];
    assert ps[..|ps| - 1] == init && ps[|ps| - 1] == p;
    if Carries(ps, w) && LabelKey(p) != Word(w) {
      var i :| 0 <= i < |ps| && LabelKey(ps[i]) == Word(w);
      assert i < |init| && ps[i] == init[i];
    }
    if Carries(init, w) {
      var i :| 0 <= i < |init| && LabelKey(init[i]) == Word(w);
      assert ps[i] == init[i];
    }
    if LabelKey(p) == Word(w) {
      assert LabelKey(ps[|ps| - 1]) == Word(w);
    }
  }

  /** One readable point keeps the frequency object faithful to its points. */
  lemma FrequencyOfStep(f: seq<Member>, init: seq<Value>, p: Value, g: seq<Member>)
    requires FrequencyOf(f, init) && TallyPoint(f, p) == Some(g)
    ensures FrequencyOf(g, init + [p])
  {
    TallyReadable(f, p);
    if LabelKey(p).Skip? {
      SkipStepInto(f, init, p, g);
    } else {
      WordStepInto(f, init, p, g);
    }
  }

  lemma SkipStepInto(f: seq<Member>, init: seq<Value>, p: Value, g: seq<Member>)
    requires FrequencyOf(f, init) && TallyPoint(f, p) == Some(g) && LabelKey(p).Skip?
    ensures FrequencyOf(g, init + [p])
  {
    TallySkip(f, p);
    FrequencySkipStep(f, init, p);
  }

  lemma WordStepInto(f: seq<Member>, init: seq<Value>, p: Value, g: seq<Member>)
    requires FrequencyOf(f, init) && TallyPoint(f, p) == Some(g) && LabelKey(p).Word?
    ensures FrequencyOf(g, init + [p])
  {
    TallyWord(f, p);
    FrequencyWordStep(f, init, p, LabelKey(p).w, Num(Tally(f, LabelKey(p).w) + Weight(p)));
  }

  /** A point without a theme word changes no total. */
  lemma FrequencySkipStep(f: seq<Member>, init: seq<Value>, p: Value)
    requires FrequencyOf(f, init) && LabelKey(p) == Skip
    ensures FrequencyOf(f, init + [p])
  {
    forall w
      ensures TotalFor(init + [p], w) == TotalFor(init, w) && (Carries(init + [p], w) <==> Carries(init, w))
    {
      TotalForStep(init, p, w);
    }
  }

  /** A point with a theme word u stores the new total under u. */
  lemma FrequencyWordStep(f: seq<Member>, init: seq<Value>, p: Value, u: string, x: Value)
    requires FrequencyOf(f, init) && LabelKey(p) == Word(u) && x == Num(Tally(f, u) + Weight(p))
    ensures FrequencyOf(Put(f, u, x), init + [p])
  {
    WordStepKeys(f, init, p, u, x);
    WordStepTotals(f, init, p, u, x);
  }

  lemma WordStepKeys(f: seq<Member>, init: seq<Value>, p: Value, u: string, x: Value)
    requires NoDuplicates(Keys(f)) && KeysCarried(f, init) && LabelKey(p) == Word(u)
    ensures NoDuplicates(Keys(Put(f, u, x))) && KeysCarried(Put(f, u, x), init + [p])
  {
    var g := Put(f, u, x);
    assert NoDuplicates(Keys(g)) by {
      if u !in Keys(f) {
        assert Keys(g) == Keys(f) + [u];
      }
    }
    forall w
      ensures w in Keys(g) <==> Carries(init + [p], w)
    {
      TotalForStep(init, p, w);
      assert w in Keys(g) <==> w in Keys(f) || w == u;
    }
  }

  lemma WordStepTotals(f: seq<Member>, init: seq<Value>, p: Value, u: string, x: Value)
    requires NoDuplicates(Keys(f)) && KeysCarried(f, init) && TotalsHeld(f, init)
    requires LabelKey(p) == Word(u) && x == Num(Tally(f, u) + Weight(p))
    ensures TotalsHeld(Put(f, u, x), init + [p])
  {
    forall w | w in Keys(Put(f, u, x))
      ensures Lookup(Put(f, u, x), w) == Some(Num(TotalFor(init + [p], w)))
    {
      if w == u {
        WordStepOwn(f, init, p, u, x);
      } else {
        WordStepOther(f, init, p, u, x, w);
      }
    }
  }

  /** The word of the new point holds its old total plus the point's weight. */
  lemma WordStepOwn(f: seq<Member>, init: seq<Value>, p: Value, u: string, x: Value)
    requires NoDuplicates(Keys(f)) && KeysCarried(f, init) && TotalsHeld(f, init)
    requires LabelKey(p) == Word(u) && x == Num(Tally(f, u) + Weight(p))
    ensures x == Num(TotalFor(init + [p], u))
  {
    TallyTotal(f, init, u);
    TotalForAppend(init, p, u);
  }

  /** Every other word keeps its total. */
  lemma WordStepOther(f: seq<Member>, init: seq<Value>, p: Value, u: string, x: Value, w: string)
    requires TotalsHeld(f, init) && LabelKey(p) == Word(u) && w != u && w in Keys(Put(f, u, x))
    ensures Lookup(Put(f, u, x), w) == Some(Num(TotalFor(init + [p], w)))
  {
    KeptTotal(f, init, u, x, w);
    TotalForOther(init, p, w);
  }

  /** A point with another word leaves the total of w alone. */
  lemma TotalForOther(init: seq<Value>, p: Value, w: string)
    requires LabelKey(p).Word? && LabelKey(p).w != w
    ensures TotalFor(init + [p], w) == TotalFor(init, w)
  {
    TotalForAppend(init, p, w);
  }

  /** Assigning a word leaves the stored total of another word alone. */
  lemma KeptTotal(f: seq<Member>, ps: seq<Value>, u: string, x: Value, w: string)
    requires TotalsHeld(f, ps) && w != u && w in Keys(Put(f, u, x))
    ensures Lookup(Put(f, u, x), w) == Some(Num(TotalFor(ps, w)))
  {
    PutOther(f, u, x, w);
    assert w in Keys(f);
  }

  /** One accumulation step, case by case. */
  lemma TallyCases(f: seq<Member>, p: Value)
    ensures LabelKey(p).LabelError? ==> TallyPoint(f, p) == None
    ensures LabelKey(p).Skip? ==> TallyPoint(f, p) == Some(f)
    ensures LabelKey(p).Word? ==> TallyPoint(f, p) == Some(Put(f, LabelKey(p).w, Num(Tally(f, LabelKey(p).w) + Weight(p))))
  {
    if LabelKey(p).LabelError? {
      TallyError(f, p);
    } else if LabelKey(p).Skip? {
      TallySkip(f, p);
    } else {
      TallyWord(f, p);
    }
  }

  /** A step that yields a frequency object read a label. */
  lemma TallyReadable(f: seq<Member>, p: Value)
    requires TallyPoint(f, p).Some?
    ensures LabelKey(p).Skip? || LabelKey(p).Word?
  {
  }

  lemma TallyError(f: seq<Member>, p: Value)
    requires LabelKey(p).LabelError?
    ensures TallyPoint(f, p) == None
  {
  }

  lemma TallySkip(f: seq<Member>, p: Value)
    requires LabelKey(p).Skip?
    ensures TallyPoint(f, p) == Some(f)
  {
  }

  lemma TallyWord(f: seq<Member>, p: Value)
    requires LabelKey(p).Word?
    ensures TallyPoint(f, p) == Some(Put(f, LabelKey(p).w, Num(Tally(f, LabelKey(p).w) + Weight(p))))
  {
  }

  /** The running total of a word is its total over the points so far. */
  lemma TallyTotal(f: seq<Member>, ps: seq<Value>, u: string)
    requires FrequencyOf(f, ps)
    ensures Tally(f, u) == TotalFor(ps, u)
  {
    if u !in Keys(f) {
      assert !Carries(ps, u);
      TotalForAbsent(ps, u);
    }
  }

  /** `Object.entries(themeFrequency).sort((a, b) => b[1] - a[1])`. */
  function EntryWeight(m: Member): real
  {
    NumericOrZero(m.val)
  }

  function Ranked(f: seq<Member>): (r: seq<Member>)
    ensures multiset(r) == multiset(f)
  {
    SortDesc(OwnEntries(Obj(f)), EntryWeight)
  }

  /** The description's figures: no clusters, or the cluster count with the
      top theme and up to three more. */
  datatype Description = NoClusters | Described(clusterCount: nat, top: string, dominant: string)

  function EntryKeys(ms: seq<Member>): (r: seq<string>)
    ensures |r| == |ms|
    ensures forall i :: 0 <= i < |ms| ==> r[i] == ms[i].key
  {
    seq(|ms|, i requires 0 <= i < |ms| => ms[i].key)
  }

  /** `getThemesDescription(clusters, points)`. */
  function ThemesDescription(clusters: seq<Value>, points: seq<Value>): (r: Option<Description>)
    ensures clusters == [] ==> r == Some(NoClusters)
    ensures clusters != [] ==> (r.None? <==> ThemeFrequency(points).None?)
    ensures r.Some? && r.value.Described? ==>
              r.value.clusterCount == |clusters| > 0
              && ThemeFrequency(points).Some?
              && var ranked := Ranked(ThemeFrequency(points).value);
              (ranked == [] ==> r.value.top == MisreadDash)
              && (ranked != [] ==> r.value.top == ranked[0].key)
              && (|ranked| <= 1 ==> r.value.dominant == MisreadDash)
              && (|ranked| >= 2 ==> r.value.dominant == Join(EntryKeys(ranked[1..if |ranked| < 4 then |ranked| else 4]), ", "))
  {
    if clusters == [] then Some(NoClusters)
    else
      match ThemeFrequency(points)
      case None => None
      case Some(f) =>
        ThemeWordsLong(points);
        DominantListed(f);
        var ranked := Ranked(f);
        var top := if ranked == [] then MisreadDash else ranked[0].key;
        var rest := Join(EntryKeys(if |ranked| <= 1 then [] else ranked[1..if |ranked| < 4 then |ranked| else 4]), ", ");
        Some(Described(|clusters|, top, if rest == "" then MisreadDash else rest))
  }

  /** Every member of a faithful frequency object holds its word's total. */
  lemma MembersHoldTotals(f: seq<Member>, ps: seq<Value>)
    requires FrequencyOf(f, ps)
    ensures forall j :: 0 <= j < |f| ==> EntryWeight(f[j]) == TotalFor(ps, f[j].key)
  {
    forall j | 0 <= j < |f|
      ensures EntryWeight(f[j]) == TotalFor(ps, f[j].key)
    {
      LookupAt(f, j);
    }
  }

  /** The first ranked entry weighs at least as much as any entry. */
  lemma RankedFirstHeaviest(f: seq<Member>)
    ensures Ranked(f) == [] <==> f == []
    ensures Ranked(f) != [] ==> Ranked(f)[0] in f && forall j :: 0 <= j < |f| ==> EntryWeight(f[j]) <= EntryWeight(Ranked(f)[0])
  {
    var ranked := Ranked(f);
    SortDescSorted(OwnEntries(Obj(f)), EntryWeight);
    if f != [] {
      assert f[0] in multiset(ranked);
    }
    if ranked != [] {
      assert ranked[0] in multiset(f);
      forall j | 0 <= j < |f|
        ensures EntryWeight(f[j]) <= EntryWeight(ranked[0])
      {
        assert f[j] in multiset(ranked);
        var k :| 0 <= k < |ranked| && ranked[k] == f[j];
        if k > 0 {
          assert EntryWeight(ranked[0]) >= EntryWeight(ranked[k]);
        }
      }
    }
  }

  /** A word some point carries is stored in the frequency object. */
  lemma CarriedWordStored(f: seq<Member>, ps: seq<Value>, i: nat)
    requires FrequencyOf(f, ps) && i < |ps| && LabelKey(ps[i]).Word?
    ensures exists j :: 0 <= j < |f| && f[j].key == LabelKey(ps[i]).w
  {
    assert Carries(ps, LabelKey(ps[i]).w);
    var j :| 0 <= j < |Keys(f)| && Keys(f)[j] == LabelKey(ps[i]).w;
    assert f[j].key == LabelKey(ps[i]).w;
  }

  /** Over a faithful frequency object, the first ranked word is the
      heaviest, and there is one exactly when some point has a word. */
  lemma HeaviestRankedFirst(f: seq<Member>, ps: seq<Value>)
    requires FrequencyOf(f, ps)
    ensures Ranked(f) == [] <==> forall i :: 0 <= i < |ps| ==> !LabelKey(ps[i]).Word?
    ensures Ranked(f) != [] ==>
              forall i :: 0 <= i < |ps| && LabelKey(ps[i]).Word? ==>
                TotalFor(ps, LabelKey(ps[i]).w) <= TotalFor(ps, Ranked(f)[0].key)
  {
    MembersHoldTotals(f, ps);
    RankedFirstHeaviest(f);
    forall i | 0 <= i < |ps| && LabelKey(ps[i]).Word?
      ensures f != [] && TotalFor(ps, LabelKey(ps[i]).w) <= TotalFor(ps, Ranked(f)[0].key)
    {
      CarriedWordStored(f, ps, i);
      var j :| 0 <= j < |f| && f[j].key == LabelKey(ps[i]).w;
      var k :| 0 <= k < |f| && f[k] == Ranked(f)[0];
    }
    if f != [] {
      assert f[0].key in Keys(f);
      var i :| 0 <= i < |ps| && LabelKey(ps[i]) == Word(f[0].key);
    }
  }

  /** The top theme carries the largest total weight of all theme words,
      and it is the placeholder exactly when no point has a theme word. */
  lemma TopThemeHeaviest(clusters: seq<Value>, points: seq<Value>)
    requires clusters != [] && ThemesDescription(clusters, points).Some?
    ensures var d := ThemesDescription(clusters, points).value;
            (d.top == MisreadDash <==> forall i :: 0 <= i < |points| ==> !LabelKey(points[i]).Word?)
            && (d.top != MisreadDash ==>
                  forall i :: 0 <= i < |points| && LabelKey(points[i]).Word? ==>
                    TotalFor(points, LabelKey(points[i]).w) <= TotalFor(points, d.top))
  {
    ThemeFrequencyTotals(points);
    var f := ThemeFrequency(points).value;
    HeaviestRankedFirst(f, points);
    RankedFirstHeaviest(f);
    if Ranked(f) != [] {
      var k :| 0 <= k < |f| && f[k] == Ranked(f)[0];
      assert f[k].key in Keys(f);
      var i :| 0 <= i < |points| && LabelKey(points[i]) == Word(f[k].key);
      LabelKeyCases(points[i]);
    }
  }

  /** Every word of the frequency object has more than two characters. */
  lemma ThemeWordsLong(ps: seq<Value>)
    requires ThemeFrequency(ps).Some?
    ensures forall j :: 0 <= j < |ThemeFrequency(ps).value| ==> |ThemeFrequency(ps).value[j].key| > 2
  {
    ThemeFrequencyTotals(ps);
    var f := ThemeFrequency(ps).value;
    forall j | 0 <= j < |f|
      ensures |f[j].key| > 2
    {
      assert f[j].key in Keys(f);
      var i :| 0 <= i < |ps| && LabelKey(ps[i]) == Word(f[j].key);
      LabelKeyCases(ps[i]);
    }
  }

  /** With two ranked words or more, the words after the top one join to a
      non-empty text, so the placeholder is not shown. */
  lemma DominantListed(f: seq<Member>)
    requires forall j :: 0 <= j < |f| ==> |f[j].key| > 2
    ensures |Ranked(f)| >= 2 ==> Join(EntryKeys(Ranked(f)[1..if |Ranked(f)| < 4 then |Ranked(f)| else 4]), ", ") != ""
  {
    var ranked := Ranked(f);
    if |ranked| >= 2 {
      assert ranked[1] in multiset(f);
      var parts := EntryKeys(ranked[1..if |ranked| < 4 then |ranked| else 4]);
      assert parts[0] == ranked[1].key != "";
      JoinStartsWith(parts, ", ");
    }
  }

  /** Over the points' frequency object, the ranking is by total weight: no
      word is heavier than one ranked before it. */
  lemma RankedByWeight(ps: seq<Value>)
    requires ThemeFrequency(ps).Some?
    ensures var ranked := Ranked(ThemeFrequency(ps).value);
            forall i, j :: 0 <= i < j < |ranked| ==> TotalFor(ps, ranked[j].key) <= TotalFor(ps, ranked[i].key)
  {
    ThemeFrequencyTotals(ps);
    var f := ThemeFrequency(ps).value;
    MembersHoldTotals(f, ps);
    SortDescSorted(OwnEntries(Obj(f)), EntryWeight);
    var ranked := Ranked(f);
    forall k | 0 <= k < |ranked|
      ensures EntryWeight(ranked[k]) == TotalFor(ps, ranked[k].key)
    {
      assert ranked[k] in multiset(f);
      var j :| 0 <= j < |f| && f[j] == ranked[k];
    }
  }

  /** The dominant themes shown after the top one weigh no more than it,
      and no word left out of the description weighs more than any shown. */
  lemma DominantThemesNoHeavier(clusters: seq<Value>, points: seq<Value>)
    requires clusters != [] && ThemesDescription(clusters, points).Some?
    ensures var ranked := Ranked(ThemeFrequency(points).value);
            var top := ThemesDescription(clusters, points).value.top;
            (forall k :: 1 <= k < |ranked| && k < 4 ==> TotalFor(points, ranked[k].key) <= TotalFor(points, top))
            && (forall k, j :: 0 <= k < 4 <= j < |ranked| ==> TotalFor(points, ranked[j].key) <= TotalFor(points, ranked[k].key))
  {
    RankedByWeight(points);
  }
}
