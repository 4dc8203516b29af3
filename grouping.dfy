/** The theme bubbles of frontend/js/dashboard.js: the points are grouped by
    their numeric cluster id in a dictionary, and one dataset is drawn per
    id, in the order `Object.keys` lists the dictionary's keys. */
module Grouping {
  import opened Text
  import opened Seqs
  import opened Json
  import opened Normalize
  import opened Themes

  /** `Number(p.cluster ?? 0)`; None is NaN. */
  type ClusterId = Option<real>

  /** One drawn point: `Number(v) || 0` for the coordinates, the radius
      (None is NaN) and the label. */
  datatype GroupPoint = GroupPoint(x: real, y: real, r: Option<real>, caption: Value)

  /** The dataset labelled "Cluster id". */
  datatype Group = Group(id: ClusterId, data: seq<GroupPoint>)

  /** The outcome of the block: a TypeError, the empty state, or the
      datasets. */
  datatype GroupedChart = GroupsCrashed | GroupsEmpty | GroupsDrawn(groups: seq<Group>)

  function GroupId(p: Value): ClusterId
  {
    JsNumber(Coalesce(Get(p, "cluster"), Num(0.0)))
  }

  /** `Math.max(6, Math.min(18, Number(p.count || 1) * 1.2))`: NaN passes
      through both bounds. */
  function GroupRadius(count: Value): (r: Option<real>)
    ensures r.Some? ==> 6.0 <= r.value <= 18.0
    ensures !Truthy(count) ==> r == Some(6.0)
    ensures count.Num? ==> r.Some?
  {
    match JsNumber(Or(count, Num(1.0)))
    case None => None
    case Some(n) => Some(Clamp(6.0, 18.0, n * 1.2))
  }

  /** The point pushed for p. */
  function GroupPointOf(p: Value): GroupPoint
  {
    GroupPoint(NumberOrZero(Get(p, "x")), NumberOrZero(Get(p, "y")), GroupRadius(Get(p, "count")),
               Or(Get(p, "label"), Str("(unknown)")))
  }

  /** A missing coordinate reads as 0, a number as itself, a missing label
      as "(unknown)", and a radius that is a number lies in [6, 18]. */
  lemma GroupPointDefaults(p: Value)
    ensures var r := GroupPointOf(p);
            (Get(p, "x").Undefined? ==> r.x == 0.0)
            && (Get(p, "y").Undefined? ==> r.y == 0.0)
            && (Get(p, "x").Num? ==> r.x == Get(p, "x").n)
            && (Get(p, "y").Num? ==> r.y == Get(p, "y").n)
            && (r.r.Some? ==> 6.0 <= r.r.value <= 18.0)
            && (!Truthy(Get(p, "label")) ==> r.caption == Str("(unknown)"))
            && (Truthy(Get(p, "label")) ==> r.caption == Get(p, "label"))
  {
  }

  /** The ids of the points, in input order. */
  function Ids<P, K>(ps: seq<P>, key: P -> K): seq<K>
  {
    MapSeq(ps, key)
  }

  /** The points whose id, as read by `key`, is `id`. */
  function HasId<P, K(==)>(key: P -> K, id: K): P -> bool
  {
    p => key(p) == id
  }

  /** The points pushed under one id: the points with that id, in input
      order, each turned into what is drawn by `pt`. */
  function Members<P(!new), K(==), Q>(ps: seq<P>, key: P -> K, pt: P -> Q, id: K): seq<Q>
  {
    MapSeq(Filter(ps, HasId(key, id)), pt)
  }

  /** An id whose property key is an array index: an integer in
      [0, 2^32 - 2]. */
  predicate IsIndexId(id: ClusterId)
  {
    id.Some? && id.value == id.value.Floor as real && 0.0 <= id.value < IndexKeyBound as real
  }

  predicate IsNamedId(id: ClusterId)
  {
    !IsIndexId(id)
  }

  /** Sort key placing index ids first, in ascending order. */
  function IdRank(id: ClusterId): real
  {
    if IsIndexId(id) then -id.value else 0.0
  }

  /** `Object.keys(clusters)` for ids created in the given order. */
  function KeyOrder(created: seq<ClusterId>): (r: seq<ClusterId>)
    ensures multiset(r) == multiset(created)
    ensures |r| == |created|
  {
    FilterPartition(created, IsIndexId, IsNamedId);
    SortDesc(Filter(created, IsIndexId), IdRank) + Filter(created, IsNamedId)
  }

  /** One dataset per key, holding the points pushed under it. */
  function GroupsOf<P(!new)>(ps: seq<P>, key: P -> ClusterId, pt: P -> GroupPoint): seq<Group>
  {
    var keys := KeyOrder(Distinct(Ids(ps, key)));
    seq(|keys|, j requires 0 <= j < |keys| => Group(keys[j], Members(ps, key, pt, keys[j])))
  }

  /** `resp?.themes?.points || []`, then `(themePoints || []).forEach`. */
  function ThemePoints(resp: Value): Option<seq<Value>>
  {
    ListOr(Or(Get(Get(resp, "themes"), "points"), Arr([])))
  }

  /** The block as a whole: a truthy points value that is not an array, or a
      null point, throws; otherwise the chart is drawn when there is a key. */
  function GroupedThemes(resp: Value): GroupedChart
  {
    match ThemePoints(resp)
    case None => GroupsCrashed
    case Some(ps) =>
      if HasNullish(ps) then GroupsCrashed
      else if |KeyOrder(Distinct(Ids(ps, GroupId)))| == 0 then GroupsEmpty
      else GroupsDrawn(GroupsOf(ps, GroupId, GroupPointOf))
  }

  /** Reading one more point appends its id ... */
  lemma IdsSnoc<P, K>(ps: seq<P>, i: nat, key: P -> K)
    requires i < |ps|
    ensures Ids(ps[..i + 1], key) == Ids(ps[..i], key) + [key(ps[i])]
  {
    assert ps[..i + 1] == ps[..i] + [ps[i]];
    MapSeqAppend(ps[..i], [ps[i]], key);
  }

  /** ... and appends the point to the members of its id only. */
  lemma MembersSnoc<P(!new), K(!new), Q>(ps: seq<P>, i: nat, key: P -> K, pt: P -> Q, id: K)
    requires i < |ps|
    ensures Members(ps[..i + 1], key, pt, id) ==
              Members(ps[..i], key, pt, id) + (if key(ps[i]) == id then [pt(ps[i])] else [])
  {
    assert ps[..i + 1] == ps[..i] + [ps[i]];
    FilterMapSnoc(ps[..i], ps[i], HasId(key, id), pt);
  }

  lemma DistinctSnoc<T(!new)>(s: seq<T>, x: T)
    ensures Distinct(s + [x]) == if x in s then Distinct(s) else Distinct(s) + [x]
  {
    assert (s + [x])[..|s|] == s;
    if x in s {
      var k :| 0 <= k < |s| && s[k] == x;
      assert s[k] in Distinct(s);
    }
  }

  /** An id no point carries selects no point. */
  lemma FilterNone<P(!new), K(!new)>(ps: seq<P>, key: P -> K, id: K)
    requires id !in Ids(ps, key)
    ensures Filter(ps, HasId(key, id)) == []
  {
  }

  /** The dictionary after the first i points: every id created so far
      holds the points pushed under it, and the ids were created in order of
      first appearance. */
  ghost predicate Grouped<P(!new), K(!new), Q>(ps: seq<P>, i: nat, key: P -> K, pt: P -> Q,
                                       clusters: map<K, seq<Q>>, created: seq<K>)
    requires i <= |ps|
  {
    created == Distinct(Ids(ps[..i], key))
    && (forall id :: id in clusters <==> id in created)
    && (forall id :: id in clusters ==> clusters[id] == Members(ps[..i], key, pt, id))
  }

  /** `(clusters[cid] ||= []).push(point)`. */
  function Push<K(==), Q>(clusters: map<K, seq<Q>>, id: K, q: Q): (r: map<K, seq<Q>>)
  {
    if id in clusters then clusters[id := clusters[id] + [q]] else clusters[id := [q]]
  }

  /** The creation order of the dictionary's keys after the push. */
  function Created<K(==), Q>(clusters: map<K, seq<Q>>, created: seq<K>, id: K): seq<K>
  {
    if id in clusters then created else created + [id]
  }

  /** One push keeps the dictionary in step with the points read. */
  lemma PushStep<P(!new), K(!new), Q>(ps: seq<P>, i: nat, key: P -> K, pt: P -> Q,
                                      clusters: map<K, seq<Q>>, created: seq<K>)
    requires i < |ps| && Grouped(ps, i, key, pt, clusters, created)
    ensures Grouped(ps, i + 1, key, pt, Push(clusters, key(ps[i]), pt(ps[i])),
                    Created(clusters, created, key(ps[i])))
  {
    PushOrder(ps, i, key, clusters, created);
    PushMembers(ps, i, key, pt, clusters, created);
  }

  /** The push creates a key exactly when the id is new. */
  lemma PushOrder<P(!new), K(!new), Q>(ps: seq<P>, i: nat, key: P -> K,
                                       clusters: map<K, seq<Q>>, created: seq<K>)
    requires i < |ps| && created == Distinct(Ids(ps[..i], key))
    requires forall id :: id in clusters <==> id in created
    ensures Created(clusters, created, key(ps[i])) == Distinct(Ids(ps[..i + 1], key))
  {
    IdsSnoc(ps, i, key);
    DistinctSnoc(Ids(ps[..i], key), key(ps[i]));
  }

  /** The push appends the point under its id and changes no other key. */
  lemma PushMembers<P(!new), K(!new), Q>(ps: seq<P>, i: nat, key: P -> K, pt: P -> Q,
                                         clusters: map<K, seq<Q>>, created: seq<K>)
    requires i < |ps| && Grouped(ps, i, key, pt, clusters, created)
    ensures var next := Push(clusters, key(ps[i]), pt(ps[i]));
            forall id :: id in next ==> next[id] == Members(ps[..i + 1], key, pt, id)
  {
    var id0 := key(ps[i]);
    var next := Push(clusters, id0, pt(ps[i]));
    forall id | id in next
      ensures next[id] == Members(ps[..i + 1], key, pt, id)
    {
      MembersSnoc(ps, i, key, pt, id);
      if id == id0 && id0 !in clusters {
        FilterNone(ps[..i], key, id0);
      }
    }
  }

  /** The `forEach` loop: it throws at the first point `stop` holds of;
      otherwise the dictionary holds every point under its id. */
  method GroupPoints<P(!new), K(==,!new), Q>(ps: seq<P>, stop: P -> bool, key: P -> K, pt: P -> Q)
    returns (crashed: bool, clusters: map<K, seq<Q>>, created: seq<K>)
    ensures crashed <==> exists j :: 0 <= j < |ps| && stop(ps[j])
    ensures !crashed ==> Grouped(ps, |ps|, key, pt, clusters, created)
  {
    clusters := map[];
    created := [];
    var i := 0;
    while i < |ps|
      invariant 0 <= i <= |ps|
      invariant Grouped(ps, i, key, pt, clusters, created)
      invariant forall j :: 0 <= j < i ==> !stop(ps[j])
    {
      if stop(ps[i]) {
        return true, clusters, created;
      }
      PushStep(ps, i, key, pt, clusters, created);
      created := Created(clusters, created, key(ps[i]));
      clusters := Push(clusters, key(ps[i]), pt(ps[i]));
      i := i + 1;
    }
    crashed := false;
  }

  /** One dataset per key of the dictionary. */
  function Datasets(keys: seq<ClusterId>, clusters: map<ClusterId, seq<GroupPoint>>): seq<Group>
    requires forall j :: 0 <= j < |keys| ==> keys[j] in clusters
  {
    seq(|keys|, j requires 0 <= j < |keys| => Group(keys[j], clusters[keys[j]]))
  }

  /** Once every point is read, the keys are those of the specification
      ... */
  lemma DatasetKeys<P(!new)>(ps: seq<P>, key: P -> ClusterId, pt: P -> GroupPoint,
                             clusters: map<ClusterId, seq<GroupPoint>>, created: seq<ClusterId>)
    requires Grouped(ps, |ps|, key, pt, clusters, created)
    ensures KeyOrder(created) == KeyOrder(Distinct(Ids(ps, key)))
    ensures forall j :: 0 <= j < |KeyOrder(created)| ==> KeyOrder(created)[j] in clusters
  {
    assert ps[..|ps|] == ps;
    var keys := KeyOrder(created);
    forall j | 0 <= j < |keys|
      ensures keys[j] in clusters
    {
      assert keys[j] in multiset(created);
    }
  }

  /** ... and so are the datasets. */
  lemma DatasetsComplete<P(!new)>(ps: seq<P>, key: P -> ClusterId, pt: P -> GroupPoint,
                                  clusters: map<ClusterId, seq<GroupPoint>>, created: seq<ClusterId>)
    requires Grouped(ps, |ps|, key, pt, clusters, created)
    requires forall j :: 0 <= j < |KeyOrder(created)| ==> KeyOrder(created)[j] in clusters
    requires KeyOrder(created) == KeyOrder(Distinct(Ids(ps, key)))
    ensures Datasets(KeyOrder(created), clusters) == GroupsOf(ps, key, pt)
  {
    assert ps[..|ps|] == ps;
  }

  /** The block as a whole: the loop with `IsNullish`, `Number(p.cluster ??
      0)` and the point built by `GroupPointOf`. */
  method GroupThemes(resp: Value) returns (r: GroupedChart)
    ensures r == GroupedThemes(resp)
  {
    var listed := ThemePoints(resp);
    if listed.None? {
      return GroupsCrashed;
    }
    var ps := listed.value;
    var crashed, clusters, created := GroupPoints(ps, IsNullish, GroupId, GroupPointOf);
    if crashed {
      return GroupsCrashed;
    }
    DatasetKeys(ps, GroupId, GroupPointOf, clusters, created);
    DatasetsComplete(ps, GroupId, GroupPointOf, clusters, created);
    var keys := KeyOrder(created);
    ThemesFromLoop(resp, ps, keys, Datasets(keys, clusters));
    if |keys| == 0 {
      return GroupsEmpty;
    }
    r := GroupsDrawn(Datasets(keys, clusters));
  }

  /** What the block draws once the loop has run without a throw. */
  lemma ThemesFromLoop(resp: Value, ps: seq<Value>, keys: seq<ClusterId>, groups: seq<Group>)
    requires ThemePoints(resp) == Some(ps) && !HasNullish(ps)
    requires keys == KeyOrder(Distinct(Ids(ps, GroupId)))
    requires groups == GroupsOf(ps, GroupId, GroupPointOf)
    ensures GroupedThemes(resp) == if |keys| == 0 then GroupsEmpty else GroupsDrawn(groups)
  {
  }

  /** The chart is drawn exactly when there is a point to draw: every
      point creates a key. */
  lemma DrawnIffPoints(resp: Value)
    ensures GroupedThemes(resp).GroupsDrawn? <==>
              ThemePoints(resp).Some? && ThemePoints(resp).value != [] && !HasNullish(ThemePoints(resp).value)
  {
    match ThemePoints(resp)
    case None =>
    case Some(ps) =>
      if ps != [] {
        assert Ids(ps, GroupId)[0] in Distinct(Ids(ps, GroupId));
      }
  }

  /** For any reading of the ids, such as `Number(p.cluster ?? 0)`: no two
      datasets share an id ... */
  lemma GroupIdsDistinct<P(!new)>(ps: seq<P>, key: P -> ClusterId, pt: P -> GroupPoint, a: nat, b: nat)
    requires a < b < |GroupsOf(ps, key, pt)|
    ensures GroupsOf(ps, key, pt)[a].id != GroupsOf(ps, key, pt)[b].id
  {
    KeyOrderDistinct(Distinct(Ids(ps, key)), a, b);
  }

  /** ... every point is drawn in the dataset of its id ... */
  lemma EveryPointGrouped<P(!new)>(ps: seq<P>, key: P -> ClusterId, pt: P -> GroupPoint, i: nat)
    requires i < |ps|
    ensures exists j :: 0 <= j < |GroupsOf(ps, key, pt)| && GroupsOf(ps, key, pt)[j].id == key(ps[i])
                        && pt(ps[i]) in GroupsOf(ps, key, pt)[j].data
  {
    var keys := KeyOrder(Distinct(Ids(ps, key)));
    var g := GroupsOf(ps, key, pt);
    assert Ids(ps, key)[i] == key(ps[i]);
    assert Ids(ps, key)[i] in Ids(ps, key);
    assert key(ps[i]) in multiset(Distinct(Ids(ps, key)));
    assert key(ps[i]) in multiset(keys);
    var j := IndexOf(keys, key(ps[i]));
    assert g[j].id == key(ps[i]);
    var sel := Filter(ps, HasId(key, g[j].id));
    assert HasId(key, g[j].id)(ps[i]);
    assert ps[i] in sel;
    var q := IndexOf(sel, ps[i]);
    assert g[j].data[q] == pt(ps[i]);
  }

  /** ... and every drawn point comes from a point with the dataset's id. */
  lemma GroupHoldsItsPoints<P(!new)>(ps: seq<P>, key: P -> ClusterId, pt: P -> GroupPoint, j: nat, q: nat)
    requires j < |GroupsOf(ps, key, pt)| && q < |GroupsOf(ps, key, pt)[j].data|
    ensures exists i :: 0 <= i < |ps| && key(ps[i]) == GroupsOf(ps, key, pt)[j].id
                        && GroupsOf(ps, key, pt)[j].data[q] == pt(ps[i])
  {
    var g := GroupsOf(ps, key, pt);
    var sel := Filter(ps, HasId(key, g[j].id));
    assert sel[q] in ps && HasId(key, g[j].id)(sel[q]);
    var i := IndexOf(ps, sel[q]);
    assert key(ps[i]) == g[j].id && g[j].data[q] == pt(ps[i]);
  }

  /** Reordering distinct ids keeps them distinct. */
  lemma KeyOrderDistinct(d: seq<ClusterId>, a: nat, b: nat)
    requires NoDuplicates(d)
    requires a < b < |KeyOrder(d)|
    ensures KeyOrder(d)[a] != KeyOrder(d)[b]
  {
    var k := KeyOrder(d);
    Occurrences(k, a, b);
    NoDuplicatesOnce(d, k[a]);
  }

  /** An element found at a and at b occurs at least twice. */
  lemma Occurrences<T>(s: seq<T>, a: nat, b: nat)
    requires a < b < |s|
    ensures multiset(s)[s[a]] >= if s[a] == s[b] then 2 else 1
  {
    assert s == s[..a] + [s[a]] + s[a + 1..b] + [s[b]] + s[b + 1..];
  }

  lemma {:induction false} NoDuplicatesOnce<T>(s: seq<T>, x: T)
    requires NoDuplicates(s)
    ensures multiset(s)[x] <= 1
    decreases |s|
  {
    if s != [] {
      NoDuplicatesOnce(s[1..], x);
      assert s == [s[0]] + s[1..];
      if s[0] == x {
        assert x !in s[1..];
      }
    }
  }

  /** `Object.keys` lists the ids that read as array indices first, in
      ascending order, then the other ids in creation order. */
  lemma KeyOrderShape(d: seq<ClusterId>)
    ensures var k := KeyOrder(d);
            var n := |Filter(d, IsIndexId)|;
            n <= |k|
            && (forall i :: 0 <= i < n ==> IsIndexId(k[i]))
            && (forall i, j :: 0 <= i < j < n ==> k[i].value <= k[j].value)
            && k[n..] == Filter(d, IsNamedId)
  {
    var index := Filter(d, IsIndexId);
    var sorted := SortDesc(index, IdRank);
    SortDescSorted(index, IdRank);
    forall i | 0 <= i < |sorted|
      ensures IsIndexId(sorted[i])
    {
      assert sorted[i] in multiset(index);
      assert sorted[i] in index;
    }
    forall i, j | 0 <= i < j < |sorted|
      ensures sorted[i].value <= sorted[j].value
    {
      assert IdRank(sorted[i]) >= IdRank(sorted[j]);
    }
  }
}
