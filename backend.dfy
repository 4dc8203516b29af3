/** The post-processing in backend/analysis.py around its language
    libraries: the ranked keyword list, the theme clusters' word lists and
    scatter points, the rounded sentiment shares, and the dominant emotion
    with its integer distribution. What the libraries compute (vocabulary
    counts, tokens, k-means labels, PCA coordinates, VADER and text2emotion
    scores) enters as input. */
module Analysis {
  import opened Text
  import opened Seqs
  import opened Json

  /** The em dash the backend writes when there is nothing to name. */
  const EmDash: string := "\U{2014}"

  // ----- keywords -----

  /** One pair of `zip(vocab, freqs)`: a vocabulary term and its count. */
  datatype Term = Term(token: string, count: nat)

  function TermCount(t: Term): real
  {
    t.count as real
  }

  /** `{"unique": ..., "top": ..., "list": [{"token": w, "count": int(c)}, ...]}`. */
  datatype Keywords = Keywords(unique: nat, top: string, list: seq<Term>)

  /** The keyword count `extract_keywords` is called with by default. */
  const DefaultTopN: int := 20

  /** `sorted(zip(vocab, freqs), key=lambda x: x[1], reverse=True)`: Python's
      sort is stable, also when reversed. */
  function Ranked(terms: seq<Term>): (r: seq<Term>)
    ensures multiset(r) == multiset(terms)
  {
    SortDesc(terms, TermCount)
  }

  /** `extract_keywords`, from the vocabulary with its counts. */
  function ExtractKeywords(terms: seq<Term>, topN: int): (r: Keywords)
    ensures r.unique == |terms|
    ensures r.list <= Ranked(terms)
    ensures topN >= 0 ==> |r.list| == if |terms| <= topN then |terms| else topN
  {
    var list := PySliceTo(Ranked(terms), topN);
    Keywords(|terms|, if list == [] then EmDash else list[0].token, list)
  }

  /** With the default the list holds at most twenty keywords. */
  lemma DefaultKeywordsAtMostTwenty(terms: seq<Term>)
    ensures |ExtractKeywords(terms, DefaultTopN).list| <= 20
    ensures |terms| <= 20 ==> |ExtractKeywords(terms, DefaultTopN).list| == |terms|
  {
  }

  lemma SortedPrefix<T>(a: seq<T>, s: seq<T>, key: T -> real)
    requires a <= s && SortedDesc(s, key)
    ensures SortedDesc(a, key)
  {
    assert forall i :: 0 <= i < |a| ==> a[i] == s[i];
  }

  /** The keywords are in non-increasing order of count. */
  lemma KeywordsSorted(terms: seq<Term>, topN: int)
    ensures SortedDesc(ExtractKeywords(terms, topN).list, TermCount)
  {
    SortDescSorted(terms, TermCount);
    SortedPrefix(ExtractKeywords(terms, topN).list, Ranked(terms), TermCount);
  }

  lemma FilterPrefix<T(!new)>(a: seq<T>, s: seq<T>, p: T -> bool)
    requires a <= s
    ensures Filter(a, p) <= Filter(s, p)
  {
    assert s == a + s[|a|..];
    FilterAppend(a, s[|a|..], p);
  }

  /** Keywords of equal count keep their vocabulary order: those with count
      v are the first ones of the vocabulary's terms with count v. */
  lemma KeywordsStable(terms: seq<Term>, topN: int, v: real)
    ensures Filter(ExtractKeywords(terms, topN).list, KeyIs(TermCount, v)) <= Filter(terms, KeyIs(TermCount, v))
  {
    SortDescStable(terms, TermCount, v);
    FilterPrefix(ExtractKeywords(terms, topN).list, Ranked(terms), KeyIs(TermCount, v));
  }

  /** In a sorted sequence nothing after position n outweighs anything
      before it. */
  lemma SortedSplit<T>(s: seq<T>, n: nat, key: T -> real)
    requires n <= |s| && SortedDesc(s, key)
    ensures forall x, y :: x in s[n..] && y in s[..n] ==> key(x) <= key(y)
  {
    forall x, y | x in s[n..] && y in s[..n]
      ensures key(x) <= key(y)
    {
      var j :| 0 <= j < |s| - n && s[n..][j] == x;
      var i :| 0 <= i < n && s[..n][i] == y;
      assert s[n + j] == x && s[i] == y;
    }
  }

  lemma MultisetSplit<T>(s: seq<T>, n: nat)
    requires n <= |s|
    ensures multiset(s) - multiset(s[..n]) == multiset(s[n..])
  {
    assert s == s[..n] + s[n..];
  }

  /** No term left out of the list has a larger count than a listed one. */
  lemma KeywordsAreTheMostFrequent(terms: seq<Term>, topN: int)
    ensures var list := ExtractKeywords(terms, topN).list;
            forall t, k :: t in multiset(terms) - multiset(list) && k in list ==> t.count <= k.count
  {
    var list := ExtractKeywords(terms, topN).list;
    var s := Ranked(terms);
    var n := |list|;
    assert list == s[..n];
    MultisetSplit(s, n);
    SortDescSorted(terms, TermCount);
    SortedSplit(s, n, TermCount);
  }

  /** The first element satisfying p heads the filtered sequence. */
  lemma {:induction false} FilterHead<T(!new)>(s: seq<T>, p: T -> bool, j: nat)
    requires j < |s| && p(s[j])
    requires forall i :: 0 <= i < j ==> !p(s[i])
    ensures Filter(s, p) != [] && Filter(s, p)[0] == s[j]
    decreases j
  {
    if j > 0 {
      assert forall i :: 0 <= i < j - 1 ==> s[1..][i] == s[i + 1];
      FilterHead(s[1..], p, j - 1);
    }
  }

  /** The first ranked term holds the largest count. */
  lemma RankedHeadIsMax(terms: seq<Term>)
    requires terms != []
    ensures TermCount(Ranked(terms)[0]) == MapSeq(terms, TermCount)[FirstMaxIndex(MapSeq(terms, TermCount))]
  {
    var s := Ranked(terms);
    var counts := MapSeq(terms, TermCount);
    var m := FirstMaxIndex(counts);
    assert s[0] in multiset(terms);
    var a :| 0 <= a < |terms| && terms[a] == s[0];
    assert counts[a] <= counts[m];
    assert terms[m] in multiset(s);
    var b :| 0 <= b < |s| && s[b] == terms[m];
    SortDescSorted(terms, TermCount);
    assert TermCount(s[0]) >= TermCount(s[b]);
  }

  /** `keywords[0][0] if keywords else "—"`: the top keyword is the first
      term of the vocabulary holding the largest count. */
  lemma KeywordsTop(terms: seq<Term>, topN: int)
    ensures var r := ExtractKeywords(terms, topN);
            (r.list == [] ==> r.top == EmDash)
            && (r.list != [] ==> r.top == terms[FirstMaxIndex(MapSeq(terms, TermCount))].token)
  {
    var r := ExtractKeywords(terms, topN);
    if r.list != [] {
      var s := Ranked(terms);
      assert r.list[0] == s[0];
      var counts := MapSeq(terms, TermCount);
      var m := FirstMaxIndex(counts);
      var v := counts[m];
      RankedHeadIsMax(terms);
      FilterHead(s, KeyIs(TermCount, v), 0);
      assert forall i :: 0 <= i < m ==> counts[i] < v;
      FilterHead(terms, KeyIs(TermCount, v), m);
      SortDescStable(terms, TermCount, v);
    }
  }

  // ----- themes -----

  /** `min(5, max(1, len(vectors) // 50))`. */
  function ClusterCount(tokens: nat): nat
  {
    var k := tokens / 50;
    var atLeastOne := if k > 1 then k else 1;
    if atLeastOne < 5 then atLeastOne else 5
  }

  /** Fifty tokens per cluster, between one and five clusters. */
  lemma ClusterCountRange(tokens: nat)
    ensures var n := ClusterCount(tokens);
            1 <= n <= 5
            && (n == 1 || n * 50 <= tokens)
            && (n == 5 || tokens < (n + 1) * 50)
  {
  }

  /** Python's `zip`: pairs up to the shorter length. */
  function Zip<A, B>(a: seq<A>, b: seq<B>): (r: seq<(A, B)>)
    ensures |r| == if |a| <= |b| then |a| else |b|
    ensures forall i :: 0 <= i < |r| ==> r[i] == (a[i], b[i])
  {
    seq(if |a| <= |b| then |a| else |b|, i requires 0 <= i < |a| && i < |b| => (a[i], b[i]))
  }

  function LabelIs(i: int): ((string, int)) -> bool
  {
    (p: (string, int)) => p.1 == i
  }

  function Word(p: (string, int)): string
  {
    p.0
  }

  /** `[t.text for t, l in zip(tokens, labels) if l == i][:5]`. */
  function ClusterWordList(tokens: seq<string>, labels: seq<int>, i: int): seq<string>
  {
    Take(MapSeq(Filter(Zip(tokens, labels), LabelIs(i)), Word), 5)
  }

  /** What the loop over `range(n_clusters)` collects. */
  function ClusterWordLists(tokens: seq<string>, labels: seq<int>, n: nat): (r: seq<seq<string>>)
    ensures |r| == n
    ensures forall i :: 0 <= i < n ==> |r[i]| <= 5
  {
    seq(n, i requires 0 <= i < n => ClusterWordList(tokens, labels, i))
  }

  function NonEmpty(w: seq<string>): bool
  {
    w != []
  }

  function FirstWord(w: seq<string>): string
  {
    if w == [] then "" else w[0]
  }

  /** `[w[0] for w in cluster_words if w]`. */
  function FirstWords(cw: seq<seq<string>>): seq<string>
  {
    MapSeq(Filter(cw, NonEmpty), FirstWord)
  }

  /** `{"word": t.text, "x": float(x), "y": float(y)}`. */
  datatype Point = Point(word: string, x: real, y: real)

  function ToPoint(p: (string, (real, real))): Point
  {
    Point(p.0, p.1.0, p.1.1)
  }

  /** `zip(tokens[:200], reduced[:200])` as points. */
  function ScatterPoints(tokens: seq<string>, reduced: seq<(real, real)>): seq<Point>
  {
    MapSeq(Zip(Take(tokens, 200), Take(reduced, 200)), ToPoint)
  }

  /** `top_theme`: a message, or the clusters' first words. */
  datatype TopTheme = Note(text: string) | Words(words: seq<string>)

  /** `{"clusters": ..., "top_theme": ..., "data": ...}`; data is None
      where the key is absent. */
  datatype Themes = Themes(clusters: nat, topTheme: TopTheme, data: Option<seq<Point>>)

  const InsufficientData: string := "Insufficient data"

  /** `cluster_themes` from the alphabetic non-stop tokens' texts, the
      k-means labels for a given cluster count, and the PCA coordinates. */
  function ThemesOf(tokens: seq<string>, kmeans: nat -> seq<int>, reduced: seq<(real, real)>): Themes
  {
    if |tokens| < 10 then Themes(0, Note(InsufficientData), None)
    else
      var n := ClusterCount(|tokens|);
      Themes(n, Words(FirstWords(ClusterWordLists(tokens, kmeans(n), n))), Some(ScatterPoints(tokens, reduced)))
  }

  /** `cluster_themes`, with its loop collecting one word list per cluster. */
  method ClusterThemes(tokens: seq<string>, kmeans: nat -> seq<int>, reduced: seq<(real, real)>) returns (r: Themes)
    ensures r == ThemesOf(tokens, kmeans, reduced)
  {
    if |tokens| < 10 {
      return Themes(0, Note(InsufficientData), None);
    }
    var n := ClusterCount(|tokens|);
    var labels := kmeans(n);
    var clusterWords: seq<seq<string>> := [];
    for i := 0 to n
      invariant |clusterWords| == i
      invariant forall j :: 0 <= j < i ==> clusterWords[j] == ClusterWordList(tokens, labels, j)
    {
      var words := ClusterWordList(tokens, labels, i);
      clusterWords := clusterWords + [words];
    }
    assert clusterWords == ClusterWordLists(tokens, labels, n);
    r := Themes(n, Words(FirstWords(clusterWords)), Some(ScatterPoints(tokens, reduced)));
  }

  /** Fewer than ten tokens give exactly the "Insufficient data" result, and
      only they give a message. */
  lemma InsufficientIff(tokens: seq<string>, kmeans: nat -> seq<int>, reduced: seq<(real, real)>)
    ensures ThemesOf(tokens, kmeans, reduced).topTheme.Note? <==> |tokens| < 10
    ensures |tokens| < 10 ==> ThemesOf(tokens, kmeans, reduced) == Themes(0, Note(InsufficientData), None)
  {
  }

  /** Otherwise there are one to five clusters, no more first words than
      clusters, and at most 200 points. */
  lemma ClusteredShape(tokens: seq<string>, kmeans: nat -> seq<int>, reduced: seq<(real, real)>)
    requires |tokens| >= 10
    ensures var t := ThemesOf(tokens, kmeans, reduced);
            1 <= t.clusters <= 5
            && t.topTheme.Words? && |t.topTheme.words| <= t.clusters
            && t.data.Some? && |t.data.value| <= 200
  {
    ClusterCountRange(|tokens|);
  }

  /** The positions, in increasing order, of the first m tokens labelled i. */
  function Positions(labels: seq<int>, m: nat, i: int): (r: seq<nat>)
    requires m <= |labels|
    ensures forall k :: 0 <= k < |r| ==> r[k] < m && labels[r[k]] == i
    ensures forall a, b :: 0 <= a < b < |r| ==> r[a] < r[b]
    ensures forall j :: 0 <= j < m && labels[j] == i ==> j in r
  {
    if m == 0 then []
    else Positions(labels, m - 1, i) + (if labels[m - 1] == i then [m - 1] else [])
  }

  /** The tokens at the given positions. */
  function Pick(tokens: seq<string>, ps: seq<nat>): (r: seq<string>)
    requires forall k :: 0 <= k < |ps| ==> ps[k] < |tokens|
    ensures |r| == |ps|
  {
    seq(|ps|, k requires 0 <= k < |ps| => tokens[ps[k]])
  }

  lemma ZipSnoc<A, B>(a: seq<A>, b: seq<B>, m: nat)
    requires 0 < m <= |a| && m <= |b|
    ensures Zip(a[..m], b[..m]) == Zip(a[..m - 1], b[..m - 1]) + [(a[m - 1], b[m - 1])]
  {
  }

  lemma PickSnoc(tokens: seq<string>, ps: seq<nat>, j: nat)
    requires forall k :: 0 <= k < |ps| ==> ps[k] < |tokens|
    requires j < |tokens|
    ensures Pick(tokens, ps + [j]) == Pick(tokens, ps) + [tokens[j]]
  {
  }

  lemma {:induction false} LabelledWords(tokens: seq<string>, labels: seq<int>, m: nat, i: int)
    requires m <= |tokens| && m <= |labels|
    ensures MapSeq(Filter(Zip(tokens[..m], labels[..m]), LabelIs(i)), Word) == Pick(tokens, Positions(labels, m, i))
    decreases m
  {
    if m > 0 {
      LabelledWords(tokens, labels, m - 1, i);
      ZipSnoc(tokens, labels, m);
      FilterMapSnoc(Zip(tokens[..m - 1], labels[..m - 1]), (tokens[m - 1], labels[m - 1]), LabelIs(i), Word);
      if labels[m - 1] == i {
        PickSnoc(tokens, Positions(labels, m - 1, i), m - 1);
      }
    }
  }

  /** Each cluster's word list holds the tokens at the first five positions
      labelled with its index, in token order. */
  lemma ClusterWordsInTokenOrder(tokens: seq<string>, labels: seq<int>, i: int)
    ensures var m := if |tokens| <= |labels| then |tokens| else |labels|;
            ClusterWordList(tokens, labels, i) == Take(Pick(tokens, Positions(labels, m, i)), 5)
  {
    var m := if |tokens| <= |labels| then |tokens| else |labels|;
    assert Zip(tokens, labels) == Zip(tokens[..m], labels[..m]);
    LabelledWords(tokens, labels, m, i);
  }

  /** Every first word of the top theme is one of the tokens. */
  lemma TopThemeFromTokens(tokens: seq<string>, labels: seq<int>, n: nat)
    ensures forall w :: w in FirstWords(ClusterWordLists(tokens, labels, n)) ==> w in tokens
  {
    var cw := ClusterWordLists(tokens, labels, n);
    var kept := Filter(cw, NonEmpty);
    forall w | w in FirstWords(cw)
      ensures w in tokens
    {
      var k :| 0 <= k < |kept| && FirstWord(kept[k]) == w;
      assert kept[k] in kept;
      var i :| 0 <= i < n && cw[i] == kept[k];
      var all := MapSeq(Filter(Zip(tokens, labels), LabelIs(i)), Word);
      assert cw[i] <= all;
      assert w == all[0];
      var chosen := Filter(Zip(tokens, labels), LabelIs(i));
      assert chosen[0] in chosen;
      var j :| 0 <= j < |Zip(tokens, labels)| && Zip(tokens, labels)[j] == chosen[0];
      assert w == tokens[j];
    }
  }

  /** The k-th point is the k-th token at the k-th coordinates, for the
      first 200. */
  lemma ScatterPointsFollowTokens(tokens: seq<string>, reduced: seq<(real, real)>)
    ensures var d := ScatterPoints(tokens, reduced);
            var m := if |tokens| <= |reduced| then |tokens| else |reduced|;
            |d| == (if m <= 200 then m else 200)
            && forall k :: 0 <= k < |d| ==> d[k] == Point(tokens[k], reduced[k].0, reduced[k].1)
  {
  }

  // ----- sentiment -----

  /** `{"pos": ..., "neu": ..., "neg": ...}`. */
  datatype Shares = Shares(pos: int, neu: int, neg: int)

  /** `round(s["pos"] * 100)` and the same for `neu` and `neg`; Python's
      `round` sends ties to the even neighbour. */
  function AnalyzeSentiment(pos: real, neu: real, neg: real): Shares
  {
    Shares(RoundHalfEven(pos * 100.0), RoundHalfEven(neu * 100.0), RoundHalfEven(neg * 100.0))
  }

  lemma PercentOfUnit(x: real)
    requires 0.0 <= x <= 1.0
    ensures 0 <= RoundHalfEven(x * 100.0) <= 100
  {
  }

  /** VADER's shares lie in [0, 1], so the rounded ones lie in [0, 100]. */
  lemma SharesArePercentages(pos: real, neu: real, neg: real)
    requires 0.0 <= pos <= 1.0 && 0.0 <= neu <= 1.0 && 0.0 <= neg <= 1.0
    ensures var r := AnalyzeSentiment(pos, neu, neg);
            0 <= r.pos <= 100 && 0 <= r.neu <= 100 && 0 <= r.neg <= 100
  {
    PercentOfUnit(pos);
    PercentOfUnit(neu);
    PercentOfUnit(neg);
  }

  /** A positive share of at most half a percent is sent as 0, the value
      the features page then mistakes for a missing one. */
  lemma SmallShareSentAsZero(pos: real, neu: real, neg: real)
    requires 0.0 <= pos <= 0.005
    ensures AnalyzeSentiment(pos, neu, neg).pos == 0
  {
  }

  // ----- emotions -----

  /** `{"dominant": ..., "distribution": {...}}`, the distribution's
      entries in the dictionary's order. */
  datatype EmotionResult = EmotionResult(dominant: string, distribution: seq<(string, int)>)

  function Score(p: (string, real)): real
  {
    p.1
  }

  function EmotionName<V>(p: (string, V)): string
  {
    p.0
  }

  /** `int(v * 100)`: truncation toward zero. */
  function Percent(p: (string, real)): (string, int)
  {
    (p.0, Truncate(p.1 * 100.0))
  }

  /** `detect_emotions`, from text2emotion's scores in dictionary order.
      Python's `max` keeps the first of several maximal keys. */
  function DetectEmotions(e: seq<(string, real)>): EmotionResult
  {
    var dominant := if e == [] then EmDash else e[FirstMaxIndex(MapSeq(e, Score))].0;
    EmotionResult(dominant, MapSeq(e, Percent))
  }

  /** The dominant emotion is "—" for no scores, and otherwise the first
      emotion holding the largest score. */
  lemma DominantIsFirstMax(e: seq<(string, real)>)
    ensures e == [] ==> DetectEmotions(e).dominant == EmDash
    ensures e != [] ==>
              exists i :: 0 <= i < |e| && DetectEmotions(e).dominant == e[i].0
                && (forall j :: 0 <= j < |e| ==> e[j].1 <= e[i].1)
                && (forall j :: 0 <= j < i ==> e[j].1 < e[i].1)
  {
    if e != [] {
      var s := MapSeq(e, Score);
      var i := FirstMaxIndex(s);
      assert forall j :: 0 <= j < |e| ==> s[j] == e[j].1;
      assert DetectEmotions(e).dominant == e[i].0;
    }
  }

  /** The distribution names the same emotions in the same order. */
  lemma DistributionKeys(e: seq<(string, real)>)
    ensures MapSeq(DetectEmotions(e).distribution, EmotionName) == MapSeq(e, EmotionName)
  {
  }

  /** Each score in [0, 1] becomes a whole percentage in [0, 100], never
      above the exact one and less than one below it. */
  lemma DistributionPercentages(e: seq<(string, real)>)
    requires forall k :: 0 <= k < |e| ==> 0.0 <= e[k].1 <= 1.0
    ensures var d := DetectEmotions(e).distribution;
            forall k :: 0 <= k < |d| ==>
              0 <= d[k].1 <= 100 && d[k].1 as real <= e[k].1 * 100.0 < d[k].1 as real + 1.0
  {
  }
}
