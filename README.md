# Ink Insights: report shaping, chart adapters and storage

This project models the data-handling core of Ink Insights, a text-analysis web
application. It covers:

- what the dashboard and feature pages do with an analysis report: how they
  normalize it, derive the sentiment percentages, and turn keywords, themes,
  emotions and keyness into chart inputs;
- how the pages keep the report in browser storage;
- the small export helpers;
- the small amount of post-processing that backend/analysis.py performs
  around its language libraries.

Each part states and proves what the code promises.

The modules follow the program:

| module | file | models |
|---|---|---|
| `Text`, `Seqs` | text.dfy, seqs.dfy | string, number and array built-ins the code relies on (digits, `Math.round`, Python `round` and `int`, `split`/`join`, filter, stable sort, first maximum) |
| `Json` | json.dfy | JSON-like values with ordered object members, property reads and writes, truthiness, `\|\|`, `??`, `Number()`, `String()`, and `Object.keys` order |
| `Sentiment` | sentiment.dfy | `sentimentFromBackend`, `sentimentFromPolarity`, and the dominant tone |
| `Normalize` | normalize.dfy | the report normalizer of frontend/dashboard.js and the one in frontend/js/features.js |
| `Charts` | charts.dfy | the has-data rule, the keyword, sentiment, emotion and keyness charts, and the value panels |
| `Themes` | themes.dfy | theme bubbles, the cluster popup, the cluster tables with their toggle, and the themes description |
| `Grouping` | grouping.dfy | grouping theme points by numeric id in frontend/js/dashboard.js |
| `Emotions` | emotions.dfy | the emotions panel of frontend/features.js |
| `Exports` | exports.dfy | CSV content, download names, reading time |
| `Storage` | storage.dfy | the privacy wipe, deletion of the report keys, and three page loads over localStorage and sessionStorage |
| `Analysis` | backend.dfy | `extract_keywords`, `cluster_themes`, `analyze_sentiment`, `detect_emotions` |

A page script that stops on a `TypeError` is an explicit outcome (`Crashed`,
`ShapeError`, `None`), not an excluded input. Where `Number()` gives NaN, the
model's `JsNumber` gives `None`. The sentiment shares, the polarity and the
count that orders a cluster's points are the exception: there a value that
reads as NaN is taken as 0 (see "## Left out").

The following loops and in-place updates are kept as methods:

- the point-grouping loop;
- the theme-frequency loop;
- the cluster-word loop;
- the cluster card's show-more toggle;
- the storage operations, written as methods of `BrowserStorage`.

Each of these methods is proved against a specification function.

The two report normalizers' in-place field updates (frontend/dashboard.js
and frontend/js/features.js) are pure functions over `Value`, applied in the
source's order; the object has no other reference.

Two behaviours of the code shape what the pages show:

- The analysis module's `detect_emotions` returns `{dominant, distribution}`,
  with no `breakdown`. frontend/dashboard.js therefore wraps the whole
  object as the breakdown, and the emotion radar stays empty.
  `Charts.DominantDistributionNotCharted` proves this.
- frontend/dashboard.js starts a background request before it checks for a
  cached report. A successful response therefore overwrites `ink_report`
  even when no report was rendered. `Storage.DashboardFetchWins` proves this.

## Model

| member | source | states |
|---|---|---|
| Text.JsRound | frontend/features.js:1155 | `Math.round`: the result is within half of x, with ties rounded up |
| Text.RoundHalfEven | backend/analysis.py:58-60 | Python `round`: the result is within half of x, and a tie goes to the even neighbour |
| Text.Truncate | backend/analysis.py:67 | Python `int()` of a float truncates toward zero, for both signs |
| Text.UpperText | frontend/features.js:1049-1051 | `toUpperCase` of one character: never a small letter, and two characters exactly for the sharp s ("SS") |
| Text.Capitalize | frontend/features.js:1049-1051 | the first character is upper-cased and the rest is kept; one character longer exactly when it starts with a sharp s; unchanged when the first character has no capital form |
| Text.LowerUndoesUpper | frontend/features.js:1049-1051 | lower-casing gives back a small letter that has a Latin-1 capital |
| Text.SplitJoin | frontend/features.js:1307-1311 | splitting a join on a separator that no part contains gives back the parts |
| Text.LowerNeverMisreadDash | frontend/features.js:552-560 | no lower-cased word equals the page's placeholder, so a theme word is never mistaken for it |
| Seqs.SortDescStable | frontend/features.js:613 | the descending sort by count keeps the input order of elements with equal keys |
| Seqs.SortDescSorted | frontend/features.js:613 | the sort's output is in non-increasing key order |
| Seqs.FirstMaxIndex | frontend/features.js:1046 | `indexOf(Math.max(...))`: a position holding the maximum, with every earlier value smaller |
| Seqs.Distinct | frontend/dashboard.js:153 | `[...new Set(ids)]`: no duplicates, and exactly the input's elements |
| Seqs.DistinctFirstSeenOrder | frontend/dashboard.js:153 | distinct elements come in order of first appearance |
| Json.OwnKeyOrderShape | frontend/js/dashboard.js:245 | `Object.keys` lists array-index keys first, in ascending order, then the other keys in creation order |
| Json.OwnKeyOrder | frontend/js/dashboard.js:245 | the `Object.keys` order is a rearrangement of the members |
| Json.Get | frontend/js/dashboard.js:236-240 | a property read: the first member under the key, or undefined, and undefined on anything but an object |
| Json.Put | frontend/dashboard.js:148-150 | after an assignment the key reads as the value; an existing key keeps its place and a new key is appended |
| Json.JsNumber | frontend/dashboard.js:43-51 | `Number(v)`: a number is itself, undefined and objects are NaN, null, "" and [] are 0 |
| Json.JsString | frontend/features.js:304 | `String(v)`: the literals are spelled as JavaScript spells them, integers in decimal |
| Json.PutCommute | frontend/dashboard.js:148-150 | assignments to different properties commute |
| Json.PutPut | frontend/dashboard.js:148-150 | a second assignment to a property replaces the first |
| Json.SameTextNumberString | frontend/features.js:304 | `String(p.cluster) === String(c.id)` identifies the number n with the string of its digits |
| Sentiment.Normalized | frontend/dashboard.js:59-65 | three non-negative shares become percentages in [0, 100] that sum to 100, or all zero when the shares sum to 0 |
| Sentiment.NormalizedProportional | frontend/dashboard.js:61-63 | each percentage is its share's part of the sum |
| Sentiment.NormalizedHundred | frontend/dashboard.js:59-65 | shares that already sum to 100 are returned unchanged |
| Sentiment.Subjectivity | frontend/dashboard.js:51 | the subjectivity read is clamped into [0, 1] |
| Sentiment.RawShare | frontend/dashboard.js:43-45 | `Math.max(0, Number(s[k] ?? 0))` is never negative |
| Sentiment.ObjectShare | frontend/js/dashboard.js:66-68 | `Math.max(0, s[k] \|\| 0)` is never negative |
| Sentiment.BackendShares | frontend/dashboard.js:43-55 | the raw clamped shares are used unless all are zero; then the polarity fallback is used, with neutral (1 - subjectivity) / 2 |
| Sentiment.SentimentFromBackend | frontend/dashboard.js:42-66 | percentages in range; they sum to 100 when the damped total is positive, and are all zero otherwise |
| Sentiment.BackendEmptyIsNeutral | frontend/dashboard.js:49-59 | a sentiment that is not an object reads as 0 / 100 / 0 |
| Sentiment.BackendNoFieldsIsNeutral | frontend/features.js:33-52 | an object without any of the five fields reads as 0 / 100 / 0 |
| Sentiment.BackendAllZeroIff | frontend/dashboard.js:49-65 | all slices vanish exactly when there are no shares, polarity is 0 and subjectivity is 1 |
| Sentiment.BackendIsNormalized | frontend/dashboard.js:57-65 | the result is the normalization of the shares, with the neutral share damped by 0.6 |
| Sentiment.BackendRawSharesPositive | frontend/dashboard.js:48-49 | any non-zero raw share is used as sent, and the total is then positive |
| Sentiment.SentimentFromPolarity | frontend/js/dashboard.js:63-88 | percentages in range; an object-like value sums to 100 when its clamped sum is positive, and a scalar always sums to 100 |
| Sentiment.ScalarPercentages | frontend/js/dashboard.js:78-87 | a scalar polarity always gives in-range percentages that sum to 100 |
| Sentiment.PolarityLinear | frontend/js/dashboard.js:78-87 | a polarity p in [-1, 1] gives 100p / 100(1 - \|p\|) / 0 for p ≥ 0, and symmetrically for p < 0 |
| Sentiment.PolaritySaturates | frontend/js/dashboard.js:79-81 | a polarity beyond [-1, 1] gives a single 100 % slice |
| Sentiment.AbsentSentimentIsNeutral | frontend/js/dashboard.js:155 | a report without sentiment charts as 0 / 100 / 0 |
| Sentiment.DominantSentiment | frontend/features.js:831-840 | Positive or Negative exactly when that slice strictly exceeds both others, otherwise Neutral; the value is that tone's slice |
| Normalize.SynthCluster | frontend/dashboard.js:154-157 | a synthesized cluster carries the id and the label "Cluster i+1" |
| Normalize.SynthesizedClusters | frontend/dashboard.js:152-157 | one cluster per distinct point id, and at least one when there are points |
| Normalize.SynthesizedClustersPartition | frontend/dashboard.js:153-157 | cluster i carries the i-th distinct id in first-seen order, and every point's id belongs to exactly one cluster |
| Normalize.CoerceArray | frontend/dashboard.js:149-150 | the property becomes an array (the old one, or empty), and no other property changes |
| Normalize.ShapeThemeMembers | frontend/dashboard.js:149-159 | points and clusters are arrays, and clusters are synthesized exactly when clusters are empty and points are not; a null point is an error |
| Normalize.ShapedMembersInShape | frontend/dashboard.js:148-159 | after shaping, points and clusters are arrays, and there are clusters whenever there are points |
| Normalize.NormalizeThemes | frontend/dashboard.js:148-159 | errors exactly for primitive truthy themes or a null point; otherwise the themes are in shape, and a non-object is replaced by empty themes |
| Normalize.NormalizeEmotions | frontend/dashboard.js:163-165 | the result always has a truthy breakdown; emotions with a breakdown are kept, otherwise they are wrapped as `{breakdown: em \|\| {}}` |
| Normalize.Reshaped | frontend/dashboard.js:148-165 | replaces themes and emotions and leaves every other property alone |
| Normalize.NormalizeReport | frontend/dashboard.js:142-172 | a shaped report has themes in shape and a truthy emotions breakdown, other members unchanged; errors exactly for non-object themes or reports where a property cannot be set |
| Normalize.NormalizeIdempotent | frontend/dashboard.js:148-172 | normalizing the stored report again yields the same view and stored report |
| Normalize.NormalizeThemesStable | frontend/dashboard.js:148-159 | the themes normalization is a fixed point on its own stored output |
| Normalize.ReshapedStable | frontend/dashboard.js:148-165 | reshaping again with the same themes changes nothing |
| Normalize.PolarityShares | frontend/js/features.js:94-100 | the rebuilt sentiment holds pos = max(0, 100p), neu = 100 - \|100p\|, neg = \|100p\| for p < 0, and the mood |
| Normalize.PolaritySharesAgree | frontend/js/features.js:94-100 | for a polarity in [-1, 1], the rebuilt shares are in range, sum to 100, and equal what `sentimentFromPolarity` gives |
| Normalize.WrapKeywordsIn | frontend/js/features.js:90-92 | a keyword array becomes `{list: keywords}`, anything else is kept, and no other property changes |
| Normalize.RebuildSentimentIn | frontend/js/features.js:93-100 | the sentiment is rebuilt exactly when the test holds, and no other property changes |
| Normalize.WrapEmotionsIn | frontend/js/features.js:102-104 | the emotions become their wrapped form, and no other property changes |
| Normalize.NormalizeFeaturesWith | frontend/js/features.js:88-105 | a non-object is untouched; keyword arrays are wrapped as `{list}`, the sentiment is rebuilt when the test holds, truthy emotions without a breakdown are wrapped, and nothing else changes |
| Normalize.RebuildTestAsWritten | frontend/js/features.js:93 | the page's test: a truthy sentiment whose `pos` is falsy, a share of 0 included |
| Normalize.RebuildTest | frontend/js/features.js:93 | the corrected test: a truthy sentiment with no `pos` at all |
| Normalize.NormalizeForFeaturesAsWritten | frontend/js/features.js:88-105 | the normalization as the page runs it, with the page's test |
| Normalize.NormalizeForFeatures | frontend/js/features.js:88-105 | the normalization with the corrected test |
| Normalize.WrappedEmotions | frontend/js/features.js:102-104 | truthy emotions end with a truthy breakdown; falsy emotions, or emotions with a breakdown, are kept |
| Normalize.RebuiltSentimentAgrees | frontend/js/features.js:93-100 | a rebuilt sentiment from a polarity in [-1, 1] is exactly what `sentimentFromPolarity` charts |
| Normalize.SharesKept | frontend/js/features.js:93 | under the corrected test, a sentiment with a numeric `pos` is kept whatever its value |
| Normalize.RebuildAsWrittenFires | frontend/js/features.js:93 | as written, the test fires again on any sentiment rebuilt from a polarity ≤ 0, and the rebuilt value is the neutral one |
| Normalize.ZeroPositiveShareDiscarded | frontend/js/features.js:93 | as written, {pos: 0, neu: 40, neg: 60} is rebuilt as 100 % neutral; the corrected version keeps it |
| Normalize.FeaturesNormalizeIdempotent | frontend/js/features.js:88-105 | the corrected normalization applied twice equals applying it once |
| Normalize.AsWrittenNotIdempotent | frontend/js/features.js:93-100 | as written, a second pass turns a rebuilt polarity of -0.5 (neg 50) into neg 0 |
| Normalize.RebuiltNonPositiveRebuiltAgain | frontend/js/features.js:93-100 | as written, any sentiment rebuilt from a polarity ≤ 0 becomes 0 / 100 / 0 on the next pass |
| Charts.SomePositive | frontend/dashboard.js:36-38 | `hasNonZero` over items holds exactly when some item is a number above zero |
| Charts.TokenCounts | frontend/dashboard.js:230-232 | labels and values are the tokens and counts of the first n entries; it fails exactly when one of those entries is null |
| Charts.KeywordChart | frontend/dashboard.js:228-239 | the chart crashes exactly on a non-array or a null entry among the first ten; it is drawn exactly when a label exists and some count is positive, and its 1..10 bars are then the tokens and counts of the first ten entries |
| Charts.SentimentDrawnIff | frontend/dashboard.js:241-251 | in-range percentages are drawn exactly when they do not all vanish |
| Charts.BackendSentimentDrawnIff | frontend/features.js:741-744 | the backend-derived doughnut is drawn exactly when the damped total is positive |
| Charts.PolaritySentimentDrawnIff | frontend/js/dashboard.js:205-210 | the polarity doughnut is drawn for every scalar, and for an object exactly when its clamped sum is positive |
| Charts.EmotionSeries | frontend/dashboard.js:256-258 | one label per own key, in key order, with the value `Number(v) \|\| 0` |
| Charts.EmotionChartOf | frontend/dashboard.js:254-264 | the radar never crashes, and is drawn exactly when some key's value reads as a positive number |
| Charts.NoPositiveValueEmpty | frontend/dashboard.js:259 | a breakdown without a positive value is not charted |
| Charts.DominantDistributionNotCharted | frontend/dashboard.js:163-165 | a report carrying the backend's `{dominant, distribution}` emotions never draws the radar |
| Charts.DominantDistributionWrapped | frontend/dashboard.js:163-165 | wrapping `{dominant, distribution}` as the breakdown leaves no positive numeric value, so the radar is empty |
| Charts.KeynessValue | frontend/features.js:1248 | `score`, else `keyness`, else `count`; the result is truthy or 0 |
| Charts.KeynessChart | frontend/features.js:1234-1253 | empty exactly for an empty list; crashes exactly on a null entry among the first ten; otherwise the first ten tokens are drawn with their values |
| Charts.KeywordPanelOf | frontend/js/features.js:118-142 | the panel is shown exactly when the keyword list and the bigrams are arrays or missing and no null entry is among the first forty keywords or the first ten bigrams; its frequency and bigram bars are the tokens and counts of the first ten of each, its list is the first forty entries, and the badges are truthy or their defaults |
| Charts.KeywordBarsAgree | frontend/js/features.js:126-127 | where the dashboard draws its keyword chart and the panel is shown, the panel's frequency bars are the dashboard's bars |
| Charts.PanelListIsKeywordList | frontend/js/features.js:119-120 | the panel's `kw.list \|\| []` reads the same keyword list as the dashboard's `resp?.keywords?.list \|\| []` |
| Charts.NullishInLongerTake | frontend/js/features.js:126-136 | a null entry among the first m is also among the first n for m ≤ n, so the panel's ten-entry read never fails where the forty-entry list does not |
| Charts.WrappedKeywordsListed | frontend/js/features.js:90-92 | a bare keyword array, once wrapped, is what the panel lists (its first forty entries) |
| Charts.SentimentBadges | frontend/js/features.js:181-187 | three badges, each truthy or 0 |
| Charts.RebuiltBadgesSum | frontend/js/features.js:93-100 | a sentiment rebuilt from a polarity in [-1, 1] shows badges that sum to 100 |
| Charts.RadarValues | frontend/js/features.js:196-198 | five values, one per fixed label, each the breakdown's value or 0 |
| Charts.WrappedEmotionsOnRadar | frontend/js/features.js:102-104 | bare emotions, once wrapped, put each emotion's own value on the radar |
| Charts.LineSeries | frontend/js/features.js:189-191 | paired x and y lists, one per entry; fails exactly for a truthy non-array or a null entry |
| Themes.RadiusAsWritten | frontend/dashboard.js:288 | NaN exactly when the count does not read as a number, and otherwise in [3, 12] |
| Themes.Radius | frontend/dashboard.js:288 | the corrected radius is always in [3, 12], equals the code's where that is a number, and is 3 for a missing count |
| Themes.MissingCountRadius | frontend/dashboard.js:288 | a point without a count gets NaN as written and 3 once corrected |
| Themes.DashboardThemesWith | frontend/dashboard.js:269-300 | drawn exactly for a non-empty points array; one dataset per cluster, holding the points whose cluster is the id; the fallback is used exactly when there are no clusters, and its bubble i is point i's x, y and label |
| Themes.DashboardThemesAsWritten | frontend/dashboard.js:269-300 | the dashboard themes chart with the radius as written |
| Themes.DashboardThemes | frontend/dashboard.js:269-300 | the dashboard themes chart with the corrected radius |
| Themes.MissingCountNaNRadius | frontend/dashboard.js:284-288 | as written, a drawn point without a count has a NaN radius |
| Themes.DashboardRadiiBounded | frontend/dashboard.js:284-288 | with the corrected radius, every bubble's radius is a number in [3, 12] |
| Themes.NormalizedNeverUnclustered | frontend/dashboard.js:148-159 | after normalization the "Semantic Points" fallback is never drawn |
| Themes.ShapedNeverUnclustered | frontend/dashboard.js:281-297 | themes in shape never reach the "Semantic Points" fallback |
| Themes.PartitionByIds | frontend/dashboard.js:281-284 | datasets filtered by distinct ids covering all points hold each point in exactly one dataset |
| Themes.FeaturesRadius | frontend/features.js:308 | a missing count reads as 1, so the radius is 3; a numeric count gives a radius in [3, 12] |
| Themes.FeaturesThemes | frontend/features.js:279-325 | empty exactly when clusters or points are empty; no fallback; crashes exactly on unreadable entries; otherwise one dataset per cluster |
| Themes.FeaturesDatasetComplete | frontend/features.js:302-310 | every point whose cluster has the same text as the id is drawn |
| Themes.FeaturesDatasetSound | frontend/features.js:302-310 | every drawn bubble comes from such a point |
| Themes.FeaturesDatasetRadii | frontend/features.js:308 | every radius drawn is in [3, 12] |
| Themes.RelatedShape | frontend/features.js:611-613 | a cluster's related points are exactly its points, in non-increasing count, with equal counts in input order |
| Themes.Related | frontend/features.js:611-613 | the related points are a rearrangement of the cluster's points |
| Themes.RelatedLists | frontend/features.js:609-613 | one related list per cluster, in cluster order |
| Themes.PopupRadius | frontend/features.js:461 | the popup radius is in [10, 30], and 10 for a missing count |
| Themes.ClusterPopup | frontend/features.js:446-465 | fails exactly for a missing cluster or an unreadable point when there are points; otherwise the first ten related points |
| Themes.PopupShowsLargest | frontend/features.js:454-457 | no point of the cluster that is left out has a larger count than one shown, and every shown point is in the cluster |
| Themes.RowOf | frontend/features.js:638-643 | the caption is truthy, and the weight is truthy or 0 |
| Themes.TablesOf | frontend/features.js:609-615 | one table per cluster with related points, in cluster order, each with its own position |
| Themes.ClusterTables | frontend/features.js:608-676 | fails exactly on an unreadable cluster or point; otherwise the tables of the related lists |
| Themes.ClusterCard.constructor | frontend/features.js:633-651 | a new card shows the first ten rows, collapsed |
| Themes.ClusterCard.Shown | frontend/features.js:646-650 | the shown rows are a prefix of all rows: all when expanded, at most ten otherwise |
| Themes.ClusterCard.Click | frontend/features.js:664-669 | the toggle flips the state, between all rows and the first ten |
| Themes.LabelKeyCases | frontend/features.js:552-553 | reading the label fails exactly for a missing point or a non-string label; a word is a lower-cased label of more than two characters |
| Themes.LabelKey | frontend/features.js:552-553 | `p.label?.toLowerCase()` with the length test: skipped, a word, or a TypeError |
| Themes.TallyPoint | frontend/features.js:551-554 | one step of the frequency loop: a TypeError stops it, a skipped label changes nothing, and a word's entry grows by the point's weight |
| Themes.ThemeFrequency | frontend/features.js:550-555 | the frequency specification: the loop's step applied to each point in turn, stopping at the first TypeError |
| Themes.AccumulateThemeFrequency | frontend/features.js:550-555 | the loop computes the frequency specification |
| Themes.VisitPoint | frontend/features.js:551-554 | one loop iteration computes the specification's step for that point |
| Themes.FrequencyStep | frontend/features.js:550-555 | the frequency over one more point is the previous frequency with that point's step applied |
| Themes.ThemeFrequencyTotals | frontend/features.js:550-555 | the loop stops exactly at an unreadable point; otherwise each word appears once and holds the total weight of its points |
| Themes.FrequencyErrorSticks | frontend/features.js:551-555 | once a point stops the loop, the remaining points do not matter |
| Themes.ThemesDescription | frontend/features.js:544-563 | no clusters gives the empty description; it fails exactly when the frequency loop fails; otherwise it gives the cluster count, the top theme as the first ranked word (the placeholder when there is none), the placeholder as dominant themes when at most one word is ranked, and otherwise the second to fourth ranked words joined by ", " |
| Themes.Ranked | frontend/features.js:558-559 | the ranking is a rearrangement of the frequency entries |
| Themes.RankedFirstHeaviest | frontend/features.js:558-560 | the ranking is empty only for no entries, and its first entry is one of the heaviest |
| Themes.HeaviestRankedFirst | frontend/features.js:550-560 | the first ranked word holds the largest total weight over the points, and the ranking is empty exactly when no point has a theme word |
| Themes.TopThemeHeaviest | frontend/features.js:550-562 | the top theme carries the largest total weight, and it is the placeholder exactly when no point has a theme word |
| Themes.ThemeWordsLong | frontend/features.js:552-553 | every word stored in the frequency object has more than two characters |
| Themes.DominantListed | frontend/features.js:563 | with two ranked words or more, the joined dominant themes are not empty, so the placeholder is not shown |
| Themes.RankedByWeight | frontend/features.js:550-560 | the ranking is by total weight over the points: no word weighs more than one ranked before it |
| Themes.DominantThemesNoHeavier | frontend/features.js:558-563 | each dominant theme weighs no more than the top theme, and no word left out of the description weighs more than one shown |
| Grouping.GroupRadius | frontend/js/dashboard.js:240 | a radius that is a number lies in [6, 18]; a falsy count gives 6, and a numeric count always gives a number |
| Grouping.GroupPointDefaults | frontend/js/dashboard.js:238-241 | missing coordinates read as 0, a missing label as "(unknown)", and the radius is bounded |
| Grouping.GroupPoints | frontend/js/dashboard.js:235-243 | the loop throws exactly when some point is null; otherwise every created id holds its points, in input order, and ids are created in first-seen order |
| Grouping.GroupThemes | frontend/js/dashboard.js:232-257 | the block computes the grouped-themes specification |
| Grouping.GroupedThemes | frontend/js/dashboard.js:232-257 | the grouping specification: a truthy non-array points value or a null point throws; otherwise the chart is empty for no ids and draws one group per id |
| Grouping.GroupsOf | frontend/js/dashboard.js:235-253 | one dataset per key, in `Object.keys` order of the distinct ids, holding the points pushed under it |
| Grouping.PushStep | frontend/js/dashboard.js:236-237 | one iteration keeps the loop invariant: ids in first-seen order, each holding its points in input order |
| Grouping.PushOrder | frontend/js/dashboard.js:236 | an id is added to the created ids exactly when it is first seen |
| Grouping.PushMembers | frontend/js/dashboard.js:237 | after a push, each id holds exactly its points so far |
| Grouping.KeyOrder | frontend/js/dashboard.js:245 | `Object.keys` lists every created id once, as a rearrangement |
| Grouping.DatasetKeys | frontend/js/dashboard.js:245 | the listed keys are the `Object.keys` order of the distinct ids, and each has a group |
| Grouping.DatasetsComplete | frontend/js/dashboard.js:245-253 | the datasets built from the loop's map are the grouping specification |
| Grouping.ThemesFromLoop | frontend/js/dashboard.js:232-257 | the chart is empty when no id is created, and otherwise draws the grouped datasets |
| Grouping.DrawnIffPoints | frontend/js/dashboard.js:245-246 | the chart is drawn exactly when there is a point |
| Grouping.GroupIdsDistinct | frontend/js/dashboard.js:251-253 | no two datasets share an id |
| Grouping.EveryPointGrouped | frontend/js/dashboard.js:236-237 | every point is drawn in the dataset of its id |
| Grouping.GroupHoldsItsPoints | frontend/js/dashboard.js:236-237 | every drawn point comes from a point with the dataset's id |
| Grouping.KeyOrderShape | frontend/js/dashboard.js:245 | datasets come in `Object.keys` order: index ids ascending, then the others in creation order |
| Emotions.PanelSeries | frontend/features.js:1009-1014 | one value per label |
| Emotions.DominantShown | frontend/features.js:1018-1051 | what the dominant-emotion element shows: a truthy given dominant, else the capitalized label at the first maximum when the series has data, else the placeholder |
| Emotions.SummaryOf | frontend/features.js:1146-1156 | the summary figures: the first label at the maximum, its share of the total, the diversity score and the choice of text |
| Emotions.HasDataIff | frontend/features.js:1015 | the series has data exactly when it has a label and a positive value |
| Emotions.RadarDrawnIff | frontend/features.js:1021 | the radar is drawn exactly with three or more labels and a positive value |
| Emotions.DominantCases | frontend/features.js:1018-1051 | a truthy given dominant is shown as is; otherwise one is inferred exactly when the series has data |
| Emotions.InferredIsFirstMax | frontend/features.js:1045-1051 | the inferred dominant is the first label at the maximum, capitalized |
| Emotions.RichIffFourActive | frontend/features.js:1154-1207 | "rich variety" is chosen exactly when the total is positive and at least four emotions are active |
| Emotions.ScoreAboveSixtyFive | frontend/features.js:1155 | a diversity score above 65 means at least four of six |
| Emotions.PercentInRange | frontend/features.js:1152-1153 | with no negative value, the dominant share lies in [0, 100] |
| Emotions.PercentUnboundedWithNegatives | frontend/features.js:1152-1153 | with {a: 5, b: -4}, the dominant share is 500 |
| Exports.CellText | frontend/features.js:1310 | a missing value is written as the empty text, and a string as itself |
| Exports.RowTexts | frontend/features.js:1310 | the texts of a row, one per value; fails exactly when some value has no modelled spelling |
| Exports.CsvLines | frontend/features.js:1307-1311 | the content is one header line plus one line per row, provided no text holds a line break |
| Exports.CsvFieldsQuoted | frontend/features.js:1310 | splitting a line at commas gives back the quoted fields, provided no field holds a comma |
| Exports.CsvContent | frontend/features.js:1307-1311 | the header line and one quoted, comma-joined line per row, joined by line breaks |
| Exports.StripExtension | frontend/dashboard.js:508 | the result is a prefix of the name, and a name without "." is unchanged |
| Exports.StripsOneExtension | frontend/dashboard.js:508 | "base.ext" becomes "base" |
| Exports.StripRemovesExtension | frontend/dashboard.js:508 | only a "." followed by an extension (no "." or "/") is ever removed |
| Exports.ExportStemCases | frontend/js/dashboard.js:395 | the stem is never empty; it is "report" for a missing or empty name; it fails exactly for a name that is neither a string nor missing |
| Exports.ExportStem | frontend/js/dashboard.js:395 | `meta.name?.replace(/\.[^/.]+$/, "") \|\| "report"`, failing for a name that is neither missing nor a string |
| Exports.ExportName | frontend/js/dashboard.js:426 | the stem followed by the suffix |
| Exports.ExtensionReplaced | frontend/dashboard.js:493 | "notes.txt" is saved as "notes" plus the suffix |
| Exports.ReadingTime | frontend/dashboard.js:86 | at least one minute, and exactly one for a falsy word count |
| Exports.ReadingTimeMinutes | frontend/js/dashboard.js:101 | m minutes means (m - 1) · 200 < words ≤ m · 200 |
| Storage.ItemOr | frontend/dashboard.js:77 | the stored text when it is present and non-empty, else the fallback |
| Storage.Wiped | frontend/js/dashboard.js:12-28 | the wipe specification: on a visit with neither the active-session mark nor the preview flag, the four report keys leave localStorage; the session is marked active and loses the preview flag |
| Storage.WipeEffect | frontend/js/dashboard.js:12-28 | the report keys are removed exactly on a new visit, no other local key changes, the session is marked active, and the preview flag is dropped |
| Storage.WipeIdempotent | frontend/js/dashboard.js:12-28 | running the wipe block again removes nothing |
| Storage.UnreadableCacheIsAbsent | frontend/dashboard.js:108-117 | a cache that does not parse is treated like an absent one |
| Storage.DashboardLoadSpec | frontend/dashboard.js:70-172 | the load specification: a meta that does not parse, or parses to `null`, stops the page, as does a missing text; otherwise a shaped cached report is rendered and written back normalized, and a successful request then overwrites `ink_report`; no key other than `ink_report` ever changes |
| Storage.MetaNullStops | frontend/dashboard.js:78-84 | a meta stored as `null` makes `meta.name` throw: both dashboards stop with nothing written, before the request (frontend/js/dashboard.js:93-99 alike) |
| Storage.DashboardNoText | frontend/dashboard.js:77-95 | without text nothing is written, and the outcome is an unreadable meta, a null meta, or no text |
| Storage.DashboardFetchWins | frontend/dashboard.js:119-139 | with text and a meta that parses to something other than `null`, a successful request leaves `ink_report` holding the response, and no other key changes |
| Storage.DashboardFetchFails | frontend/dashboard.js:142-172 | with text and a readable, non-null meta, a failed request leaves the normalized cached report, or nothing written when there was none |
| Storage.JsDashboardWritesOnSuccess | frontend/js/dashboard.js:92-147 | `ink_report` is written exactly when the meta parses to something other than `null`, there is text and the request succeeds; it then holds the response, and otherwise nothing is written |
| Storage.JsDashboardLoadSpec | frontend/js/dashboard.js:90-147 | the load specification: an unreadable or `null` meta or a missing text stops the page, a failed request stops it with nothing written, and a response is rendered and cached; no key other than `ink_report` ever changes |
| Storage.FeaturesLoadSpec | frontend/js/features.js:62-105 | the features load: `ink_report`, else `ink_results`, else "null" is parsed; a falsy report stops the page, and a truthy one is normalized with the given sentiment-rebuild test |
| Storage.FeaturesLoadSources | frontend/js/features.js:62-66 | for any rebuild test: with neither key set the page stops; a stored report is preferred to stored results, and results are read when there is no report |
| Storage.FeaturesLoadDiscardsZeroShare | frontend/js/features.js:62-100 | on the page as written, a stored report with `{pos: 0, neu: 40, neg: 60}` loads with its sentiment rebuilt as 100 % neutral |
| Storage.BrowserStorage.constructor | frontend/js/dashboard.js:12-28 | the two storages start as given |
| Storage.BrowserStorage.RemoveReportKeys | frontend/dashboard.js:406-408 | exactly the four report keys are removed, and the session is unchanged |
| Storage.BrowserStorage.PrivacyWipe | frontend/js/dashboard.js:12-28 | the new storage is the wipe specification's |
| Storage.BrowserStorage.DashboardLoad | frontend/dashboard.js:70-172 | the outcome and the new local storage are those of the load specification, including the stop at a null meta, and the session is unchanged |
| Storage.BrowserStorage.JsDashboardLoad | frontend/js/dashboard.js:90-147 | the outcome and the new local storage are those of the load specification, including the stop at a null meta, and the session is unchanged |
| Analysis.ExtractKeywords | backend/analysis.py:16-27 | `unique` is the vocabulary size; the list is a prefix of the ranking: for top_n >= 0, min(top_n, size) entries; a negative top_n drops entries from the end, as a Python slice does |
| Analysis.Ranked | backend/analysis.py:22 | the ranking is a rearrangement of the vocabulary's terms |
| Analysis.DefaultKeywordsAtMostTwenty | backend/analysis.py:16 | with the default, at most twenty keywords, and all of them when there are at most twenty |
| Analysis.KeywordsSorted | backend/analysis.py:22 | the keywords are in non-increasing count order |
| Analysis.KeywordsStable | backend/analysis.py:22 | keywords of equal count keep their vocabulary order |
| Analysis.KeywordsAreTheMostFrequent | backend/analysis.py:22 | no term left out has a larger count than a listed one |
| Analysis.KeywordsTop | backend/analysis.py:25 | "—" for an empty list; otherwise the first vocabulary term holding the largest count |
| Analysis.ClusterCountRange | backend/analysis.py:37 | one to five clusters, fifty tokens per cluster |
| Analysis.ThemesOf | backend/analysis.py:30-51 | the themes specification: the insufficient-data note below ten tokens, otherwise the cluster count, the first words of each cluster and the scatter points |
| Analysis.ClusterThemes | backend/analysis.py:30-51 | the function with its loop computes the themes specification |
| Analysis.InsufficientIff | backend/analysis.py:33-34 | fewer than ten tokens give exactly `{clusters: 0, top_theme: "Insufficient data"}`, and only they give a message |
| Analysis.ClusteredShape | backend/analysis.py:37-51 | otherwise there are 1..5 clusters, no more first words than clusters, and at most 200 points |
| Analysis.ClusterWordLists | backend/analysis.py:41-44 | one list per cluster index, each of at most five words |
| Analysis.Zip | backend/analysis.py:43 | `zip` stops at the shorter input and pairs equal positions |
| Analysis.ClusterWordsInTokenOrder | backend/analysis.py:43 | a cluster's words are the tokens at the first five positions labelled with its index, in order |
| Analysis.Positions | backend/analysis.py:43 | exactly the positions labelled i, increasing |
| Analysis.TopThemeFromTokens | backend/analysis.py:49 | every first word of the top theme is one of the tokens |
| Analysis.ScatterPointsFollowTokens | backend/analysis.py:50 | the k-th point is the k-th token at the k-th coordinates, for at most 200 |
| Analysis.AnalyzeSentiment | backend/analysis.py:54-61 | each VADER share times 100, rounded half to even |
| Analysis.SharesArePercentages | backend/analysis.py:57-61 | shares in [0, 1] give whole percentages in [0, 100] |
| Analysis.SmallShareSentAsZero | backend/analysis.py:58 | a positive share of at most 0.005 is sent as 0 |
| Analysis.DetectEmotions | backend/analysis.py:64-68 | the first emotion at the largest score (or "—"), and each score as a truncated percentage |
| Analysis.DominantIsFirstMax | backend/analysis.py:66 | "—" for no scores; otherwise the first emotion holding the largest score |
| Analysis.DistributionKeys | backend/analysis.py:67 | the distribution names the same emotions in the same order |
| Analysis.DistributionPercentages | backend/analysis.py:67 | a score in [0, 1] becomes a whole percentage in [0, 100], at most the exact one and less than one below it |

## Left out

- Rendering is not modelled: Chart.js, the DOM, `innerHTML`, colours, tooltips, prompts, alerts, timers and navigation. Each adapter yields the data a chart would be drawn with, and models its own block on its own. On a page, a `TypeError` in an earlier block stops the later ones (frontend/dashboard.js:211 reads the first three keywords before any chart block runs); that composition is not modelled, so a chart said to be drawn may not be reached.
- Network requests are not performed. In each load, the analysis request is an input (`Fetch`).
- `JSON.parse` and `JSON.stringify` are parameters; `parse` returns None where it would throw.
- Concurrency is not modelled. The background request of frontend/dashboard.js is taken to complete after the rest of the load. Its race with "delete" is not modelled.
- Floating point is modelled with exact reals.
- Sentiment.SentimentFromBackend: does not model `toFixed(1)`. The percentages are exact, so they sum to exactly 100 rather than 100 up to rounding.
- Sentiment.SentimentFromPolarity: does not model `toFixed(1)`, for the same reason.
- Analysis.SharesArePercentages: Python floats are modelled as reals, so a product such as `0.285 * 100` is exact here; in floating point it may round differently.
- Json.JsNumber: reads the empty string as 0 and a plain decimal digit string, with an optional leading "-", as its integer. Every other non-empty string reads as NaN here, though JavaScript also parses fractions, exponents, hex, "Infinity" and surrounding whitespace. An array reads as 0 only when it is empty; any other array reads as NaN here, though `Number([5])` is 5 in JavaScript.
- Sentiment.RawShare: reads a share that `Number()` turns into NaN as 0. On the page `Math.max(0, NaN)` is NaN, and that NaN flows on.
- Sentiment.ObjectShare: reads `s[k] || 0` that is not a number (such as "abc") as 0. On the page `Math.max(0, "abc")` is NaN.
- Normalize.PolarityOrZero: reads a polarity that is not a number as 0. On the page a polarity of "abc" makes the rebuilt pos and neu NaN.
- Sentiment.BackendShares: inherits the NaN-as-0 reading of Sentiment.RawShare. For `{positive: "abc", neutral: 0.3}` the page skips the fallback (`!neu` is false) and keeps a NaN positive share; the model takes the fallback.
- Sentiment.SentimentFromBackend: inherits the NaN-as-0 reading. For `{positive: "abc", neutral: 0.3}` the page returns [NaN, 18, 0] (`NaN || 1` is 1); the model returns 0/100/0.
- Sentiment.SentimentFromPolarity: inherits the NaN-as-0 reading of Sentiment.ObjectShare; the page charts NaN for such a component.
- Normalize.PolarityShares: is given the polarity through Normalize.PolarityOrZero, so a non-numeric polarity rebuilds 0/100/0 where the page stores NaN for pos and neu.
- Themes.CountKey: reads a count that `Number()` turns into NaN (such as "abc" or `{}`) as 0. On the page the comparator `(b.count || 0) - (a.count || 0)` (frontend/features.js:456 and 613) then returns NaN, which `sort` takes as "equal"; with more than two points the resulting order is implementation-defined. For points `[{cluster: 0, count: "abc"}, {cluster: 0, count: 2}]` the page keeps that order and the model puts the second first.
- Themes.RelatedShape: the non-increasing count order holds for the NaN-as-0 reading of Themes.CountKey only.
- Themes.ClusterPopup: the first ten related points follow the NaN-as-0 order of Themes.CountKey, which the page's sort need not produce.
- Themes.PopupShowsLargest: no point left out has a larger count under the NaN-as-0 reading of Themes.CountKey; with a NaN count the page's selection may differ.
- Themes.ClusterTables: the rows of each table follow the NaN-as-0 order of Themes.CountKey.
- `String()` of a non-integral number has no modelled spelling: `Unspelled`. Such a value in a CSV row gives `RowTexts` None. Numbers in CSV cells are not spelled. For the same reason `Json.SameText` never matches an `Unspelled` number with a string: on the page `String(0.5) === "0.5"` holds, so a point with cluster "0.5" and a cluster with id 0.5 match in frontend/features.js:304, but not in `Themes.FeaturesThemes` or `Themes.Related`.
- Upper- and lower-casing cover ASCII and Latin-1 letters only; upper-casing also maps the three Latin-1 small letters whose capitals lie outside Latin-1 (µ, ÿ and ß to "SS").
- Themes.LabelKey: the `w.length <= 2` test counts Dafny characters, while JavaScript counts UTF-16 code units. A label of two characters outside the Basic Multilingual Plane (two emoji, say) has length 4 in JavaScript and is counted there, but is skipped here.
- Themes.ThemeFrequency: tallies into an object with no inherited properties, and adds counts as numbers. The page tallies into a plain `{}`. There the word "constructor" starts from the inherited `Object` function, so its entry becomes the text `"function Object() { [native code] }3"`. A label "__proto__" is never stored. A count that is not a number, such as the string "5", is concatenated rather than added: `0 + "5"` is "05", then "053". The model covers only points whose labels are neither of those two words and whose counts are numbers, missing or booleans.
- Themes.TallyPoint: the same limit. A word's entry grows by the count read as a number, where the page concatenates a string count and starts "constructor" from the `Object` function.
- Themes.AccumulateThemeFrequency: computes `Themes.ThemeFrequency`, with the same limit on "constructor", "__proto__" and counts that are not numbers.
- Themes.ThemeFrequencyTotals: the totals it proves hold for the prototype-free object. On the page, an entry for "constructor" or one reached by a string count holds text, not a total.
- Themes.HeaviestRankedFirst: holds for the prototype-free object. Once an entry is text, the page's comparator `b[1] - a[1]` returns NaN, and the order `sort` then produces is implementation-defined. With points constructor/3, apple/1 and pear/5, the page can show "constructor" as the top theme where the model gives "pear".
- Themes.TopThemeHeaviest: the same limit as `Themes.HeaviestRankedFirst`.
- Themes.ThemesDescription: the same limit as `Themes.HeaviestRankedFirst`, for both the top theme and the dominant themes.
- Themes.RankedByWeight: the same limit as `Themes.HeaviestRankedFirst`.
- Themes.DominantThemesNoHeavier: the same limit as `Themes.HeaviestRankedFirst`.
- Themes.InCluster: compares by structural equality. `p.cluster === c.id` compares objects and arrays by reference, so two equal-looking object ids match here but not on the page. Numbers, strings, booleans, null and undefined compare the same way in both.
- Normalize.NormalizeReport and Normalize.NormalizeFeaturesWith: model the blocks that reassign fields of the parsed report in place (frontend/dashboard.js:148-165, frontend/js/features.js:88-105) as functions from the old object to the new one. Update in place and aliasing are not captured; the report is a freshly parsed local that nothing else refers to, and the reassignments are applied in source order.
- Seqs.Distinct: compares by structural equality. `new Set(ids)` keeps two equal-looking object ids apart, because it compares them by reference.
- frontend/features.js writes its placeholder as the three characters U+201A U+00C4 U+00EE, a misread "—"; the model keeps those characters (`Text.MisreadDash`).
- The features page's word count (a regular expression over the text), `Math.random` theme weights, `toLocaleString`, and the PDF export are not modelled.
- The backend's language libraries are inputs: spaCy tokens, the CountVectorizer vocabulary and counts, k-means labels (a function of the cluster count), PCA coordinates, VADER scores and text2emotion scores. Text cleaning by regex is left to them.
- Analysis.ExtractKeywords: takes the vocabulary already paired with counts as non-negative integers. `int(c)` of those counts is the identity.
- backend/main.py (the HTTP endpoints and module cache) and backend/exports.py are not part of this model.
- frontend/js/dashboard.js:120 calls `renderDashboard`, which is not defined anywhere. The call throws, the catch at 122-124 swallows it, and the page renders only the fetched response (`Storage.JsDashboardLoadSpec`).

## Findings

| source | as written | input that shows it | evidently intended | confidence | as-written member | corrected member |
|---|---|---|---|---|---|---|
| frontend/js/features.js:93 | `!report.sentiment.pos` treats a positive share of 0 as missing. It then rebuilds the sentiment from a `polarity` that the backend's sentiment does not have. | `{sentiment: {pos: 0, neu: 40, neg: 60}}` charts as 0 / 100 / 0. The backend sends pos 0 for any text whose VADER positive share is at most 0.5 % (`Analysis.SmallShareSentAsZero`). | Rebuild only when there is no positive share at all, so that percentage shares are kept and the normalization is idempotent | medium, not executed | Normalize.ZeroPositiveShareDiscarded | Normalize.FeaturesNormalizeIdempotent |
| frontend/dashboard.js:288 | `Math.max(3, Math.min(12, p.count * 1.5))` gives NaN for a point without a numeric count. | A point `{cluster: 0, x: 0, y: 0}` gets a NaN radius (`Themes.MissingCountNaNRadius`). | Read a missing count as 1, as frontend/features.js:308 does, so that every radius is a number in [3, 12] | medium, not executed | Themes.MissingCountRadius | Themes.DashboardRadiiBounded |
