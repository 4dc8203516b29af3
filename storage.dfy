/** Browser storage as the dashboard pages use it: the privacy wipe on
    entering the dashboard, the removal of the four report keys on "delete"
    and "start new", and the page loads that read the uploaded text, the
    cached report and a fresh analysis, and write the report back.

    Storage is two maps from key to text. `JSON.parse` and `JSON.stringify`
    are parameters (parse yields None where it throws), and the outcome of
    the analysis request is an input. */
module Storage {
  import opened Json
  import opened Normalize

  /** The keys that hold the user's text and its analysis. */
  const ReportKeys: seq<string> := ["ink_text", "ink_report_meta", "ink_report", "ink_results"]

  const ReportKeySet: set<string> := {"ink_text", "ink_report_meta", "ink_report", "ink_results"}

  /** `storage.getItem(k)`. */
  function Item(m: map<string, string>, k: string): Option<string>
  {
    if k in m then Some(m[k]) else None
  }

  /** `storage.getItem(k) || fallback`. */
  function ItemOr(m: map<string, string>, k: string, fallback: string): (r: string)
    ensures k in m && m[k] != "" ==> r == m[k]
    ensures k !in m || m[k] == "" ==> r == fallback
  {
    if k in m && m[k] != "" then m[k] else fallback
  }

  // ----- privacy wipe and key removal -----

  /** The wipe runs on a brand-new visit: the tab has not been marked active
      and the page was not opened from an export preview. */
  predicate NewVisit(session: map<string, string>)
  {
    Item(session, "ink_session_active") != Some("1") && Item(session, "fromPreview") != Some("true")
  }

  /** The storage after the wipe block, as (local, session). */
  function Wiped(local: map<string, string>, session: map<string, string>): (map<string, string>, map<string, string>)
  {
    (if NewVisit(session) then local - ReportKeySet else local,
     session["ink_session_active" := "1"] - {"fromPreview"})
  }

  /** The wipe removes the report keys exactly on a new visit, touches no
      other local key, marks the session active and drops the preview
      flag. */
  lemma WipeEffect(local: map<string, string>, session: map<string, string>)
    ensures var (l, s) := Wiped(local, session);
            (forall k :: k in ReportKeySet ==> (k in l <==> k in local && !NewVisit(session)))
            && (forall k :: k !in ReportKeySet ==> Item(l, k) == Item(local, k))
            && Item(s, "ink_session_active") == Some("1") && "fromPreview" !in s
            && (forall k :: k != "ink_session_active" && k != "fromPreview" ==> Item(s, k) == Item(session, k))
  {
  }

  /** Once the tab is marked active, running the block again wipes
      nothing: the block is idempotent. */
  lemma WipeIdempotent(local: map<string, string>, session: map<string, string>)
    ensures var (l, s) := Wiped(local, session);
            !NewVisit(s) && Wiped(l, s) == (l, s)
  {
    var (l, s) := Wiped(local, session);
    assert Item(s, "ink_session_active") == Some("1");
    assert s["ink_session_active" := "1"] - {"fromPreview"} == s;
  }

  /** What a page load does. */
  datatype Load =
    | MetaUnreadable          // `JSON.parse` of the stored meta throws
    | MetaNull                // the stored meta is `null`: reading `meta.name` throws
    | NoText                  // no uploaded text: the page stops
    | NoReport                // no report to show: the page stops
    | Throws                  // the normalization throws a TypeError
    | FetchFailed             // the analysis request failed: the page stops
    | Rendered(report: Value) // the report the page goes on to render

  /** The analysis request: failed (not ok, unreachable or unreadable), or
      the parsed response. */
  datatype Fetch = Failed | Fetched(body: Value)

  /** `JSON.parse(localStorage.getItem("ink_report_meta") || "{}")`, then
      `meta.name`: both pages read the meta before anything else, and stop
      when the text does not parse or parses to `null`. */
  predicate MetaReadable(local: map<string, string>, parse: string -> Option<Value>)
  {
    var meta := parse(ItemOr(local, "ink_report_meta", "{}"));
    meta.Some? && meta.value != Null
  }

  /** The outcome of reading the meta when it is not readable. */
  function MetaFailure(local: map<string, string>, parse: string -> Option<Value>): Load
  {
    if parse(ItemOr(local, "ink_report_meta", "{}")).None? then MetaUnreadable else MetaNull
  }

  /** `localStorage.getItem("ink_text") || ""` is not empty. */
  predicate HasText(local: map<string, string>)
  {
    ItemOr(local, "ink_text", "") != ""
  }

  /** The cached report of frontend/dashboard.js: `ink_report` when it is a
      non-empty text that parses; None when it is absent or does not parse. */
  function CachedReport(local: map<string, string>, parse: string -> Option<Value>): Option<Value>
  {
    if ItemOr(local, "ink_report", "") != "" then parse(local["ink_report"]) else None
  }

  /** An unparseable cache is treated exactly like an absent one. */
  lemma UnreadableCacheIsAbsent(local: map<string, string>, parse: string -> Option<Value>)
    requires "ink_report" in local && parse(local["ink_report"]).None?
    ensures CachedReport(local, parse) == CachedReport(local - {"ink_report"}, parse)
  {
  }

  /** The load of frontend/dashboard.js and the storage it leaves: the
      meta is parsed, a missing text stops the page, the cached report is
      read, the background request is started, a falsy report stops the
      page, the normalized report is written to `ink_report`, and a
      successful request later overwrites it. */
  function DashboardLoadSpec(local: map<string, string>, fetch: Fetch,
                             parse: string -> Option<Value>, stringify: Value -> string): (r: (Load, map<string, string>))
    ensures forall k :: k != "ink_report" ==> Item(r.1, k) == Item(local, k)
  {
    if !MetaReadable(local, parse) then (MetaFailure(local, parse), local)
    else if !HasText(local) then (NoText, local)
    else
      var overwrite := (m: map<string, string>) => if fetch.Fetched? then m["ink_report" := stringify(fetch.body)] else m;
      match CachedReport(local, parse)
      case None => (NoReport, overwrite(local))
      case Some(resp) =>
        if !Truthy(resp) then (NoReport, overwrite(local))
        else
          match NormalizeReport(resp)
          case ShapeError => (Throws, overwrite(local))
          case Shaped(view, stored) => (Rendered(view), overwrite(local["ink_report" := stringify(stored)]))
  }

  /** Without text nothing is written and no request is made. */
  lemma DashboardNoText(local: map<string, string>, fetch: Fetch,
                        parse: string -> Option<Value>, stringify: Value -> string)
    requires !HasText(local)
    ensures DashboardLoadSpec(local, fetch, parse, stringify).1 == local
    ensures DashboardLoadSpec(local, fetch, parse, stringify).0 in {MetaUnreadable, MetaNull, NoText}
  {
  }

  /** A meta that parses to `null` stops both dashboards before the text
      check, the request and any write. */
  lemma MetaNullStops(local: map<string, string>, fetch: Fetch,
                      parse: string -> Option<Value>, stringify: Value -> string)
    requires parse(ItemOr(local, "ink_report_meta", "{}")) == Some(Null)
    ensures DashboardLoadSpec(local, fetch, parse, stringify) == (MetaNull, local)
    ensures JsDashboardLoadSpec(local, fetch, parse, stringify) == (MetaNull, local)
  {
  }

  /** With text and a readable meta, a successful request has the last
      word: `ink_report` holds the response and no other key changes. */
  lemma DashboardFetchWins(local: map<string, string>, body: Value,
                           parse: string -> Option<Value>, stringify: Value -> string)
    requires MetaReadable(local, parse) && HasText(local)
    ensures DashboardLoadSpec(local, Fetched(body), parse, stringify).1 == local["ink_report" := stringify(body)]
  {
  }

  /** A failed request leaves the normalized cached report in place, or
      nothing written when there was none to show. */
  lemma DashboardFetchFails(local: map<string, string>,
                            parse: string -> Option<Value>, stringify: Value -> string)
    requires MetaReadable(local, parse) && HasText(local)
    ensures var (load, after) := DashboardLoadSpec(local, Failed, parse, stringify);
            (load.Rendered? <==> CachedReport(local, parse).Some? && Truthy(CachedReport(local, parse).value)
                                 && NormalizeReport(CachedReport(local, parse).value).Shaped?)
            && (load.Rendered? ==> after == local["ink_report" := stringify(NormalizeReport(CachedReport(local, parse).value).stored)])
            && (!load.Rendered? ==> after == local)
  {
  }

  /** The load of frontend/js/dashboard.js: the meta is parsed, a missing
      text stops the page, the request is awaited, a failure stops the page
      with nothing written, and the response is cached under `ink_report`. */
  function JsDashboardLoadSpec(local: map<string, string>, fetch: Fetch,
                               parse: string -> Option<Value>, stringify: Value -> string): (r: (Load, map<string, string>))
    ensures forall k :: k != "ink_report" ==> Item(r.1, k) == Item(local, k)
  {
    if !MetaReadable(local, parse) then (MetaFailure(local, parse), local)
    else if !HasText(local) then (NoText, local)
    else
      match fetch
      case Failed => (FetchFailed, local)
      case Fetched(resp) => (Rendered(resp), local["ink_report" := stringify(resp)])
  }

  /** `ink_report` is written exactly when the page goes on to render, and
      then holds the response. */
  lemma JsDashboardWritesOnSuccess(local: map<string, string>, fetch: Fetch,
                                   parse: string -> Option<Value>, stringify: Value -> string)
    ensures var (load, after) := JsDashboardLoadSpec(local, fetch, parse, stringify);
            (load.Rendered? <==> MetaReadable(local, parse) && HasText(local) && fetch.Fetched?)
            && (load.Rendered? ==> after == local["ink_report" := stringify(fetch.body)] && load.report == fetch.body)
            && (!load.Rendered? ==> after == local)
  {
  }

  /** What the features page reads. */
  datatype FeaturesLoad = Unreadable | Stopped | Ready(report: Value)

  /** `JSON.parse(ink_report || ink_results || "null")`; a falsy report
      stops the page, a truthy one is normalized and rendered. Nothing is
      written. The test deciding the sentiment rebuild is a parameter: the
      page runs `RebuildTestAsWritten`. */
  function FeaturesLoadSpec(local: map<string, string>, parse: string -> Option<Value>,
                            rebuild: Value -> bool): FeaturesLoad
  {
    match parse(ItemOr(local, "ink_report", ItemOr(local, "ink_results", "null")))
    case None => Unreadable
    case Some(report) => if Truthy(report) then Ready(NormalizeFeaturesWith(report, rebuild)) else Stopped
  }

  /** With neither key set, the page parses "null" and stops; a stored
      report is preferred to stored results. */
  lemma FeaturesLoadSources(local: map<string, string>, parse: string -> Option<Value>, rebuild: Value -> bool)
    requires parse("null") == Some(Null)
    ensures ItemOr(local, "ink_report", "") == "" && ItemOr(local, "ink_results", "") == "" ==>
              FeaturesLoadSpec(local, parse, rebuild) == Stopped
    ensures ItemOr(local, "ink_report", "") != "" && parse(local["ink_report"]).Some? ==>
              FeaturesLoadSpec(local, parse, rebuild) ==
                (if Truthy(parse(local["ink_report"]).value) then Ready(NormalizeFeaturesWith(parse(local["ink_report"]).value, rebuild))
                 else Stopped)
    ensures ItemOr(local, "ink_report", "") == "" && ItemOr(local, "ink_results", "") != ""
            && parse(local["ink_results"]).Some? ==>
              FeaturesLoadSpec(local, parse, rebuild) ==
                (if Truthy(parse(local["ink_results"]).value) then Ready(NormalizeFeaturesWith(parse(local["ink_results"]).value, rebuild))
                 else Stopped)
  {
  }

  /** On the page as written, a stored report with a positive share of 0
      is loaded with its sentiment rebuilt as 100 % neutral. */
  lemma FeaturesLoadDiscardsZeroShare(local: map<string, string>, parse: string -> Option<Value>)
    requires ItemOr(local, "ink_report", "") != ""
    requires parse(local["ink_report"]) ==
               Some(Obj([Member("sentiment", Obj([Member("pos", Num(0.0)), Member("neu", Num(40.0)), Member("neg", Num(60.0))]))]))
    ensures FeaturesLoadSpec(local, parse, RebuildTestAsWritten).Ready?
    ensures var se := Get(FeaturesLoadSpec(local, parse, RebuildTestAsWritten).report, "sentiment");
            Get(se, "neu") == Num(100.0) && Get(se, "neg") == Num(0.0)
  {
    var report := parse(local["ink_report"]).value;
    assert ItemOr(local, "ink_report", ItemOr(local, "ink_results", "null")) == local["ink_report"];
    assert Truthy(report);
    assert FeaturesLoadSpec(local, parse, RebuildTestAsWritten) == Ready(NormalizeForFeaturesAsWritten(report));
    ZeroPositiveShareDiscarded();
  }

  /** localStorage and sessionStorage of one browser tab. */
  class BrowserStorage {
    var local: map<string, string>
    var session: map<string, string>

    constructor(local0: map<string, string>, session0: map<string, string>)
      ensures local == local0 && session == session0
    {
      local := local0;
      session := session0;
    }

    /** `REPORT_KEYS.forEach(k => localStorage.removeItem(k))`, the step of
        the wipe, "delete" and "start new". */
    method RemoveReportKeys()
      modifies this
      ensures local == old(local) - ReportKeySet
      ensures session == old(session)
    {
      var i := 0;
      while i < |ReportKeys|
        invariant 0 <= i <= |ReportKeys|
        invariant local == old(local) - set k | k in ReportKeys[..i]
        invariant session == old(session)
      {
        assert ReportKeys[..i + 1] == ReportKeys[..i] + [ReportKeys[i]];
        local := local - {ReportKeys[i]};
        i := i + 1;
      }
      assert ReportKeys[..i] == ReportKeys;
      assert (set k | k in ReportKeys) == ReportKeySet;
    }

    /** The wipe block run on entering the dashboard. */
    method PrivacyWipe()
      modifies this
      ensures (local, session) == Wiped(old(local), old(session))
    {
      var fromPreview := Item(session, "fromPreview") == Some("true");
      var sessionActive := Item(session, "ink_session_active") == Some("1");
      if !sessionActive && !fromPreview {
        RemoveReportKeys();
      }
      session := session["ink_session_active" := "1"];
      session := session - {"fromPreview"};
    }

    /** The load of frontend/dashboard.js, step by step. */
    method DashboardLoad(fetch: Fetch, parse: string -> Option<Value>, stringify: Value -> string)
      returns (r: Load)
      modifies this
      ensures (r, local) == DashboardLoadSpec(old(local), fetch, parse, stringify)
      ensures session == old(session)
    {
      var meta := parse(ItemOr(local, "ink_report_meta", "{}"));
      if meta.None? {
        return MetaUnreadable;
      }
      if meta.value == Null {
        return MetaNull;
      }
      if ItemOr(local, "ink_text", "") == "" {
        return NoText;
      }
      var resp := CachedReport(local, parse);
      if resp.None? || !Truthy(resp.value) {
        r := NoReport;
      } else {
        match NormalizeReport(resp.value)
        case ShapeError =>
          r := Throws;
        case Shaped(view, stored) =>
          local := local["ink_report" := stringify(stored)];
          r := Rendered(view);
      }
      if fetch.Fetched? {
        local := local["ink_report" := stringify(fetch.body)];
      }
    }

    /** The load of frontend/js/dashboard.js, step by step. */
    method JsDashboardLoad(fetch: Fetch, parse: string -> Option<Value>, stringify: Value -> string)
      returns (r: Load)
      modifies this
      ensures (r, local) == JsDashboardLoadSpec(old(local), fetch, parse, stringify)
      ensures session == old(session)
    {
      var meta := parse(ItemOr(local, "ink_report_meta", "{}"));
      if meta.None? {
        return MetaUnreadable;
      }
      if meta.value == Null {
        return MetaNull;
      }
      if ItemOr(local, "ink_text", "") == "" {
        return NoText;
      }
      if fetch.Failed? {
        return FetchFailed;
      }
      local := local["ink_report" := stringify(fetch.body)];
      r := Rendered(fetch.body);
    }
  }
}
