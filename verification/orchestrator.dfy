/** A search run (`SearchOrchestrator.run`): choose the keywords and the
    portals, scan the portals one after another, and fold their results
    into the run row: totals, failures, error summaries and a final status. */
module Orchestrator {
  import opened Wrappers
  import opened Strings
  import opened Sorting
  import opened Models
  import opened Records
  import opened Registry
  import opened Scan

  /** The window a run searches when no start date is given: 48 hours, in seconds. */
  const DefaultWindow: int := 48 * 3600

  /** The longest error text kept in a run's `error_details` entry for a portal. */
  const SummaryLimit: nat := 200

  // ── Keywords ──────────────────────────────────────────────────────────────

  /** `ORDER BY priority DESC`. */
  predicate ByPriorityDesc(a: Keyword, b: Keyword) {
    a.priority >= b.priority
  }

  lemma ByPriorityDescTotal()
    ensures TotalPreorder(ByPriorityDesc)
  {
  }

  /** The terms of the rows, in order. */
  function Terms(ks: seq<Keyword>): (r: seq<string>)
    ensures |r| == |ks|
    ensures forall i :: 0 <= i < |ks| ==> r[i] == ks[i].term
  {
    seq(|ks|, i requires 0 <= i < |ks| => ks[i].term)
  }

  /** The rows `_load_keywords` selects: the active keywords, highest
      priority first. Rows of equal priority come back in an order the
      database chooses; this model fixes one. */
  function ActiveByPriority(ks: seq<Keyword>): (r: seq<Keyword>)
    ensures forall k :: multiset(r)[k] == if k.isActive then multiset(ks)[k] else 0
    ensures forall i, j :: 0 <= i < j < |r| ==> r[i].priority >= r[j].priority
  {
    ByPriorityDescTotal();
    var r := Sort(Filter(ks, (k: Keyword) => k.isActive), ByPriorityDesc);
    assert SortedBy(r, ByPriorityDesc);
    r
  }

  /** `_load_keywords()`: the terms of the active keywords by descending priority. */
  function LoadKeywords(ks: seq<Keyword>): (r: seq<string>)
    ensures |r| == |ActiveByPriority(ks)|
    ensures forall i :: 0 <= i < |r| ==> r[i] == ActiveByPriority(ks)[i].term
  {
    Terms(ActiveByPriority(ks))
  }

  /** The keywords a run uses: the override when it is a non-empty list,
      the stored active keywords otherwise (`keywords_override or ...`). */
  function EffectiveKeywords(override: Option<seq<string>>, ks: seq<Keyword>): (r: seq<string>)
    ensures override.Some? && override.value != [] ==> r == override.value
    ensures (override.None? || override.value == []) ==> r == LoadKeywords(ks)
  {
    if override.Some? && override.value != [] then override.value else LoadKeywords(ks)
  }

  /** The loaded terms are exactly the active keywords' terms. */
  lemma LoadKeywordsAreActiveTerms(ks: seq<Keyword>, t: string)
    ensures t in LoadKeywords(ks) <==> exists i :: 0 <= i < |ks| && ks[i].isActive && ks[i].term == t
  {
    var r := ActiveByPriority(ks);
    if t in LoadKeywords(ks) {
      var j :| 0 <= j < |r| && Terms(r)[j] == t;
      assert r[j] in multiset(r);
      assert r[j] in multiset(ks) && r[j].isActive;
      var i :| 0 <= i < |ks| && ks[i] == r[j];
    }
    if exists i :: 0 <= i < |ks| && ks[i].isActive && ks[i].term == t {
      var i :| 0 <= i < |ks| && ks[i].isActive && ks[i].term == t;
      assert ks[i] in multiset(ks);
      assert ks[i] in multiset(r);
      var j :| 0 <= j < |r| && r[j] == ks[i];
      assert Terms(r)[j] == t;
    }
  }

  // ── Portals ───────────────────────────────────────────────────────────────

  /** `ORDER BY level, name` on the given backend. */
  function ByLevelThenName(b: Backend): (Portal, Portal) -> bool {
    (x: Portal, y: Portal) =>
      LevelRank(b, x.level) < LevelRank(b, y.level)
      || (LevelRank(b, x.level) == LevelRank(b, y.level) && StrLe(x.name, y.name))
  }

  lemma ByLevelThenNameTotal(b: Backend)
    ensures TotalPreorder(ByLevelThenName(b))
  {
    var le := ByLevelThenName(b);
    forall x: Portal, y: Portal ensures le(x, y) || le(y, x) {
      StrLeTotal(x.name, y.name);
    }
    forall x: Portal, y: Portal, z: Portal | le(x, y) && le(y, z) ensures le(x, z) {
      if LevelRank(b, x.level) == LevelRank(b, y.level) == LevelRank(b, z.level) {
        StrLeTransitive(x.name, y.name, z.name);
      }
    }
  }

  /** Whether `_load_portals(portal_ids)` selects the portal: enabled, and
      among the requested ids when a non-empty list of them is given. */
  predicate Selected(p: Portal, portalIds: Option<seq<nat>>) {
    p.isEnabled && (portalIds.None? || portalIds.value == [] || p.id in portalIds.value)
  }

  /** `_load_portals(portal_ids)`: the selected portals ordered by level,
      then name. */
  function LoadPortals(ps: seq<Portal>, b: Backend, portalIds: Option<seq<nat>>): (r: seq<Portal>)
    ensures forall p :: multiset(r)[p] == if Selected(p, portalIds) then multiset(ps)[p] else 0
    ensures forall i, j :: 0 <= i < j < |r| ==>
      LevelRank(b, r[i].level) < LevelRank(b, r[j].level)
      || (LevelRank(b, r[i].level) == LevelRank(b, r[j].level) && StrLe(r[i].name, r[j].name))
  {
    ByLevelThenNameTotal(b);
    var r := Sort(Filter(ps, (p: Portal) => Selected(p, portalIds)), ByLevelThenName(b));
    assert SortedBy(r, ByLevelThenName(b));
    r
  }

  /** An empty id list filters nothing: it loads what no list loads. */
  lemma EmptyIdsMeanNoFilter(ps: seq<Portal>, b: Backend)
    ensures LoadPortals(ps, b, Some([])) == LoadPortals(ps, b, None)
  {
    FilterExtensional(ps, (p: Portal) => Selected(p, Some([])), (p: Portal) => Selected(p, None));
  }

  // ── Aggregation ───────────────────────────────────────────────────────────

  /** The run's found total: the sum of "found" over the successful portals. */
  function SumFound(results: seq<Result<(nat, nat), string>>): nat
    decreases |results|
  {
    if results == [] then 0
    else
      var last := results[|results| - 1];
      SumFound(results[..|results| - 1]) + (if last.Ok? then last.value.0 else 0)
  }

  /** The run's new total: the sum of "new" over the successful portals. */
  function SumNew(results: seq<Result<(nat, nat), string>>): nat
    decreases |results|
  {
    if results == [] then 0
    else
      var last := results[|results| - 1];
      SumNew(results[..|results| - 1]) + (if last.Ok? then last.value.1 else 0)
  }

  /** The number of failed portals. */
  function Failures(results: seq<Result<(nat, nat), string>>): nat
    decreases |results|
  {
    if results == [] then 0
    else Failures(results[..|results| - 1]) + (if results[|results| - 1].Err? then 1 else 0)
  }

  /** One `error_details` entry per failed portal, in portal order: its short
      name and the first 200 characters of the exception's text. */
  function Summaries(portals: seq<Portal>, results: seq<Result<(nat, nat), string>>): seq<ErrorDetail>
    requires |portals| == |results|
    decreases |results|
  {
    if results == [] then []
    else
      var n := |results| - 1;
      Summaries(portals[..n], results[..n])
      + (if results[n].Err? then [ErrorDetail(Some(portals[n].shortName), Truncate(results[n].error, SummaryLimit))] else [])
  }

  /** There are as many summaries as failures, each naming a portal and
      holding at most 200 characters of its error. */
  lemma {:induction false} SummariesPerFailure(portals: seq<Portal>, results: seq<Result<(nat, nat), string>>)
    requires |portals| == |results|
    ensures |Summaries(portals, results)| == Failures(results) <= |results|
    ensures forall k :: 0 <= k < |Summaries(portals, results)| ==>
      Summaries(portals, results)[k].portal.Some? && |Summaries(portals, results)[k].error| <= SummaryLimit
    decreases |results|
  {
    if results != [] {
      var n := |results| - 1;
      SummariesPerFailure(portals[..n], results[..n]);
    }
  }

  /** No failure leaves no summary, so `error_details or None` stores None. */
  lemma {:induction false} NoFailuresNoSummaries(portals: seq<Portal>, results: seq<Result<(nat, nat), string>>)
    requires |portals| == |results|
    ensures Summaries(portals, results) == [] <==> Failures(results) == 0
  {
    SummariesPerFailure(portals, results);
  }

  /** Failures count the failed portals: none fail exactly when the count is
      0, all of them exactly when it is the number of portals. */
  lemma {:induction false} FailuresCount(results: seq<Result<(nat, nat), string>>)
    ensures Failures(results) <= |results|
    ensures Failures(results) == 0 <==> forall i :: 0 <= i < |results| ==> results[i].Ok?
    ensures Failures(results) == |results| <==> forall i :: 0 <= i < |results| ==> results[i].Err?
    decreases |results|
  {
    if results != [] {
      var n := |results| - 1;
      var init := results[..n];
      FailuresCount(init);
      assert forall i :: 0 <= i < n ==> init[i] == results[i];
    }
  }

  /** A portal never reports more new tenders than found, so neither does the run. */
  lemma {:induction false} NewNeverExceedsFound(results: seq<Result<(nat, nat), string>>)
    requires forall i :: 0 <= i < |results| && results[i].Ok? ==> results[i].value.1 <= results[i].value.0
    ensures SumNew(results) <= SumFound(results)
    decreases |results|
  {
    if results != [] {
      var n := |results| - 1;
      var init := results[..n];
      assert forall i :: 0 <= i < n ==> init[i] == results[i];
      NewNeverExceedsFound(init);
    }
  }

  /** The totals the loop over `zip(portals, results)` accumulates. */
  datatype Totals = Totals(found: nat, added: nat, failures: nat, details: seq<ErrorDetail>)

  /** The loop over `zip(portals, results)`: the totals, the failure count
      and the error summaries. */
  method Aggregate(portals: seq<Portal>, results: seq<Result<(nat, nat), string>>) returns (t: Totals)
    requires |portals| == |results|
    ensures t.found == SumFound(results) && t.added == SumNew(results)
    ensures t.failures == Failures(results)
    ensures t.details == Summaries(portals, results)
  {
    t := Totals(0, 0, 0, []);
    for i := 0 to |results|
      invariant t.found == SumFound(results[..i]) && t.added == SumNew(results[..i])
      invariant t.failures == Failures(results[..i])
      invariant t.details == Summaries(portals[..i], results[..i])
    {
      assert results[..i + 1][..i] == results[..i];
      assert portals[..i + 1][..i] == portals[..i];
      match results[i]
      case Err(e) =>
        t := t.(failures := t.failures + 1,
                details := t.details + [ErrorDetail(Some(portals[i].shortName), Truncate(e, SummaryLimit))]);
      case Ok(counts) =>
        t := t.(found := t.found + counts.0, added := t.added + counts.1);
    }
    assert results[..|results|] == results && portals[..|portals|] == portals;
  }

  /** The final status from the failure count: FAILED when every portal
      failed (also when there were none), PARTIAL when some did, SUCCESS
      when none did. */
  function RunStatusOf(failures: nat, portals: nat): (r: RunStatus)
    requires failures <= portals
    ensures r != Running
    ensures r == Failed <==> failures == portals
    ensures r == Partial <==> 0 < failures < portals
    ensures r == Success <==> failures == 0 < portals
  {
    if failures == portals then Failed
    else if failures > 0 then Partial
    else Success
  }

  /** The status in terms of the portals' results: FAILED iff none
      succeeded, SUCCESS iff there were portals and none failed, PARTIAL iff
      some succeeded and some failed. */
  lemma StatusFromResults(results: seq<Result<(nat, nat), string>>)
    ensures Failures(results) <= |results|
    ensures RunStatusOf(Failures(results), |results|) == Failed <==>
      forall i :: 0 <= i < |results| ==> results[i].Err?
    ensures RunStatusOf(Failures(results), |results|) == Success <==>
      results != [] && forall i :: 0 <= i < |results| ==> results[i].Ok?
    ensures RunStatusOf(Failures(results), |results|) == Partial <==>
      (exists i :: 0 <= i < |results| && results[i].Ok?) && (exists j :: 0 <= j < |results| && results[j].Err?)
  {
    FailuresCount(results);
  }

  // ── The run ───────────────────────────────────────────────────────────────

  /** The arguments of `run`. */
  datatype RunRequest = RunRequest(
    triggeredBy: string,
    keywordsOverride: Option<seq<string>>,
    portalIds: Option<seq<nat>>,
    dateFrom: Option<Time>)

  /** Exceptions the run's own queries may raise, caught by its outer
      handler: loading the keywords, loading the portals. */
  datatype Faults = Faults(keywords: Option<string>, portals: Option<string>)

  /** The start of the searched window. */
  function DateFrom(req: RunRequest, now: Time): (r: Time)
    ensures req.dateFrom.Some? ==> r == req.dateFrom.value
    ensures req.dateFrom.None? ==> r == now - 172800
  {
    req.dateFrom.GetOr(now - DefaultWindow)
  }

  /** A non-empty keyword override, which spares the keyword query. */
  predicate HasOverride(req: RunRequest) {
    req.keywordsOverride.Some? && req.keywordsOverride.value != []
  }

  /** The run row sums up a scan of `portals`, whose adapters answered
      `fetched`, that took the store from `db` to `db'`: the portal count,
      the totals, the failures, the error summaries and the status. */
  ghost predicate SumsUp(run: SearchRun, db: Db, db': Db, portals: seq<Portal>,
                   fetched: seq<Result<seq<LicitacionData>, string>>) {
    exists s: Scanned ::
      && AllScanned(db, run.id, portals, fetched, s) && db' == s.db
      && |s.results| == |portals| && run.portalsScanned == |portals|
      && run.licitacionesFound == SumFound(s.results) && run.licitacionesNew == SumNew(s.results)
      && run.portalsFailed == Failures(s.results) <= |portals|
      && run.status == RunStatusOf(run.portalsFailed, |portals|)
      && run.errorDetails == (if run.portalsFailed == 0 then None else Some(Summaries(portals, s.results)))
  }

  /** `run(...)` as run `runId` at time `now`: the run row it returns and the
      database afterwards. A failure of the run's own queries ends it FAILED
      with one portal-less error entry; no keywords end it FAILED before any
      scan; otherwise every selected portal is scanned and the run row sums
      up their results. */
  method Run(db: Db, b: Backend, runId: nat, req: RunRequest,
             fetch: (Scraper, seq<string>, Time) -> Result<seq<LicitacionData>, string>,
             h: string -> Hash, now: Time, faults: Faults) returns (run: SearchRun, db': Db)
    ensures run.status != Running && run.finishedAt == Some(now)
    ensures run.id == runId && run.triggeredBy == req.triggeredBy && run.startedAt == now
    ensures Valid(db) ==> Valid(db')
    ensures db'.keywords == db.keywords
    ensures run.portalsFailed <= run.portalsScanned && run.licitacionesNew <= run.licitacionesFound
    ensures |db'.runPortals| == |db.runPortals| + run.portalsScanned
    ensures HasOverride(req) || faults.keywords.None? ==>
      run.keywordsUsed == Some(EffectiveKeywords(req.keywordsOverride, db.keywords))
    ensures !HasOverride(req) && faults.keywords.Some? ==>
      && run.keywordsUsed == None && run.status == Failed && db' == db
      && run.errorDetails == Some([ErrorDetail(None, faults.keywords.value)])
    ensures run.keywordsUsed.Some? && run.keywordsUsed.value == [] ==> run.status == Failed && db' == db
    ensures run.keywordsUsed.Some? && run.keywordsUsed.value != [] && faults.portals.Some? ==>
      && run.status == Failed && db' == db && run.portalsScanned == 0
      && run.errorDetails == Some([ErrorDetail(None, faults.portals.value)])
    ensures run.keywordsUsed.Some? && run.keywordsUsed.value != [] && faults.portals.None? ==>
      var portals := LoadPortals(db.portals, b, req.portalIds);
      SumsUp(run, db, db', portals, Fetches(portals, run.keywordsUsed.value, DateFrom(req, now), fetch))
    ensures run.errorDetails.Some? ==> run.errorDetails.value != []
    ensures run.errorDetails.Some? && run.portalsFailed == 0 ==> db' == db && run.status == Failed
    ensures run.portalsFailed > 0 ==> run.errorDetails.Some? && |run.errorDetails.value| == run.portalsFailed
    ensures run.status == Success ==> run.portalsFailed == 0 < run.portalsScanned && run.errorDetails == None
  {
    run := NewSearchRun(runId, req.triggeredBy, now);
    db' := db;
    if !HasOverride(req) && faults.keywords.Some? {
      run := run.(status := Failed, finishedAt := Some(now), errorDetails := Some([ErrorDetail(None, faults.keywords.value)]));
      return;
    }
    var keywords := EffectiveKeywords(req.keywordsOverride, db.keywords);
    run := run.(keywordsUsed := Some(keywords));
    if keywords == [] {
      run := run.(status := Failed, finishedAt := Some(now));
      return;
    }
    var dateFrom := DateFrom(req, now);
    if faults.portals.Some? {
      run := run.(status := Failed, finishedAt := Some(now), errorDetails := Some([ErrorDetail(None, faults.portals.value)]));
      return;
    }
    var portals := LoadPortals(db.portals, b, req.portalIds);
    var fetched := Fetches(portals, keywords, dateFrom, fetch);
    var scanned;
    var run0 := run;
    run, scanned := ScanPortals(run0, db, portals, fetched, keywords, h, now);
    db' := scanned.db;
  }

  /** The scanning part of `run`: the selected portals are scanned in order
      (`fetched[i]` is what the adapter of `portals[i]` returned) and the run
      row receives the portal count, the totals, the failures, the error
      summaries and the status they determine. */
  method ScanPortals(run0: SearchRun, db: Db, portals: seq<Portal>, fetched: seq<Result<seq<LicitacionData>, string>>,
                     keywords: seq<string>, h: string -> Hash, now: Time) returns (run: SearchRun, scanned: Scanned)
    requires |fetched| == |portals|
    ensures run == run0.(portalsScanned := run.portalsScanned, portalsFailed := run.portalsFailed,
                         licitacionesFound := run.licitacionesFound, licitacionesNew := run.licitacionesNew,
                         status := run.status, finishedAt := run.finishedAt, errorDetails := run.errorDetails)
    ensures run.portalsScanned == |portals| && run.finishedAt == Some(now)
    ensures run.portalsFailed <= run.portalsScanned && run.licitacionesNew <= run.licitacionesFound
    ensures run.status != Running && run.status == RunStatusOf(run.portalsFailed, |portals|)
    ensures run.errorDetails.Some? ==> run.errorDetails.value != []
    ensures run.errorDetails.None? <==> run.portalsFailed == 0
    ensures run.portalsFailed > 0 ==> |run.errorDetails.value| == run.portalsFailed
    ensures AllScanned(db, run0.id, portals, fetched, scanned)
    ensures run.licitacionesFound == SumFound(scanned.results) && run.licitacionesNew == SumNew(scanned.results)
    ensures run.portalsFailed == Failures(scanned.results)
    ensures run.errorDetails.Some? ==> run.errorDetails.value == Summaries(portals, scanned.results)
    ensures run.errorDetails.Some? ==> forall k :: 0 <= k < |run.errorDetails.value| ==> run.errorDetails.value[k].portal.Some?
    ensures SumsUp(run, db, scanned.db, portals, fetched)
  {
    scanned := ScanAll(db, run0.id, portals, fetched, keywords, h, now);
    RecordedResults(db, run0.id, portals, fetched, scanned);
    var t := Aggregate(portals, scanned.results);
    FailuresCount(scanned.results);
    NewNeverExceedsFound(scanned.results);
    NoFailuresNoSummaries(portals, scanned.results);
    SummariesPerFailure(portals, scanned.results);
    run := run0.(portalsScanned := |portals|, licitacionesFound := t.found, licitacionesNew := t.added,
                 portalsFailed := t.failures, finishedAt := Some(now),
                 errorDetails := if t.details == [] then None else Some(t.details),
                 status := RunStatusOf(t.failures, |portals|));
    assert SumsUp(run, db, scanned.db, portals, fetched);
  }

  /** The scan results, one per portal, none with more new tenders than found. */
  lemma RecordedResults(db: Db, runId: nat, portals: seq<Portal>, fetched: seq<Result<seq<LicitacionData>, string>>,
                        r: Scanned)
    requires AllScanned(db, runId, portals, fetched, r)
    ensures |r.results| == |portals|
    ensures forall i :: 0 <= i < |r.results| && r.results[i].Ok? ==> r.results[i].value.1 <= r.results[i].value.0
  {
  }
}
