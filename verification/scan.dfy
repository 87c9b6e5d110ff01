/** One portal's scan (`_scan_portal_isolated`): build the adapter, fetch
    its candidate records, deduplicate, score and stage each new one, then
    either commit the tenders, the portal's health and a "success" outcome
    row, or discard everything and record an "error" outcome row and the
    portal's failure. Portals are scanned one after another. */
module Scan {
  import opened Wrappers
  import opened Strings
  import opened Json
  import opened Models
  import opened Records
  import opened Matcher
  import opened Dedup
  import opened Registry

  /** Consecutive failures after which a portal is put in ERROR. */
  const ErrorThreshold: nat := 5

  /** The longest error text kept on a portal and on its outcome row. */
  const PortalErrorLimit: nat := 500

  // ── Rows staged by a scan ─────────────────────────────────────────────────

  /** The tender row `_scan_portal_isolated` stages for a new record. */
  function RowFor(id: nat, portalId: nat, d: LicitacionData, ch: Hash, m: MatchResult): Licitacion {
    Licitacion(id, portalId, d.externalId, ch, d.titulo, d.descripcion, d.numeroExpediente,
               d.numeroLicitacion, d.organismo, d.tipoContratacion, d.montoEstimado, d.moneda,
               d.fechaPublicacion, d.fechaApertura, d.fechaCierre, Some(d.urlDetalle), d.urlPliego,
               if m.keywordsFound != [] then m.keywordsFound else d.matchedKeywords,
               m.score, Nueva, true, d.rawData)
  }

  /** The match the scan computes for a record: OR over the run's keywords. */
  function MatchOf(keywords: seq<string>, d: LicitacionData): MatchResult {
    Match(keywords, "OR", d.titulo, d.descripcion, d.organismo)
  }

  /** A staged row is new, unseen, and keeps the match's verdict. */
  lemma RowForFields(id: nat, portalId: nat, d: LicitacionData, ch: Hash, keywords: seq<string>)
    ensures var m := MatchOf(keywords, d);
            var row := RowFor(id, portalId, d, ch, m);
            && row.status == Nueva && row.isNew
            && 0.0 <= row.relevanceScore <= 1.0
            && (m.keywordsFound != [] ==> row.matchedKeywords == m.keywordsFound)
            && (m.keywordsFound == [] ==> row.matchedKeywords == d.matchedKeywords && row.relevanceScore == 0.0)
  {
  }

  /** What the loop over the fetched records carries: the deduplicator and
      the rows staged so far. */
  datatype Fold = Fold(dd: Deduplicator, rows: seq<Licitacion>)

  /** Every staged row belongs to the portal, is NUEVA and new. */
  predicate StagedRows(rows: seq<Licitacion>, portalId: nat) {
    forall i :: 0 <= i < |rows| ==> rows[i].portalId == portalId && rows[i].status == Nueva && rows[i].isNew
  }

  /** No two staged rows share a content hash. */
  predicate DistinctHashes(rows: seq<Licitacion>) {
    forall i, j :: 0 <= i < j < |rows| ==> rows[i].contentHash != rows[j].contentHash
  }

  /** The staged rows carry consecutive ids from `first` on, as the
      autoincrement key numbers the rows inserted by one commit. */
  predicate NumberedFrom(rows: seq<Licitacion>, first: nat) {
    forall i :: 0 <= i < |rows| ==> rows[i].id == first + i
  }

  /** Every staged row's hash is in the cache. */
  predicate Covered(rows: seq<Licitacion>, cache: set<Hash>) {
    forall i :: 0 <= i < |rows| ==> rows[i].contentHash in cache
  }

  /** The content hash of each fetched record, in order. */
  function Hashes(raw: seq<LicitacionData>, h: string -> Hash): (r: seq<Hash>)
    ensures |r| == |raw|
    ensures forall k :: 0 <= k < |raw| ==> r[k] == ContentHash(raw[k], h)
  {
    seq(|raw|, k requires 0 <= k < |raw| => ContentHash(raw[k], h))
  }

  /** One turn of the loop of `_scan_portal_isolated`, for record `d` whose
      content hash is `ch`: a duplicate is skipped; anything else is scored,
      staged with the next id and marked seen, whatever the match says. */
  function ScanStep(d: LicitacionData, ch: Hash, store: seq<Licitacion>, portalId: nat, keywords: seq<string>,
                    acc: Fold, nextId: nat): (r: Fold)
    requires StagedRows(acc.rows, portalId) && DistinctHashes(acc.rows) && Covered(acc.rows, acc.dd.cache)
    ensures StagedRows(r.rows, portalId) && DistinctHashes(r.rows) && Covered(r.rows, r.dd.cache)
    ensures ch in r.dd.cache && acc.dd.cache <= r.dd.cache
    ensures r.rows == acc.rows || (ch !in acc.dd.cache && r.rows == acc.rows + [RowFor(nextId + |acc.rows|, portalId, d, ch, MatchOf(keywords, d))])
    ensures CheckHash(acc.dd, store, ch, d.externalId, portalId).duplicate <==> r.rows == acc.rows
    ensures NumberedFrom(acc.rows, nextId) ==> NumberedFrom(r.rows, nextId)
  {
    var v := CheckHash(acc.dd, store, ch, d.externalId, portalId);
    if v.duplicate then Fold(v.next, acc.rows)
    else
      var row := RowFor(nextId + |acc.rows|, portalId, d, ch, MatchOf(keywords, d));
      var r := Fold(MarkHash(v.next, ch), acc.rows + [row]);
      assert r.rows[|acc.rows|] == row;
      r
  }

  /** The loop of `_scan_portal_isolated` over `raw`, whose content hashes are `hashes`. */
  function ScanFold(raw: seq<LicitacionData>, hashes: seq<Hash>, store: seq<Licitacion>, portalId: nat,
                    keywords: seq<string>, acc: Fold, nextId: nat): (r: Fold)
    requires |hashes| == |raw|
    requires StagedRows(acc.rows, portalId) && DistinctHashes(acc.rows) && Covered(acc.rows, acc.dd.cache)
    requires NumberedFrom(acc.rows, nextId)
    ensures |acc.rows| <= |r.rows| <= |acc.rows| + |raw|
    ensures NumberedFrom(r.rows, nextId)
    ensures r.rows[..|acc.rows|] == acc.rows
    ensures acc.dd.cache <= r.dd.cache
    ensures StagedRows(r.rows, portalId) && DistinctHashes(r.rows) && Covered(r.rows, r.dd.cache)
    ensures forall i :: |acc.rows| <= i < |r.rows| ==> r.rows[i].contentHash !in acc.dd.cache
    decreases |raw|
  {
    if raw == [] then acc
    else
      var acc' := ScanStep(raw[0], hashes[0], store, portalId, keywords, acc, nextId);
      var r := ScanFold(raw[1..], hashes[1..], store, portalId, keywords, acc', nextId);
      assert r.rows[..|acc'.rows|][..|acc.rows|] == r.rows[..|acc.rows|];
      r
  }

  /** The staged rows never collide with a stored row of the portal, so
      committing them keeps `uq_portal_contenthash`. */
  lemma CommitKeepsUniqueContent(store: seq<Licitacion>, rows: seq<Licitacion>, portalId: nat)
    requires UniqueContent(store)
    requires StagedRows(rows, portalId) && DistinctHashes(rows)
    requires forall i :: 0 <= i < |rows| ==> !HashStored(store, portalId, rows[i].contentHash)
    ensures UniqueContent(store + rows)
  {
    var all := store + rows;
    forall i, j | 0 <= i < j < |all|
      ensures (all[i].portalId, all[i].contentHash) != (all[j].portalId, all[j].contentHash)
    {
      if j >= |store| && i < |store| {
        assert all[j] == rows[j - |store|];
      } else if i >= |store| {
        assert all[i] == rows[i - |store|] && all[j] == rows[j - |store|];
      }
    }
  }

  /** Rows numbered from the next free id never reuse a stored id, so
      committing them keeps the primary key unique. */
  lemma CommitKeepsUniqueIds(store: seq<Licitacion>, rows: seq<Licitacion>)
    requires UniqueLicitacionIds(store)
    requires NumberedFrom(rows, NextId(store, LicitacionId))
    ensures UniqueLicitacionIds(store + rows)
  {
    var all := store + rows;
    var first := NextId(store, LicitacionId);
    forall i, j | 0 <= i < j < |all| ensures all[i].id != all[j].id {
      if j >= |store| && i < |store| {
        assert all[j] == rows[j - |store|] && LicitacionId(store[i]) < first;
      } else if i >= |store| {
        assert all[i] == rows[i - |store|] && all[j] == rows[j - |store|];
      }
    }
  }

  /** When every fetched record has its own hash and nothing matching is
      stored or cached, every record is staged: the match never filters. */
  lemma {:induction false} FreshRecordsAllStaged(raw: seq<LicitacionData>, hashes: seq<Hash>, portalId: nat,
                                                  keywords: seq<string>, acc: Fold, nextId: nat)
    requires |hashes| == |raw|
    requires StagedRows(acc.rows, portalId) && DistinctHashes(acc.rows) && Covered(acc.rows, acc.dd.cache)
    requires NumberedFrom(acc.rows, nextId)
    requires forall k :: 0 <= k < |raw| ==> hashes[k] !in acc.dd.cache
    requires forall k, l :: 0 <= k < l < |raw| ==> hashes[k] != hashes[l]
    ensures |ScanFold(raw, hashes, [], portalId, keywords, acc, nextId).rows| == |acc.rows| + |raw|
    decreases |raw|
  {
    if raw != [] {
      var acc' := ScanStep(raw[0], hashes[0], [], portalId, keywords, acc, nextId);
      assert !CheckHash(acc.dd, [], hashes[0], raw[0].externalId, portalId).duplicate;
      assert acc'.dd.cache == acc.dd.cache + {hashes[0]};
      assert acc'.rows[|acc.rows|].id == nextId + |acc.rows|;
      FreshRecordsAllStaged(raw[1..], hashes[1..], portalId, keywords, acc', nextId);
    }
  }

  // ── Portal health ─────────────────────────────────────────────────────────

  /** A successful scan: checked and succeeded now, error counter reset, ACTIVE. */
  function HealthOnSuccess(p: Portal, now: Time): (r: Portal)
    ensures r.consecutiveErrors == Some(0) && r.status == Active
    ensures r.lastCheckedAt == Some(now) && r.lastSuccessAt == Some(now)
    ensures r == p.(lastCheckedAt := r.lastCheckedAt, lastSuccessAt := r.lastSuccessAt,
                    consecutiveErrors := r.consecutiveErrors, status := r.status)
  {
    p.(lastCheckedAt := Some(now), lastSuccessAt := Some(now), consecutiveErrors := Some(0), status := Active)
  }

  /** A failed scan: checked now, the error kept to 500 characters, the
      counter (a missing one read as 0) incremented, ERROR from the fifth
      consecutive failure on; the status is otherwise left alone. */
  function HealthOnFailure(p: Portal, error: string, now: Time): (r: Portal)
    ensures r.consecutiveErrors == Some(p.consecutiveErrors.GetOr(0) + 1)
    ensures r.status == if p.consecutiveErrors.GetOr(0) + 1 >= ErrorThreshold as int then Error else p.status
    ensures r.lastError == Some(Truncate(error, PortalErrorLimit))
    ensures r.lastCheckedAt == Some(now)
    ensures r == p.(lastCheckedAt := r.lastCheckedAt, lastError := r.lastError,
                    consecutiveErrors := r.consecutiveErrors, status := r.status)
  {
    var n := p.consecutiveErrors.GetOr(0) + 1;
    p.(lastCheckedAt := Some(now), lastError := Some(Truncate(error, PortalErrorLimit)),
       consecutiveErrors := Some(n), status := if n >= ErrorThreshold as int then Error else p.status)
  }

  /** `k` failures in a row. */
  function FailTimes(p: Portal, error: string, now: Time, k: nat): Portal
    decreases k
  {
    if k == 0 then p else HealthOnFailure(FailTimes(p, error, now, k - 1), error, now)
  }

  /** From a healthy portal, `k` failures count `k`; the portal turns ERROR
      exactly when `k` reaches 5 and keeps its status before that. */
  lemma {:induction false} FailuresFromHealthy(p: Portal, error: string, now: Time, k: nat)
    requires p.consecutiveErrors == Some(0)
    ensures FailTimes(p, error, now, k).consecutiveErrors == Some(k)
    ensures k >= ErrorThreshold ==> FailTimes(p, error, now, k).status == Error
    ensures k < ErrorThreshold ==> FailTimes(p, error, now, k).status == p.status
    decreases k
  {
    if k > 0 {
      FailuresFromHealthy(p, error, now, k - 1);
    }
  }

  /** What happened to a portal scan. */
  datatype Event = Succeeded | FailedWith(error: string)

  function Health(p: Portal, e: Event, now: Time): Portal {
    match e
    case Succeeded => HealthOnSuccess(p, now)
    case FailedWith(msg) => HealthOnFailure(p, msg, now)
  }

  /** `db.get(Portal, id)` and the update of its health; no row, no change. */
  function UpdateHealth(ps: seq<Portal>, id: nat, e: Event, now: Time): (r: seq<Portal>)
    ensures |r| == |ps|
    ensures forall i :: 0 <= i < |ps| ==> r[i] == if ps[i].id == id then Health(ps[i], e, now) else ps[i]
  {
    seq(|ps|, i requires 0 <= i < |ps| => if ps[i].id == id then Health(ps[i], e, now) else ps[i])
  }

  /** Health updates touch neither ids nor short names, so the portal
      constraints still hold. */
  lemma UpdateHealthKeepsKeys(ps: seq<Portal>, id: nat, e: Event, now: Time)
    requires UniqueShortNames(ps) && UniquePortalIds(ps)
    ensures UniqueShortNames(UpdateHealth(ps, id, e, now)) && UniquePortalIds(UpdateHealth(ps, id, e, now))
  {
    var r := UpdateHealth(ps, id, e, now);
    assert forall i :: 0 <= i < |ps| ==> r[i].id == ps[i].id && r[i].shortName == ps[i].shortName;
  }

  // ── One portal ────────────────────────────────────────────────────────────

  /** `scraper.search(keywords, date_from)`: the request headers are built
      first (a malformed configuration raises there), then the adapter fetches.
      The adapter's network work is the parameter `fetch`. */
  function SearchWith(s: Scraper, keywords: seq<string>, dateFrom: Time,
                      fetch: (Scraper, seq<string>, Time) -> Result<seq<LicitacionData>, string>): (r: Result<seq<LicitacionData>, string>)
    ensures HeadersError(s.base.config).Some? ==> r == Err(HeadersError(s.base.config).value)
    ensures HeadersError(s.base.config).None? ==> r == fetch(s, keywords, dateFrom)
  {
    match HeadersError(s.base.config)
    case Some(e) => Err(e)
    case None => fetch(s, keywords, dateFrom)
  }

  /** The search fails exactly as building the request headers does, and
      otherwise answers what the adapter fetched; this holds whatever the
      default headers are, the ones `RequestHeaders` sends included. */
  lemma SearchFailsWithHeaders(s: Scraper, base: seq<(string, Json)>, keywords: seq<string>, dateFrom: Time,
                               fetch: (Scraper, seq<string>, Time) -> Result<seq<LicitacionData>, string>)
    ensures ConfiguredHeaders(base, s.base.config).Err? ==>
      SearchWith(s, keywords, dateFrom, fetch) == Err(ConfiguredHeaders(base, s.base.config).error)
    ensures ConfiguredHeaders(base, s.base.config).Ok? ==> SearchWith(s, keywords, dateFrom, fetch) == fetch(s, keywords, dateFrom)
  {
  }

  /** The candidate records of a portal, or the text of the exception. */
  function Fetched(p: Portal, keywords: seq<string>, dateFrom: Time,
                   fetch: (Scraper, seq<string>, Time) -> Result<seq<LicitacionData>, string>): (r: Result<seq<LicitacionData>, string>)
    ensures p.scraperClass !in RegistryKeys() ==> r == Err(UnknownScraperText(p.scraperClass))
    ensures p.scraperClass in RegistryKeys() && (p.scraperConfig.None? || !Truthy(p.scraperConfig.value)) ==>
      r == fetch(GetScraper(p.scraperClass, p.url, p.scraperConfig).value, keywords, dateFrom)
    ensures (p.scraperClass in RegistryKeys() && p.scraperConfig.Some? && Truthy(p.scraperConfig.value)
             && !p.scraperConfig.value.JObj?) ==> r.Err?
  {
    match GetScraper(p.scraperClass, p.url, p.scraperConfig)
    case Err(e) => Err(e)
    case Ok(s) => SearchWith(s, keywords, dateFrom, fetch)
  }

  /** The result of one portal scan: (found, new) or the exception's text,
      and the committed database afterwards. */
  datatype Outcome = Outcome(result: Result<(nat, nat), string>, db: Db)

  /** The rows a successful scan stages over the committed store. */
  function Staged(db: Db, p: Portal, raw: seq<LicitacionData>, keywords: seq<string>, h: string -> Hash): (r: seq<Licitacion>)
    ensures |r| <= |raw|
    ensures StagedRows(r, p.id) && DistinctHashes(r)
    ensures forall i :: 0 <= i < |r| ==> !HashStored(db.licitaciones, p.id, r[i].contentHash)
    ensures NumberedFrom(r, NextId(db.licitaciones, LicitacionId))
  {
    var dd := PreloadCache(NewDeduplicator(), db.licitaciones, p.id);
    var f := ScanFold(raw, Hashes(raw, h), db.licitaciones, p.id, keywords, Fold(dd, []), NextId(db.licitaciones, LicitacionId));
    f.rows
  }

  /** The outcome row a portal scan leaves for its result. */
  predicate OutcomeRow(row: SearchRunPortal, runId: nat, portalId: nat, result: Result<(nat, nat), string>) {
    && row.runId == runId && row.portalId == portalId
    && (result.Ok? ==> row.status == "success" && row.licitacionesFound == result.value.0
                       && row.licitacionesNew == result.value.1 && row.error == None)
    && (result.Err? ==> row.status == "error" && row.error == Some(Truncate(result.error, PortalErrorLimit)))
  }

  /** The commit of a successful scan: the staged tenders, the portal's
      recovered health and the pending "success" row. */
  function CommitScan(db: Db, runId: nat, p: Portal, found: nat, rows: seq<Licitacion>, now: Time): (r: Db)
    requires StagedRows(rows, p.id) && DistinctHashes(rows)
    requires forall i :: 0 <= i < |rows| ==> !HashStored(db.licitaciones, p.id, rows[i].contentHash)
    requires NumberedFrom(rows, NextId(db.licitaciones, LicitacionId))
    ensures r.keywords == db.keywords && r.licitaciones == db.licitaciones + rows
    ensures r.portals == UpdateHealth(db.portals, p.id, Succeeded, now)
    ensures r.runPortals == db.runPortals + [SearchRunPortal(runId, p.id, "success", found, |rows|, None)]
    ensures Valid(db) ==> Valid(r)
  {
    var r := Db(UpdateHealth(db.portals, p.id, Succeeded, now), db.keywords, db.licitaciones + rows,
                db.runPortals + [SearchRunPortal(runId, p.id, "success", found, |rows|, None)]);
    if Valid(db) then
      UpdateHealthKeepsKeys(db.portals, p.id, Succeeded, now);
      CommitKeepsUniqueContent(db.licitaciones, rows, p.id);
      CommitKeepsUniqueIds(db.licitaciones, rows);
      r
    else r
  }

  /** A failed scan: its staged work is rolled back, and a fresh session
      writes an "error" row and the portal's failure. */
  function RecordFailure(db: Db, runId: nat, p: Portal, e: string, now: Time): (r: Db)
    ensures r.keywords == db.keywords && r.licitaciones == db.licitaciones
    ensures r.portals == UpdateHealth(db.portals, p.id, FailedWith(e), now)
    ensures r.runPortals == db.runPortals + [SearchRunPortal(runId, p.id, "error", 0, 0, Some(Truncate(e, PortalErrorLimit)))]
    ensures Valid(db) ==> Valid(r)
  {
    var r := Db(UpdateHealth(db.portals, p.id, FailedWith(e), now), db.keywords, db.licitaciones,
                db.runPortals + [SearchRunPortal(runId, p.id, "error", 0, 0, Some(Truncate(e, PortalErrorLimit)))]);
    if Valid(db) then
      UpdateHealthKeepsKeys(db.portals, p.id, FailedWith(e), now);
      r
    else r
  }

  /** What a portal scan leaves behind, its outcome `o` after database `db`:
      exactly one new outcome row, which records the result; the portal's
      health updated by the result; tenders appended only on success, as
      many as the result's "new" count, which never exceeds "found"; the
      keywords untouched; the schema constraints kept. */
  predicate PortalScanned(db: Db, runId: nat, p: Portal, now: Time, o: Outcome) {
    && o.db.keywords == db.keywords
    && |o.db.runPortals| == |db.runPortals| + 1 && o.db.runPortals[..|db.runPortals|] == db.runPortals
    && OutcomeRow(o.db.runPortals[|db.runPortals|], runId, p.id, o.result)
    && (o.result.Ok? ==> o.result.value.1 <= o.result.value.0)
    && (o.result.Ok? ==> o.db.portals == UpdateHealth(db.portals, p.id, Succeeded, now))
    && (o.result.Err? ==> o.db.portals == UpdateHealth(db.portals, p.id, FailedWith(o.result.error), now))
    && (o.result.Err? ==> o.db.licitaciones == db.licitaciones)
    && (o.result.Ok? ==> |o.db.licitaciones| == |db.licitaciones| + o.result.value.1
                         && o.db.licitaciones[..|db.licitaciones|] == db.licitaciones)
    && (Valid(db) ==> Valid(o.db))
  }

  /** The result reports the fetch: its exception text, or as "found" the
      number of records fetched. */
  predicate Reports(fetched: Result<seq<LicitacionData>, string>, result: Result<(nat, nat), string>) {
    && (fetched.Err? ==> result == Err(fetched.error))
    && (fetched.Ok? ==> result.Ok? && result.value.0 == |fetched.value|)
  }

  /** What a portal scan commits once its fetch has produced `fetched`. */
  function Settle(db: Db, runId: nat, p: Portal, fetched: Result<seq<LicitacionData>, string>,
                  keywords: seq<string>, h: string -> Hash, now: Time): (r: Outcome)
    ensures PortalScanned(db, runId, p, now, r)
    ensures Reports(fetched, r.result)
  {
    match fetched
    case Err(e) => Outcome(Err(e), RecordFailure(db, runId, p, e, now))
    case Ok(raw) =>
      var rows := Staged(db, p, raw, keywords, h);
      var db' := CommitScan(db, runId, p, |raw|, rows, now);
      assert db'.licitaciones[..|db.licitaciones|] == db.licitaciones;
      Outcome(Ok((|raw|, |rows|)), db')
  }

  /** `_scan_portal_isolated` for portal `p` of run `runId`: the outcome is
      an error exactly when building the adapter or fetching raised, and
      "found" counts the fetched records. */
  function ScanPortal(db: Db, runId: nat, p: Portal, keywords: seq<string>, dateFrom: Time,
                      fetch: (Scraper, seq<string>, Time) -> Result<seq<LicitacionData>, string>,
                      h: string -> Hash, now: Time): (r: Outcome)
    ensures PortalScanned(db, runId, p, now, r)
    ensures Reports(Fetched(p, keywords, dateFrom, fetch), r.result)
  {
    Settle(db, runId, p, Fetched(p, keywords, dateFrom, fetch), keywords, h, now)
  }

  // ── All portals ───────────────────────────────────────────────────────────

  datatype Scanned = Scanned(results: seq<Result<(nat, nat), string>>, db: Db)

  /** The outcome rows `rows` record, one per portal and in portal order,
      the results of scanning `portals` whose fetches produced `fetched`:
      each result reports its fetch, and none has more new tenders than found. */
  predicate Recorded(rows: seq<SearchRunPortal>, runId: nat, portals: seq<Portal>,
                     fetched: seq<Result<seq<LicitacionData>, string>>, results: seq<Result<(nat, nat), string>>) {
    && |rows| == |portals| == |fetched| == |results|
    && forall i :: 0 <= i < |portals| ==>
         && OutcomeRow(rows[i], runId, portals[i].id, results[i])
         && Reports(fetched[i], results[i])
         && (results[i].Ok? ==> results[i].value.1 <= results[i].value.0)
  }

  /** What scanning `portals` in order leaves behind, its outcome `r` after
      database `db`: one outcome row per portal appended in portal order and
      recording that portal's result, the keywords untouched, the schema
      constraints kept. */
  predicate AllScanned(db: Db, runId: nat, portals: seq<Portal>, fetched: seq<Result<seq<LicitacionData>, string>>,
                       r: Scanned) {
    && |r.db.runPortals| == |db.runPortals| + |portals|
    && r.db.runPortals[..|db.runPortals|] == db.runPortals
    && Recorded(r.db.runPortals[|db.runPortals|..], runId, portals, fetched, r.results)
    && r.db.keywords == db.keywords
    && (Valid(db) ==> Valid(r.db))
  }

  lemma RecordedSnoc(rows: seq<SearchRunPortal>, row: SearchRunPortal, runId: nat, portals: seq<Portal>, p: Portal,
                     fetched: seq<Result<seq<LicitacionData>, string>>, f: Result<seq<LicitacionData>, string>,
                     results: seq<Result<(nat, nat), string>>, res: Result<(nat, nat), string>)
    requires Recorded(rows, runId, portals, fetched, results)
    requires OutcomeRow(row, runId, p.id, res) && Reports(f, res) && (res.Ok? ==> res.value.1 <= res.value.0)
    ensures Recorded(rows + [row], runId, portals + [p], fetched + [f], results + [res])
  {
    forall i | 0 <= i < |portals|
      ensures (rows + [row])[i] == rows[i] && (portals + [p])[i] == portals[i]
      ensures (fetched + [f])[i] == fetched[i] && (results + [res])[i] == results[i]
    {
    }
  }

  /** Scanning one more portal after the scans of `portals` is a scan of
      them all. */
  lemma ExtendScan(db: Db, runId: nat, portals: seq<Portal>, fetched: seq<Result<seq<LicitacionData>, string>>,
                   r: Scanned, p: Portal, f: Result<seq<LicitacionData>, string>, now: Time, o: Outcome)
    requires AllScanned(db, runId, portals, fetched, r)
    requires PortalScanned(r.db, runId, p, now, o) && Reports(f, o.result)
    ensures AllScanned(db, runId, portals + [p], fetched + [f], Scanned(r.results + [o.result], o.db))
  {
    var n := |db.runPortals|;
    var m := |r.db.runPortals|;
    assert o.db.runPortals[..m][..n] == o.db.runPortals[..n];
    assert o.db.runPortals[n..] == r.db.runPortals[n..] + [o.db.runPortals[m]] by {
      assert o.db.runPortals == r.db.runPortals + [o.db.runPortals[m]];
    }
    RecordedSnoc(r.db.runPortals[n..], o.db.runPortals[m], runId, portals, p, fetched, f, r.results, o.result);
  }

  /** What each portal's adapter returns this run. Building the adapter and
      fetching read only the portal's class, URL and configuration, which a
      scan never changes, so they may be taken before the loop. */
  function Fetches(portals: seq<Portal>, keywords: seq<string>, dateFrom: Time,
                   fetch: (Scraper, seq<string>, Time) -> Result<seq<LicitacionData>, string>): (r: seq<Result<seq<LicitacionData>, string>>)
    ensures |r| == |portals|
    ensures forall i :: 0 <= i < |portals| ==> r[i] == Fetched(portals[i], keywords, dateFrom, fetch)
  {
    seq(|portals|, i requires 0 <= i < |portals| => Fetched(portals[i], keywords, dateFrom, fetch))
  }

  /** `for portal in portals: _scan_portal_isolated(...)`: the portals in
      order, each scan seeing what the previous ones committed; `fetched[i]`
      is what the adapter of `portals[i]` returned. */
  method ScanAll(db: Db, runId: nat, portals: seq<Portal>, fetched: seq<Result<seq<LicitacionData>, string>>,
                 keywords: seq<string>, h: string -> Hash, now: Time) returns (r: Scanned)
    requires |fetched| == |portals|
    ensures AllScanned(db, runId, portals, fetched, r)
  {
    r := Scanned([], db);
    assert db.runPortals[|db.runPortals|..] == [];
    for i := 0 to |portals|
      invariant AllScanned(db, runId, portals[..i], fetched[..i], r)
    {
      var o := Settle(r.db, runId, portals[i], fetched[i], keywords, h, now);
      ExtendScan(db, runId, portals[..i], fetched[..i], r, portals[i], fetched[i], now, o);
      assert portals[..i] + [portals[i]] == portals[..i + 1];
      assert fetched[..i] + [fetched[i]] == fetched[..i + 1];
      r := Scanned(r.results + [o.result], o.db);
    }
    assert portals[..|portals|] == portals && fetched[..|fetched|] == fetched;
  }
}
