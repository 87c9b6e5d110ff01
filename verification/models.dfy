/** The persistent entities of the monitor: the four closed enumerations,
    the portal, keyword, tender and run rows with their defaults, and the
    uniqueness constraints of the schema. The store is a value: one sequence
    of rows per table, in insertion order. */
module Models {
  import opened Wrappers
  import opened Json

  /** Opaque timestamps (UTC instants, in seconds). */
  type Time = int

  /** A content hash: the hex digest of the record's preimage. */
  type Hash = string

  // ── Enumerations ───────────────────────────────────────────────────────────

  datatype PortalLevel = Nacional | Provincial | Municipal

  datatype PortalStatus = Active | Inactive | Error

  datatype RunStatus = Running | Success | Partial | Failed

  datatype LicitacionStatus = Nueva | Vista | Descartada | Favorita

  function LevelValue(l: PortalLevel): string {
    match l
    case Nacional => "nacional"
    case Provincial => "provincial"
    case Municipal => "municipal"
  }

  /** `PortalLevel(s)`: the member whose value is `s`; `None` where Python raises ValueError. */
  function LevelFromValue(s: string): (r: Option<PortalLevel>)
    ensures r.Some? ==> LevelValue(r.value) == s
    ensures forall l :: LevelValue(l) == s ==> r == Some(l)
  {
    if s == "nacional" then Some(Nacional)
    else if s == "provincial" then Some(Provincial)
    else if s == "municipal" then Some(Municipal)
    else None
  }

  function PortalStatusValue(st: PortalStatus): string {
    match st
    case Active => "active"
    case Inactive => "inactive"
    case Error => "error"
  }

  function PortalStatusFromValue(s: string): (r: Option<PortalStatus>)
    ensures r.Some? ==> PortalStatusValue(r.value) == s
    ensures forall st :: PortalStatusValue(st) == s ==> r == Some(st)
  {
    if s == "active" then Some(Active)
    else if s == "inactive" then Some(Inactive)
    else if s == "error" then Some(Error)
    else None
  }

  function RunStatusValue(st: RunStatus): string {
    match st
    case Running => "running"
    case Success => "success"
    case Partial => "partial"
    case Failed => "failed"
  }

  function RunStatusFromValue(s: string): (r: Option<RunStatus>)
    ensures r.Some? ==> RunStatusValue(r.value) == s
    ensures forall st :: RunStatusValue(st) == s ==> r == Some(st)
  {
    if s == "running" then Some(Running)
    else if s == "success" then Some(Success)
    else if s == "partial" then Some(Partial)
    else if s == "failed" then Some(Failed)
    else None
  }

  function LicitacionStatusValue(st: LicitacionStatus): string {
    match st
    case Nueva => "nueva"
    case Vista => "vista"
    case Descartada => "descartada"
    case Favorita => "favorita"
  }

  function LicitacionStatusFromValue(s: string): (r: Option<LicitacionStatus>)
    ensures r.Some? ==> LicitacionStatusValue(r.value) == s
    ensures forall st :: LicitacionStatusValue(st) == s ==> r == Some(st)
  {
    if s == "nueva" then Some(Nueva)
    else if s == "vista" then Some(Vista)
    else if s == "descartada" then Some(Descartada)
    else if s == "favorita" then Some(Favorita)
    else None
  }

  /** Each enumeration is a closed set: exactly 3, 3, 4 and 4 accepted values. */
  lemma EnumsClosed()
    ensures forall s :: LevelFromValue(s).Some? <==> s in {"nacional", "provincial", "municipal"}
    ensures forall s :: PortalStatusFromValue(s).Some? <==> s in {"active", "inactive", "error"}
    ensures forall s :: RunStatusFromValue(s).Some? <==> s in {"running", "success", "partial", "failed"}
    ensures forall s :: LicitacionStatusFromValue(s).Some? <==>
      s in {"nueva", "vista", "descartada", "favorita"}
    ensures |{"nacional", "provincial", "municipal"}| == 3
    ensures |{"active", "inactive", "error"}| == 3
    ensures |{"running", "success", "partial", "failed"}| == 4
    ensures |{"nueva", "vista", "descartada", "favorita"}| == 4
  {
  }

  /** Which database engine answers the queries: it decides how `ORDER BY level` sorts. */
  datatype Backend = Sqlite | Postgres

  /** Sort rank of a level. The enum column stores member names; SQLite
      compares them as text (MUNICIPAL < NACIONAL < PROVINCIAL), PostgreSQL
      by the declaration order of its native enum type. */
  function LevelRank(b: Backend, l: PortalLevel): (r: nat)
    ensures r < 3
  {
    match (b, l)
    case (Postgres, Nacional) => 0
    case (Postgres, Provincial) => 1
    case (Postgres, Municipal) => 2
    case (Sqlite, Municipal) => 0
    case (Sqlite, Nacional) => 1
    case (Sqlite, Provincial) => 2
  }

  /** Distinct levels sort apart on either backend. */
  lemma LevelRankInjective(b: Backend, l1: PortalLevel, l2: PortalLevel)
    ensures LevelRank(b, l1) == LevelRank(b, l2) <==> l1 == l2
  {
  }

  // ── Rows ───────────────────────────────────────────────────────────────────

  datatype Portal = Portal(
    id: nat,
    name: string,
    shortName: string,
    url: string,
    level: PortalLevel,
    province: Option<string>,
    municipality: Option<string>,
    scraperClass: string,
    scraperConfig: Option<Json>,
    status: PortalStatus,
    isEnabled: bool,
    lastCheckedAt: Option<Time>,
    lastSuccessAt: Option<Time>,
    lastError: Option<string>,
    consecutiveErrors: Option<int>)

  /** A portal row as first inserted: the column defaults fill status,
      enablement and the error counter. */
  function NewPortal(id: nat, name: string, shortName: string, url: string, level: PortalLevel,
                     province: Option<string>, municipality: Option<string>,
                     scraperClass: string, scraperConfig: Option<Json>, isEnabled: bool): (r: Portal)
    ensures r.status == Active && r.consecutiveErrors == Some(0) && r.isEnabled == isEnabled
    ensures r.lastCheckedAt.None? && r.lastSuccessAt.None? && r.lastError.None?
    ensures r.id == id && r.shortName == shortName && r.url == url && r.scraperClass == scraperClass
  {
    Portal(id, name, shortName, url, level, province, municipality, scraperClass, scraperConfig,
           Active, isEnabled, None, None, None, Some(0))
  }

  datatype Keyword = Keyword(
    id: nat,
    term: string,
    category: Option<string>,
    isActive: bool,
    priority: int)

  datatype Licitacion = Licitacion(
    id: nat,
    portalId: nat,
    externalId: Option<string>,
    contentHash: Hash,
    titulo: string,
    descripcion: Option<string>,
    numeroExpediente: Option<string>,
    numeroLicitacion: Option<string>,
    organismo: Option<string>,
    tipoContratacion: Option<string>,
    montoEstimado: Option<real>,
    moneda: Option<string>,
    fechaPublicacion: Option<Time>,
    fechaApertura: Option<Time>,
    fechaCierre: Option<Time>,
    urlDetalle: Option<string>,
    urlPliego: Option<string>,
    matchedKeywords: seq<string>,
    relevanceScore: real,
    status: LicitacionStatus,
    isNew: bool,
    rawData: Json)

  /** One entry of a run's `error_details`: the outer failure records no portal. */
  datatype ErrorDetail = ErrorDetail(portal: Option<string>, error: string)

  datatype SearchRun = SearchRun(
    id: nat,
    status: RunStatus,
    triggeredBy: string,
    startedAt: Time,
    finishedAt: Option<Time>,
    portalsScanned: nat,
    portalsFailed: nat,
    licitacionesFound: nat,
    licitacionesNew: nat,
    keywordsUsed: Option<seq<string>>,
    errorDetails: Option<seq<ErrorDetail>>)

  /** A run row as first inserted: RUNNING with every counter at zero. */
  function NewSearchRun(id: nat, triggeredBy: string, startedAt: Time): (r: SearchRun)
    ensures r.status == Running && r.finishedAt == None
    ensures r.portalsScanned == 0 && r.portalsFailed == 0
    ensures r.licitacionesFound == 0 && r.licitacionesNew == 0
  {
    SearchRun(id, Running, triggeredBy, startedAt, None, 0, 0, 0, 0, None, None)
  }

  datatype SearchRunPortal = SearchRunPortal(
    runId: nat,
    portalId: nat,
    status: string,
    licitacionesFound: nat,
    licitacionesNew: nat,
    error: Option<string>)

  /** The committed contents of the database. */
  datatype Db = Db(
    portals: seq<Portal>,
    keywords: seq<Keyword>,
    licitaciones: seq<Licitacion>,
    runPortals: seq<SearchRunPortal>)

  // ── Constraints ────────────────────────────────────────────────────────────

  /** `portals.short_name` is unique. */
  predicate UniqueShortNames(ps: seq<Portal>) {
    forall i, j :: 0 <= i < j < |ps| ==> ps[i].shortName != ps[j].shortName
  }

  /** `keywords.term` is unique. */
  predicate UniqueTerms(ks: seq<Keyword>) {
    forall i, j :: 0 <= i < j < |ks| ==> ks[i].term != ks[j].term
  }

  /** `uq_portal_contenthash`: no two tenders share (portal_id, content_hash). */
  predicate UniqueContent(ls: seq<Licitacion>) {
    forall i, j :: 0 <= i < j < |ls| ==>
      (ls[i].portalId, ls[i].contentHash) != (ls[j].portalId, ls[j].contentHash)
  }

  /** Primary keys are distinct. */
  predicate UniquePortalIds(ps: seq<Portal>) {
    forall i, j :: 0 <= i < j < |ps| ==> ps[i].id != ps[j].id
  }

  predicate UniqueLicitacionIds(ls: seq<Licitacion>) {
    forall i, j :: 0 <= i < j < |ls| ==> ls[i].id != ls[j].id
  }

  predicate UniqueKeywordIds(ks: seq<Keyword>) {
    forall i, j :: 0 <= i < j < |ks| ==> ks[i].id != ks[j].id
  }

  /** Every constraint of the schema holds. */
  predicate Valid(db: Db) {
    && UniqueShortNames(db.portals) && UniquePortalIds(db.portals)
    && UniqueTerms(db.keywords) && UniqueKeywordIds(db.keywords)
    && UniqueContent(db.licitaciones) && UniqueLicitacionIds(db.licitaciones)
  }

  /** The stored content hashes of one portal. */
  function HashesOf(ls: seq<Licitacion>, portalId: nat): (r: set<Hash>)
    ensures forall h :: h in r <==> exists i :: 0 <= i < |ls| && ls[i].portalId == portalId && ls[i].contentHash == h
  {
    set i | 0 <= i < |ls| && ls[i].portalId == portalId :: ls[i].contentHash
  }

  /** A lookup of one row by a column value: the position of a row whose
      `key` is `k`, or None when no row has it. */
  function FindBy<T, K(==)>(rows: seq<T>, key: T -> K, k: K): (r: Option<nat>)
    ensures r.Some? ==> r.value < |rows| && key(rows[r.value]) == k
    ensures r.None? ==> forall i :: 0 <= i < |rows| ==> key(rows[i]) != k
    decreases |rows|
  {
    if rows == [] then None
    else if key(rows[|rows| - 1]) == k then Some(|rows| - 1)
    else FindBy(rows[..|rows| - 1], key, k)
  }

  /** The lookup reads only the column: rows with the same column values
      are found at the same place. */
  lemma {:induction false} FindBySameKeys<T, U, K>(a: seq<T>, ka: T -> K, b: seq<U>, kb: U -> K, k: K)
    requires |a| == |b| && forall i :: 0 <= i < |a| ==> ka(a[i]) == kb(b[i])
    ensures FindBy(a, ka, k) == FindBy(b, kb, k)
    decreases |a|
  {
    if a != [] {
      var n := |a| - 1;
      FindBySameKeys(a[..n], ka, b[..n], kb, k);
    }
  }

  /** The key an autoincrement column gives the next inserted row: one
      above every key in use. */
  function NextId<T>(rows: seq<T>, id: T -> nat): (r: nat)
    ensures r >= 1
    ensures forall i :: 0 <= i < |rows| ==> id(rows[i]) < r
    decreases |rows|
  {
    if rows == [] then 1
    else
      var rest := NextId(rows[..|rows| - 1], id);
      if id(rows[|rows| - 1]) < rest then rest else id(rows[|rows| - 1]) + 1
  }

  function PortalId(p: Portal): nat { p.id }
  function PortalShortName(p: Portal): string { p.shortName }
  function KeywordId(k: Keyword): nat { k.id }
  function KeywordTerm(k: Keyword): string { k.term }
  function LicitacionId(l: Licitacion): nat { l.id }

  /** `db.get(Portal, id)`: the position of the row with that primary key. */
  function FindPortal(ps: seq<Portal>, id: nat): (r: Option<nat>)
    ensures r.Some? ==> r.value < |ps| && ps[r.value].id == id
    ensures r.None? ==> forall i :: 0 <= i < |ps| ==> ps[i].id != id
  {
    FindBy(ps, PortalId, id)
  }

  /** `db.get(Keyword, id)`. */
  function FindKeyword(ks: seq<Keyword>, id: nat): (r: Option<nat>)
    ensures r.Some? ==> r.value < |ks| && ks[r.value].id == id
    ensures r.None? ==> forall i :: 0 <= i < |ks| ==> ks[i].id != id
  {
    FindBy(ks, KeywordId, id)
  }
}
