/** The portal routes: registration with its validation chain, partial
    update, lookup, deletion and the ordered listing. Each route runs in one
    session that commits on success and rolls back on any exception, so an
    error answer leaves the store as it was. */
module PortalesApi {
  import opened Wrappers
  import opened Json
  import opened Models
  import opened Sorting
  import opened Registry
  import opened Http
  import Orchestrator

  const DefaultScraperClass: string := "GenericMunicipalScraper"
  const NotFoundText: string := "Portal no encontrado"

  /** The body of `POST /api/portales` once validated: `scraper_config`, when
      given, is a JSON object. */
  datatype PortalCreate = PortalCreate(
    name: string,
    shortName: string,
    url: string,
    level: string,
    province: Option<string>,
    municipality: Option<string>,
    scraperClass: string,
    scraperConfig: Option<seq<(string, Json)>>,
    isEnabled: bool)

  /** A body giving only the four required fields: the rest take their defaults. */
  function MinimalCreate(name: string, shortName: string, url: string, level: string): (r: PortalCreate)
    ensures r.scraperClass == DefaultScraperClass && r.isEnabled
    ensures r.province.None? && r.municipality.None? && r.scraperConfig.None?
    ensures r.name == name && r.shortName == shortName && r.url == url && r.level == level
  {
    PortalCreate(name, shortName, url, level, None, None, DefaultScraperClass, None, true)
  }

  /** The default adapter is a registered one, so a minimal body passes the
      first check. */
  lemma DefaultClassRegistered()
    ensures KindOf(DefaultScraperClass) == Some(GenericMunicipal)
  {
  }

  /** The position of the portal whose short name is `shortName`. */
  function FindShortName(ps: seq<Portal>, shortName: string): (r: Option<nat>)
    ensures r.Some? ==> r.value < |ps| && ps[r.value].shortName == shortName
    ensures r.None? ==> forall i :: 0 <= i < |ps| ==> ps[i].shortName != shortName
  {
    FindBy(ps, PortalShortName, shortName)
  }

  /** The key the store gives the next inserted portal: one above every key in use. */
  function NextPortalId(ps: seq<Portal>): (r: nat)
    ensures r >= 1
    ensures forall i :: 0 <= i < |ps| ==> ps[i].id < r
  {
    NextId(ps, PortalId)
  }

  /** The adapter is registered and the short name is free. */
  predicate Admissible(db: Db, req: PortalCreate) {
    KindOf(req.scraperClass).Some? && FindShortName(db.portals, req.shortName).None?
  }

  /** `create_portal`: 400 for an unregistered adapter, then 409 for a taken
      short name, then 400 for an unknown level; otherwise the new row, with
      the column defaults, appended to the store. */
  function CreatePortal(db: Db, req: PortalCreate): (r: Result<(Portal, Db), HttpError>)
    ensures KindOf(req.scraperClass).None? ==> r.Err? && r.error.code == BadRequest
    ensures KindOf(req.scraperClass).Some? && FindShortName(db.portals, req.shortName).Some? ==>
      r.Err? && r.error.code == Conflict
    ensures Admissible(db, req) && LevelFromValue(req.level).None? ==> r.Err? && r.error.code == BadRequest
    ensures r.Ok? <==> Admissible(db, req) && LevelFromValue(req.level).Some?
    ensures r.Ok? ==> var p := r.value.0;
      && r.value.1 == db.(portals := db.portals + [p])
      && (forall i :: 0 <= i < |db.portals| ==> db.portals[i].id != p.id)
      && p.name == req.name && p.shortName == req.shortName && p.url == req.url
      && LevelValue(p.level) == req.level
      && p.province == req.province && p.municipality == req.municipality
      && p.scraperClass == req.scraperClass && p.isEnabled == req.isEnabled
      && (req.scraperConfig.Some? <==> p.scraperConfig.Some?)
      && (req.scraperConfig.Some? ==> p.scraperConfig.value == JObj(req.scraperConfig.value))
      && p.status == Active && p.consecutiveErrors == Some(0)
      && p.lastCheckedAt.None? && p.lastSuccessAt.None? && p.lastError.None?
  {
    if KindOf(req.scraperClass).None? then
      Err(HttpError(BadRequest, "Scraper '" + req.scraperClass + "' no existe. Opciones: " + KeysRepr()))
    else if FindShortName(db.portals, req.shortName).Some? then
      Err(HttpError(Conflict, "Ya existe portal con short_name '" + req.shortName + "'"))
    else
      match LevelFromValue(req.level)
      case None => Err(HttpError(BadRequest, "Level inválido: " + req.level))
      case Some(level) =>
        var config := if req.scraperConfig.Some? then Some(JObj(req.scraperConfig.value)) else None;
        var p := NewPortal(NextPortalId(db.portals), req.name, req.shortName, req.url, level,
                           req.province, req.municipality, req.scraperClass, config, req.isEnabled);
        Ok((p, db.(portals := db.portals + [p])))
  }

  /** Registration keeps short names and keys unique. */
  lemma CreatePortalKeepsValid(db: Db, req: PortalCreate)
    requires Valid(db) && CreatePortal(db, req).Ok?
    ensures Valid(CreatePortal(db, req).value.1)
  {
    var p := CreatePortal(db, req).value.0;
    var ps := db.portals + [p];
    assert forall i :: 0 <= i < |db.portals| ==> ps[i] == db.portals[i];
  }

  /** Once a short name is registered, registering it again is refused with
      409 (whenever the adapter check passes). */
  lemma {:induction false} CreateTwiceConflicts(db: Db, req: PortalCreate, again: PortalCreate)
    requires CreatePortal(db, req).Ok?
    requires again.shortName == req.shortName && KindOf(again.scraperClass).Some?
    ensures CreatePortal(CreatePortal(db, req).value.1, again).Err?
    ensures CreatePortal(CreatePortal(db, req).value.1, again).error.code == Conflict
  {
    var db1 := CreatePortal(db, req).value.1;
    var n := |db1.portals| - 1;
    assert db1.portals[n].shortName == again.shortName;
  }

  /** `_get_or_404` followed by serialisation: the row with that key. */
  function GetPortal(db: Db, id: nat): (r: Result<Portal, HttpError>)
    ensures r.Err? <==> forall i :: 0 <= i < |db.portals| ==> db.portals[i].id != id
    ensures r.Err? ==> r.error == HttpError(NotFound, NotFoundText)
    ensures r.Ok? ==> r.value in db.portals && r.value.id == id
  {
    match FindPortal(db.portals, id)
    case None => Err(HttpError(NotFound, NotFoundText))
    case Some(i) => Ok(db.portals[i])
  }

  // ── `update_portal` ───────────────────────────────────────────────────────

  /** The body of `PATCH /api/portales/{id}`: each field is optional. */
  datatype PortalUpdate = PortalUpdate(
    name: Option<string>,
    url: Option<string>,
    isEnabled: Option<bool>,
    scraperConfig: Option<seq<(string, Json)>>)

  /** The four assignments guarded by `is not None`. */
  function ApplyUpdate(p: Portal, u: PortalUpdate): (r: Portal)
    ensures r.name == u.name.GetOr(p.name) && r.url == u.url.GetOr(p.url)
    ensures r.isEnabled == u.isEnabled.GetOr(p.isEnabled)
    ensures u.scraperConfig.Some? ==> r.scraperConfig == Some(JObj(u.scraperConfig.value))
    ensures u.scraperConfig.None? ==> r.scraperConfig == p.scraperConfig
    ensures r.(name := p.name, url := p.url, isEnabled := p.isEnabled, scraperConfig := p.scraperConfig) == p
  {
    var p1 := if u.name.Some? then p.(name := u.name.value) else p;
    var p2 := if u.url.Some? then p1.(url := u.url.value) else p1;
    var p3 := if u.isEnabled.Some? then p2.(isEnabled := u.isEnabled.value) else p2;
    if u.scraperConfig.Some? then p3.(scraperConfig := Some(JObj(u.scraperConfig.value))) else p3
  }

  /** An empty body changes nothing, and sending the same body twice is
      sending it once. */
  lemma ApplyUpdateIdempotent(p: Portal, u: PortalUpdate)
    ensures ApplyUpdate(p, PortalUpdate(None, None, None, None)) == p
    ensures ApplyUpdate(ApplyUpdate(p, u), u) == ApplyUpdate(p, u)
  {
  }

  /** `update_portal`: 404 for an unknown key; otherwise that row updated in
      place and every other row untouched. */
  function UpdatePortal(db: Db, id: nat, u: PortalUpdate): (r: Result<(Portal, Db), HttpError>)
    ensures r.Err? <==> FindPortal(db.portals, id).None?
    ensures r.Err? ==> r.error == HttpError(NotFound, NotFoundText)
    ensures r.Ok? ==> var i := FindPortal(db.portals, id).value;
      && r.value.0 == ApplyUpdate(db.portals[i], u)
      && r.value.1 == db.(portals := db.portals[i := r.value.0])
  {
    match FindPortal(db.portals, id)
    case None => Err(HttpError(NotFound, NotFoundText))
    case Some(i) =>
      var p := ApplyUpdate(db.portals[i], u);
      Ok((p, db.(portals := db.portals[i := p])))
  }

  /** An update never touches a short name or a key, so the store stays valid. */
  lemma UpdatePortalKeepsValid(db: Db, id: nat, u: PortalUpdate)
    requires Valid(db) && UpdatePortal(db, id, u).Ok?
    ensures Valid(UpdatePortal(db, id, u).value.1)
  {
    var ps := UpdatePortal(db, id, u).value.1.portals;
    assert forall j :: 0 <= j < |ps| ==> ps[j].shortName == db.portals[j].shortName && ps[j].id == db.portals[j].id;
  }

  // ── `delete_portal` ───────────────────────────────────────────────────────

  /** Whether some tender or outcome row points at the portal. */
  predicate Referenced(db: Db, id: nat) {
    || (exists i :: 0 <= i < |db.licitaciones| && db.licitaciones[i].portalId == id)
    || (exists i :: 0 <= i < |db.runPortals| && db.runPortals[i].portalId == id)
  }

  /** The rows without the one at position `i`. */
  function RemoveAt<T>(s: seq<T>, i: nat): (r: seq<T>)
    requires i < |s|
    ensures |r| == |s| - 1
    ensures forall j :: 0 <= j < i ==> r[j] == s[j]
    ensures forall j :: i <= j < |r| ==> r[j] == s[j + 1]
  {
    s[..i] + s[i + 1..]
  }

  /** `delete_portal`: 404 for an unknown key. The relationships declare no
      cascade, so deleting a portal that tenders or outcome rows point at
      sets their non-null `portal_id` to NULL; the flush fails and the
      session rolls back (a 500 answer, store unchanged). Otherwise the row
      is removed. */
  function DeletePortal(db: Db, id: nat): (r: Result<Db, HttpError>)
    ensures FindPortal(db.portals, id).None? ==> r == Err(HttpError(NotFound, NotFoundText))
    ensures FindPortal(db.portals, id).Some? ==> (r.Err? <==> Referenced(db, id))
    ensures r.Err? && FindPortal(db.portals, id).Some? ==> r.error.code == ServerError
    ensures r.Ok? ==> var i := FindPortal(db.portals, id).value;
      && r.value == db.(portals := RemoveAt(db.portals, i))
  {
    match FindPortal(db.portals, id)
    case None => Err(HttpError(NotFound, NotFoundText))
    case Some(i) =>
      if Referenced(db, id) then Err(HttpError(ServerError, "IntegrityError: NOT NULL constraint failed"))
      else Ok(db.(portals := RemoveAt(db.portals, i)))
  }

  /** After a deletion the store is still valid and the key is gone: a second
      lookup answers 404. */
  lemma DeletePortalRemoves(db: Db, id: nat)
    requires Valid(db) && DeletePortal(db, id).Ok?
    ensures Valid(DeletePortal(db, id).value)
    ensures GetPortal(DeletePortal(db, id).value, id).Err?
  {
    var i := FindPortal(db.portals, id).value;
    var ps := DeletePortal(db, id).value.portals;
    forall a, b | 0 <= a < b < |ps|
      ensures ps[a].shortName != ps[b].shortName && ps[a].id != ps[b].id
    {
      var a' := if a < i then a else a + 1;
      var b' := if b < i then b else b + 1;
      assert ps[a] == db.portals[a'] && ps[b] == db.portals[b'] && a' < b';
    }
    forall j | 0 <= j < |ps| ensures ps[j].id != id {
      var j' := if j < i then j else j + 1;
      assert ps[j] == db.portals[j'] && j' != i;
    }
  }

  // ── `list_portales` ───────────────────────────────────────────────────────

  /** `list_portales`: every row once, ordered by level, then name. */
  function ListPortales(db: Db, b: Backend): (r: seq<Portal>)
    ensures multiset(r) == multiset(db.portals)
    ensures forall i, j :: 0 <= i < j < |r| ==>
      LevelRank(b, r[i].level) < LevelRank(b, r[j].level)
      || (LevelRank(b, r[i].level) == LevelRank(b, r[j].level) && StrLe(r[i].name, r[j].name))
  {
    Orchestrator.ByLevelThenNameTotal(b);
    var r := Sort(db.portals, Orchestrator.ByLevelThenName(b));
    assert SortedBy(r, Orchestrator.ByLevelThenName(b));
    r
  }
}
