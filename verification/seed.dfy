/** First-run seeding: the default forensic keywords when the keyword table
    is empty, and the portals of the registry file (or four built-in ones)
    when the portal table is empty, all in one session that commits on
    success and rolls back on any exception. */
module Seed {
  import opened Wrappers
  import opened Json
  import opened Models

  // ── Default keywords ──────────────────────────────────────────────────────

  datatype DefaultKeyword = DefaultKeyword(term: string, category: string, priority: int)

  /** `DEFAULT_KEYWORDS`, in order. The accented and unaccented spellings of
      "dactiloscopia" are two distinct terms. */
  function DefaultKeywords(): seq<DefaultKeyword> {
    [ DefaultKeyword("equipos forenses", "equipamiento", 10),
      DefaultKeyword("criminalistica", "especialidad", 10),
      DefaultKeyword("laboratorio forense", "infraestructura", 9),
      DefaultKeyword("investigacion criminal", "especialidad", 9),
      DefaultKeyword("pericias", "especialidad", 8),
      DefaultKeyword("ADN", "genetica", 8),
      DefaultKeyword("balistica", "especialidad", 8),
      DefaultKeyword("software forense", "software", 8),
      DefaultKeyword("caligrafo", "especialidad", 7),
      DefaultKeyword("grafologo", "especialidad", 7),
      DefaultKeyword("analisis de documentos", "documentologia", 7),
      DefaultKeyword("microscopio forense", "equipamiento", 7),
      DefaultKeyword("kit forense", "equipamiento", 8),
      DefaultKeyword("luminol", "reactivos", 6),
      DefaultKeyword("dactiloscopía", "especialidad", 7),
      DefaultKeyword("dactiloscopia", "especialidad", 7),
      DefaultKeyword("huellas digitales", "especialidad", 6),
      DefaultKeyword("toxicologia", "especialidad", 7),
      DefaultKeyword("medicina legal", "especialidad", 7) ]
  }

  /** The nineteen default terms are pairwise distinct, as the unique term
      column requires, and every priority lies in 1..10. */
  lemma DefaultKeywordsWellFormed()
    ensures |DefaultKeywords()| == 19
    ensures forall i, j :: 0 <= i < j < |DefaultKeywords()| ==> DefaultKeywords()[i].term != DefaultKeywords()[j].term
    ensures forall i :: 0 <= i < |DefaultKeywords()| ==> 1 <= DefaultKeywords()[i].priority <= 10
  {
    DefaultKeywordCount();
    DefaultTermsDistinct();
    DefaultPrioritiesInRange();
  }

  lemma DefaultKeywordCount()
    ensures |DefaultKeywords()| == 19
  {
  }

  lemma DefaultTermsDistinct()
    ensures forall i, j :: 0 <= i < j < |DefaultKeywords()| ==> DefaultKeywords()[i].term != DefaultKeywords()[j].term
  {
  }

  lemma DefaultPrioritiesInRange()
    ensures forall i :: 0 <= i < |DefaultKeywords()| ==> 1 <= DefaultKeywords()[i].priority <= 10
  {
  }

  /** `Keyword(**kw_data)` for each default, keys from `start` on; the
      column default makes each one active. */
  function KeywordRows(start: nat): (r: seq<Keyword>)
    ensures |r| == |DefaultKeywords()|
    ensures forall i :: 0 <= i < |r| ==>
      && r[i].id == start + i && r[i].term == DefaultKeywords()[i].term
      && r[i].category == Some(DefaultKeywords()[i].category)
      && r[i].priority == DefaultKeywords()[i].priority && r[i].isActive
  {
    var ks := DefaultKeywords();
    seq(|ks|, i requires 0 <= i < |ks| => Keyword(start + i, ks[i].term, Some(ks[i].category), true, ks[i].priority))
  }

  // ── Portals ───────────────────────────────────────────────────────────────

  /** The constructor arguments of one seeded portal (the row before the
      store gives it a key). */
  datatype PortalSeed = PortalSeed(
    name: string,
    shortName: string,
    url: string,
    level: PortalLevel,
    province: Option<string>,
    municipality: Option<string>,
    scraperClass: string,
    scraperConfig: Option<Json>,
    isEnabled: bool)

  const BuenosAires: string := "Buenos Aires"

  /** `_default_portals()`: the four built-in portals. */
  function DefaultPortals(): seq<PortalSeed> {
    [ PortalSeed("Argentina Compra (COMPR.AR)", "comprar", "https://www.argentinacompra.gob.ar",
                 Nacional, None, None, "ComprarScraper", None, true),
      PortalSeed("Boletín Oficial de la República Argentina", "boletin-nacional", "https://www.boletinoficial.gob.ar",
                 Nacional, None, None, "BoletinNacionalScraper", None, true),
      PortalSeed("Portal Buenos Aires Compra (PBAC)", "pbac", "https://pbac.cgpba.gob.ar",
                 Provincial, Some(BuenosAires), None, "PortalComprasPBAScraper", None, true),
      PortalSeed("Boletín Oficial Provincia de Buenos Aires", "boletin-pba", "https://www.boletinoficial.gba.gov.ar",
                 Provincial, Some(BuenosAires), None, "BoletinOficialPBAScraper", None, true) ]
  }

  /** Seed short names are pairwise distinct. */
  predicate DistinctShortNames(ss: seq<PortalSeed>) {
    forall i, j :: 0 <= i < j < |ss| ==> ss[i].shortName != ss[j].shortName
  }

  /** The built-in portals are two national and two provincial ones, all
      enabled, with distinct short names. */
  lemma DefaultPortalsWellFormed()
    ensures |DefaultPortals()| == 4 && DistinctShortNames(DefaultPortals())
    ensures forall i :: 0 <= i < 4 ==> DefaultPortals()[i].isEnabled
    ensures DefaultPortals()[0].level == Nacional && DefaultPortals()[1].level == Nacional
    ensures DefaultPortals()[2].level == Provincial && DefaultPortals()[3].level == Provincial
  {
  }

  /** `p[k]` for a text column: KeyError when the key is absent. */
  function RequiredText(f: seq<(string, Json)>, k: string): (r: Result<string, string>)
    ensures r.Ok? <==> Lookup(f, k).Some? && Lookup(f, k).value.JStr?
    ensures r.Ok? ==> r.value == Lookup(f, k).value.s
  {
    match Lookup(f, k)
    case None => Err("KeyError: '" + k + "'")
    case Some(JStr(s)) => Ok(s)
    case Some(v) => Err("'" + k + "' is not text")
  }

  /** `p.get(k)` for a nullable text column. */
  function OptionalText(f: seq<(string, Json)>, k: string): (r: Result<Option<string>, string>)
    ensures r.Err? <==> !Get(f, k).JNull? && !Get(f, k).JStr?
    ensures Get(f, k).JNull? ==> r == Ok(None)
    ensures Get(f, k).JStr? ==> r == Ok(Some(Get(f, k).s))
  {
    match Get(f, k)
    case JNull => Ok(None)
    case JStr(s) => Ok(Some(s))
    case _ => Err("'" + k + "' is not text")
  }

  /** A key that `p[...]` reads is absent. */
  predicate MissingRequired(f: seq<(string, Json)>) {
    || Lookup(f, "name").None? || Lookup(f, "short_name").None? || Lookup(f, "url").None?
    || Lookup(f, "level").None? || Lookup(f, "scraper_class").None?
  }

  /** One registry entry as a `Portal(...)` call: a non-object entry, a
      missing required key or an unknown level raises. */
  function ParseEntry(p: Json): (r: Result<PortalSeed, string>)
    ensures !p.JObj? ==> r.Err?
    ensures p.JObj? && Get(p.fields, "level").JStr? && LevelFromValue(Get(p.fields, "level").s).None? ==> r.Err?
    ensures p.JObj? && MissingRequired(p.fields) ==> r.Err?
    ensures r.Ok? ==> p.JObj? && var f := p.fields;
      && Lookup(f, "name") == Some(JStr(r.value.name))
      && Lookup(f, "short_name") == Some(JStr(r.value.shortName))
      && Lookup(f, "url") == Some(JStr(r.value.url))
      && Lookup(f, "scraper_class") == Some(JStr(r.value.scraperClass))
      && Lookup(f, "level") == Some(JStr(LevelValue(r.value.level)))
      && (Lookup(f, "is_enabled").None? ==> r.value.isEnabled)
      && (Lookup(f, "is_enabled").Some? ==> Lookup(f, "is_enabled") == Some(JBool(r.value.isEnabled)))
      && (r.value.scraperConfig.None? <==> Get(f, "scraper_config").JNull?)
      && (r.value.scraperConfig.Some? ==> r.value.scraperConfig.value == Get(f, "scraper_config"))
  {
    if !p.JObj? then Err("TypeError: '" + TypeName(p) + "' object is not subscriptable")
    else
      var f := p.fields;
      var name :- RequiredText(f, "name");
      var shortName :- RequiredText(f, "short_name");
      var url :- RequiredText(f, "url");
      var levelText :- RequiredText(f, "level");
      match LevelFromValue(levelText)
      case None => Err("ValueError: '" + levelText + "' is not a valid PortalLevel")
      case Some(level) =>
        var province :- OptionalText(f, "province");
        var municipality :- OptionalText(f, "municipality");
        var scraperClass :- RequiredText(f, "scraper_class");
        var config := if Get(f, "scraper_config").JNull? then None else Some(Get(f, "scraper_config"));
        match GetOr(f, "is_enabled", JBool(true))
        case JBool(enabled) =>
          Ok(PortalSeed(name, shortName, url, level, province, municipality, scraperClass, config, enabled))
        case _ => Err("'is_enabled' is not a boolean")
  }

  /** Every entry parsed, or the first failure: one raise abandons the list. */
  function ParseEntries(ps: seq<Json>): (r: Result<seq<PortalSeed>, string>)
    ensures r.Ok? <==> forall i :: 0 <= i < |ps| ==> ParseEntry(ps[i]).Ok?
    ensures r.Ok? ==> |r.value| == |ps| && forall i :: 0 <= i < |ps| ==> r.value[i] == ParseEntry(ps[i]).value
  {
    if forall i :: 0 <= i < |ps| ==> ParseEntry(ps[i]).Ok? then
      Ok(seq(|ps|, i requires 0 <= i < |ps| && ParseEntry(ps[i]).Ok? => ParseEntry(ps[i]).value))
    else Err("registry entry rejected")
  }

  /** What reading `data/portals_registry.json` gives. */
  datatype RegistryFile = Missing | Unreadable | Parsed(data: Json)

  /** `data.get("portals", [])` iterated: the document must be an object and
      the member iterable (a string or object iterates into strings, which
      then fail as entries). */
  function RegistryEntries(data: Json): (r: Result<seq<Json>, string>)
    ensures !data.JObj? ==> r.Err?
    ensures data.JObj? && Lookup(data.fields, "portals").None? ==> r == Ok([])
    ensures data.JObj? && Get(data.fields, "portals").JArr? ==> r == Ok(Get(data.fields, "portals").items)
  {
    if !data.JObj? then Err("'" + TypeName(data) + "' object has no attribute 'get'")
    else Elements(GetOr(data.fields, "portals", JArr([])))
  }

  /** `_load_portals_from_registry()`: the registry's portals when the file
      exists, parses and every entry maps; the four built-in portals when
      the file is missing or anything raises. */
  function LoadPortalsFromRegistry(file: RegistryFile): (r: seq<PortalSeed>)
    ensures file.Missing? || file.Unreadable? ==> r == DefaultPortals()
    ensures file.Parsed? ==> var es := RegistryEntries(file.data);
      && (es.Err? || ParseEntries(es.value).Err? ==> r == DefaultPortals())
      && (es.Ok? && ParseEntries(es.value).Ok? ==> r == ParseEntries(es.value).value)
  {
    match file
    case Missing => DefaultPortals()
    case Unreadable => DefaultPortals()
    case Parsed(data) =>
      match RegistryEntries(data)
      case Err(_) => DefaultPortals()
      case Ok(es) =>
        match ParseEntries(es)
        case Err(_) => DefaultPortals()
        case Ok(ss) => ss
  }

  /** A registry entry without `is_enabled` seeds an enabled portal. */
  lemma {:induction false} RegistryPortalEnabledByDefault(file: RegistryFile, i: nat)
    requires file.Parsed? && RegistryEntries(file.data).Ok?
    requires ParseEntries(RegistryEntries(file.data).value).Ok?
    requires i < |RegistryEntries(file.data).value|
    requires RegistryEntries(file.data).value[i].JObj?
    requires Lookup(RegistryEntries(file.data).value[i].fields, "is_enabled").None?
    ensures i < |LoadPortalsFromRegistry(file)| && LoadPortalsFromRegistry(file)[i].isEnabled
  {
    var es := RegistryEntries(file.data).value;
    assert LoadPortalsFromRegistry(file)[i] == ParseEntry(es[i]).value;
  }

  /** The row of a seed under key `id`, with the column defaults. */
  function PortalRow(s: PortalSeed, id: nat): (r: Portal)
    ensures r.id == id && r.shortName == s.shortName && r.name == s.name && r.level == s.level
    ensures r.isEnabled == s.isEnabled && r.status == Active && r.consecutiveErrors == Some(0)
  {
    NewPortal(id, s.name, s.shortName, s.url, s.level, s.province, s.municipality,
              s.scraperClass, s.scraperConfig, s.isEnabled)
  }

  /** The seeds' rows, keys from `start` on. */
  function PortalRows(ss: seq<PortalSeed>, start: nat): (r: seq<Portal>)
    ensures |r| == |ss|
    ensures forall i :: 0 <= i < |r| ==> r[i] == PortalRow(ss[i], start + i)
  {
    seq(|ss|, i requires 0 <= i < |ss| => PortalRow(ss[i], start + i))
  }

  // ── `seed_initial_data` ───────────────────────────────────────────────────

  /** `seed_initial_data()`: the default keywords when no keyword exists;
      the loaded portals when no portal exists, decided independently. The
      loaded list may repeat a short name (the registry is not checked): the
      flush then violates the unique column and the whole session, keywords
      included, rolls back. */
  function SeedInitialData(db: Db, file: RegistryFile): (r: Result<Db, string>)
    ensures r.Err? <==> db.portals == [] && !DistinctShortNames(LoadPortalsFromRegistry(file))
    ensures r.Ok? ==> r.value.licitaciones == db.licitaciones && r.value.runPortals == db.runPortals
    ensures r.Ok? ==> r.value.keywords == if db.keywords == [] then KeywordRows(1) else db.keywords
    ensures r.Ok? ==> r.value.portals == if db.portals == [] then PortalRows(LoadPortalsFromRegistry(file), 1) else db.portals
  {
    var keywords := if db.keywords == [] then KeywordRows(1) else db.keywords;
    if db.portals != [] then Ok(db.(keywords := keywords))
    else
      var seeds := LoadPortalsFromRegistry(file);
      if !DistinctShortNames(seeds) then Err("IntegrityError: UNIQUE constraint failed: portals.short_name")
      else Ok(db.(keywords := keywords, portals := PortalRows(seeds, 1)))
  }

  /** Seeding a valid store leaves it valid. */
  lemma SeedKeepsValid(db: Db, file: RegistryFile)
    requires Valid(db) && SeedInitialData(db, file).Ok?
    ensures Valid(SeedInitialData(db, file).value)
  {
    if db.keywords == [] {
      KeywordRowsValid(1);
    }
    if db.portals == [] {
      PortalRowsValid(LoadPortalsFromRegistry(file), 1);
    }
  }

  /** The seeded keywords have distinct terms and keys. */
  lemma KeywordRowsValid(start: nat)
    ensures UniqueTerms(KeywordRows(start)) && UniqueKeywordIds(KeywordRows(start))
  {
    DefaultTermsDistinct();
  }

  /** Seeds with distinct short names give portal rows with distinct short
      names and keys. */
  lemma PortalRowsValid(ss: seq<PortalSeed>, start: nat)
    requires DistinctShortNames(ss)
    ensures UniqueShortNames(PortalRows(ss, start)) && UniquePortalIds(PortalRows(ss, start))
  {
    var r := PortalRows(ss, start);
    assert forall i :: 0 <= i < |r| ==> r[i].shortName == ss[i].shortName && r[i].id == start + i;
  }

  /** Seeding again inserts nothing: the second run finds what the first one
      left and changes nothing. */
  lemma SeedIdempotent(db: Db, file: RegistryFile)
    requires SeedInitialData(db, file).Ok?
    ensures SeedInitialData(SeedInitialData(db, file).value, file) == SeedInitialData(db, file)
  {
    DefaultKeywordsWellFormed();
    var r := SeedInitialData(db, file).value;
    assert r.keywords != [];
    if db.portals == [] && r.portals == [] {
      assert PortalRows(LoadPortalsFromRegistry(file), 1) == [];
    }
  }

  /** Without a registry file an empty store gets the four built-in portals
      and the nineteen default keywords. */
  lemma MissingRegistrySeedsDefaults(db: Db)
    requires db.portals == [] && db.keywords == []
    ensures SeedInitialData(db, Missing).Ok?
    ensures |SeedInitialData(db, Missing).value.portals| == 4
    ensures |SeedInitialData(db, Missing).value.keywords| == 19
    ensures forall i :: 0 <= i < 4 ==> SeedInitialData(db, Missing).value.portals[i].shortName == DefaultPortals()[i].shortName
  {
    DefaultPortalsWellFormed();
    DefaultKeywordsWellFormed();
  }
}
