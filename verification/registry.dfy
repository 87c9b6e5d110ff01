/** The closed registry of adapters: a portal's `scraper_class` names one
    of five adapter kinds, and `get_scraper` builds it or raises KeyError. */
module Registry {
  import opened Wrappers
  import opened Json
  import opened Strings
  import opened Records

  datatype ScraperKind =
    | Comprar
    | BoletinNacional
    | PortalComprasPba
    | BoletinOficialPba
    | GenericMunicipal

  /** The registry's key for each kind. */
  function KindName(k: ScraperKind): string {
    match k
    case Comprar => "ComprarScraper"
    case BoletinNacional => "BoletinNacionalScraper"
    case PortalComprasPba => "PortalComprasPBAScraper"
    case BoletinOficialPba => "BoletinOficialPBAScraper"
    case GenericMunicipal => "GenericMunicipalScraper"
  }

  /** `SCRAPER_REGISTRY.keys()`, in insertion order. */
  function RegistryKeys(): seq<string> {
    [ "ComprarScraper", "BoletinNacionalScraper", "PortalComprasPBAScraper",
      "BoletinOficialPBAScraper", "GenericMunicipalScraper" ]
  }

  /** `SCRAPER_REGISTRY.get(name)`. */
  function KindOf(name: string): (r: Option<ScraperKind>)
    ensures r.Some? ==> KindName(r.value) == name
    ensures forall k :: KindName(k) == name ==> r == Some(k)
  {
    if name == "ComprarScraper" then Some(Comprar)
    else if name == "BoletinNacionalScraper" then Some(BoletinNacional)
    else if name == "PortalComprasPBAScraper" then Some(PortalComprasPba)
    else if name == "BoletinOficialPBAScraper" then Some(BoletinOficialPba)
    else if name == "GenericMunicipalScraper" then Some(GenericMunicipal)
    else None
  }

  /** The registry has exactly five keys, one per kind, and they are the ones listed. */
  lemma RegistryClosed()
    ensures |RegistryKeys()| == 5
    ensures forall i, j :: 0 <= i < j < |RegistryKeys()| ==> RegistryKeys()[i] != RegistryKeys()[j]
    ensures forall name :: KindOf(name).Some? <==> name in RegistryKeys()
    ensures forall k :: KindName(k) in RegistryKeys()
  {
  }

  /** An adapter instance: its kind and the shared base state. */
  datatype Scraper = Scraper(kind: ScraperKind, base: ScraperBase)

  /** `str(list(SCRAPER_REGISTRY.keys()))`: the key list as Python prints it. */
  function KeysRepr(): string {
    ListRepr(RegistryKeys())
  }

  /** The text of the KeyError `get_scraper` raises, as `str(e)` shows it:
      the message holds single quotes, so its representation is double-quoted.
      A name that itself holds `"` would make Python's `repr` fall back to
      single quotes with escapes; that case is not modelled. */
  function UnknownScraperText(name: string): string {
    "\"Scraper '" + name + "' no registrado. Opciones disponibles: " + KeysRepr() + "\""
  }

  /** `get_scraper(scraper_class, portal_url, config)`: the registered kind,
      built on the portal's URL with a missing or empty configuration passed
      on as an empty mapping; an unregistered name fails with the KeyError text. */
  function GetScraper(scraperClass: string, portalUrl: string, config: Option<Json>): (r: Result<Scraper, string>)
    ensures r.Ok? <==> scraperClass in RegistryKeys()
    ensures r.Ok? ==> KindName(r.value.kind) == scraperClass
    ensures r.Ok? ==> r.value.base.baseUrl == RStripChar(portalUrl, '/')
    ensures r.Ok? && (config.None? || !Truthy(config.value)) ==> r.value.base.config == JObj([])
    ensures r.Ok? && config.Some? && Truthy(config.value) ==> r.value.base.config == config.value
    ensures r.Err? ==> r.error == UnknownScraperText(scraperClass)
  {
    match KindOf(scraperClass)
    case None => Err(UnknownScraperText(scraperClass))
    case Some(k) =>
      var passed := if config.Some? && Truthy(config.value) then config.value else JObj([]);
      Ok(Scraper(k, NewScraperBase(portalUrl, Some(passed))))
  }

  /** Passing `config or {}` to the constructor builds what passing the
      configuration itself would. */
  lemma GetScraperAsBaseConstructor(scraperClass: string, portalUrl: string, config: Option<Json>)
    requires scraperClass in RegistryKeys()
    ensures GetScraper(scraperClass, portalUrl, config).Ok?
    ensures GetScraper(scraperClass, portalUrl, config).value.base == NewScraperBase(portalUrl, config)
  {
  }
}
