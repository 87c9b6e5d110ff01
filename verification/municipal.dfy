/** The generic municipal adapter (`GenericMunicipalScraper`): per-municipality
    search templates, the relevance test and keyword filter, and the two ways
    it turns a results page into records: parsing result containers, and, when
    that yields nothing, collecting tender-looking links and filtering them by
    keyword. Locating the tenders section and selecting elements are network
    and HTML work; their outcomes are parameters. */
module Municipal {
  import opened Wrappers
  import opened Strings
  import opened Json
  import opened Models
  import opened Records
  import opened Mapping
  import opened Sorting

  /** What `MUNICIPAL_CONFIGS` records per municipality. */
  datatype MunicipalConfig = MunicipalConfig(baseUrl: string, paths: seq<string>, searchParams: seq<(string, Json)>)

  /** The municipalities with a known configuration. */
  function KnownConfigs(): seq<(string, MunicipalConfig)> {
    [ ("la-plata", MunicipalConfig("https://www.laplata.gov.ar",
        ["/licitaciones", "/compras-y-contrataciones", "/transparencia/licitaciones"],
        [("buscar", JStr("{keyword}")), ("seccion", JStr("licitaciones"))])),
      ("mar-del-plata", MunicipalConfig("https://www.mardelplata.gob.ar",
        ["/licitaciones", "/compras", "/hacienda/licitaciones"], [("q", JStr("{keyword}"))])),
      ("bahia-blanca", MunicipalConfig("https://www.bahia-blanca.gov.ar",
        ["/gobierno/licitaciones", "/licitaciones", "/compras"], [("busqueda", JStr("{keyword}"))])),
      ("san-isidro", MunicipalConfig("https://www.sanisidro.gob.ar",
        ["/licitaciones", "/compras-y-contrataciones", "/gobierno/licitaciones"], [("q", JStr("{keyword}"))])),
      ("quilmes", MunicipalConfig("https://www.quilmes.gov.ar",
        ["/licitaciones", "/compras"], [("buscar", JStr("{keyword}"))])),
      ("tigre", MunicipalConfig("https://www.tigre.gov.ar",
        ["/licitaciones", "/compras-licitaciones"], [("q", JStr("{keyword}"))])) ]
  }

  /** `MUNICIPAL_CONFIGS.get(key)`. */
  function KnownConfig(key: string): (r: Option<MunicipalConfig>)
    ensures r.Some? <==> exists i :: 0 <= i < |KnownConfigs()| && KnownConfigs()[i].0 == key
    ensures r.Some? ==> exists i :: 0 <= i < |KnownConfigs()| && KnownConfigs()[i] == (key, r.value)
  {
    FindConfig(KnownConfigs(), key)
  }

  function FindConfig(cs: seq<(string, MunicipalConfig)>, key: string): (r: Option<MunicipalConfig>)
    ensures r.Some? <==> exists i :: 0 <= i < |cs| && cs[i].0 == key
    ensures r.Some? ==> exists i :: 0 <= i < |cs| && cs[i] == (key, r.value)
    decreases |cs|
  {
    if cs == [] then None
    else if cs[0].0 == key then Some(cs[0].1)
    else
      var r := FindConfig(cs[1..], key);
      assert forall i :: 1 <= i < |cs| ==> cs[i] == cs[1..][i - 1];
      r
  }

  /** The adapter after construction: its base, its municipality's known
      configuration (if any) and the short name its records carry. */
  datatype Adapter = Adapter(base: ScraperBase, known: Option<MunicipalConfig>, shortName: string)

  /** The constructor on the configuration the registry passes (`config or
      {}`): the municipality key defaults to "" and the short name to
      "municipal". A configuration that is not a mapping raises on `.get`,
      and so does an unhashable municipality key; a key that is not text
      names no municipality. */
  function NewMunicipal(base: ScraperBase): (r: Result<Adapter, string>)
    ensures r.Err? <==> !base.config.JObj? || GetOr(base.config.fields, "municipality_key", JStr("")).JArr?
                        || GetOr(base.config.fields, "municipality_key", JStr("")).JObj?
    ensures r.Ok? ==> r.value.base == base
    ensures r.Ok? ==> var key := GetOr(base.config.fields, "municipality_key", JStr(""));
      r.value.known == if key.JStr? then KnownConfig(key.s) else None
    ensures r.Ok? ==> r.value.shortName == Text(GetOr(base.config.fields, "short_name", JStr("municipal")))
  {
    if !base.config.JObj? then Err("'" + TypeName(base.config) + "' object has no attribute 'get'")
    else
      var key := GetOr(base.config.fields, "municipality_key", JStr(""));
      if key.JArr? || key.JObj? then Err("unhashable type: '" + TypeName(key) + "'")
      else
        Ok(Adapter(base, if key.JStr? then KnownConfig(key.s) else None,
                     Text(GetOr(base.config.fields, "short_name", JStr("municipal")))))
  }

  // ── `_build_search_params` ────────────────────────────────────────────────

  /** The placeholder a search template's values carry. */
  const Placeholder: string := "{keyword}"

  /** The search template: the municipality's, or `{"q": "{keyword}"}`. */
  function SearchTemplate(m: Adapter): (r: seq<(string, Json)>)
    ensures m.known.None? ==> r == [("q", JStr(Placeholder))]
    ensures m.known.Some? ==> r == m.known.value.searchParams
  {
    if m.known.Some? then m.known.value.searchParams else [("q", JStr(Placeholder))]
  }

  /** One template value with the keyword in place of the placeholder. */
  function Substitute(v: Json, keyword: string): Json {
    if v.JStr? then JStr(ReplaceAll(v.s, Placeholder, keyword)) else v
  }

  /** `_build_search_params(keyword)`: the template's keys in order, each
      text value with the placeholder replaced, every other value as it is. */
  function BuildSearchParams(template: seq<(string, Json)>, keyword: string): (r: seq<(string, Json)>)
    ensures |r| == |template|
    ensures forall i :: 0 <= i < |r| ==> r[i].0 == template[i].0
    ensures forall i :: 0 <= i < |r| && template[i].1.JStr? ==>
      r[i].1 == JStr(ReplaceAll(template[i].1.s, Placeholder, keyword))
    ensures forall i :: 0 <= i < |r| && !template[i].1.JStr? ==> r[i].1 == template[i].1
  {
    seq(|template|, i requires 0 <= i < |template| => (template[i].0, Substitute(template[i].1, keyword)))
  }

  /** A value without the placeholder is passed on unchanged. */
  lemma {:induction false} ParamsWithoutPlaceholder(template: seq<(string, Json)>, keyword: string, i: nat)
    requires i < |template| && template[i].1.JStr? && !Contains(template[i].1.s, Placeholder)
    ensures BuildSearchParams(template, keyword)[i] == template[i]
  {
    ReplaceAbsent(template[i].1.s, Placeholder, keyword);
  }

  /** A municipality without a known configuration searches with `{"q": keyword}`. */
  lemma {:induction false} UnknownMunicipalityParams(m: Adapter, keyword: string)
    requires m.known.None?
    ensures BuildSearchParams(SearchTemplate(m), keyword) == [("q", JStr(keyword))]
  {
    ReplaceWhole(Placeholder, keyword);
    assert BuildSearchParams(SearchTemplate(m), keyword)[0] == ("q", JStr(ReplaceAll(Placeholder, Placeholder, keyword)));
  }

  // ── `_is_relevant` and `_filter_by_keyword` ───────────────────────────────

  /** `_is_relevant(lic, keyword)`: the lowered keyword occurs in the lowered
      title or in the lowered description (none read as ""). */
  predicate IsRelevant(d: LicitacionData, keyword: string)
    ensures keyword == [] ==> IsRelevant(d, keyword)
  {
    Contains(Lower(d.titulo), Lower(keyword)) || Contains(Lower(OrEmpty(d.descripcion)), Lower(keyword))
  }

  /** Relevance ignores the case of the keyword: only its lowered form is compared. */
  lemma RelevanceIgnoresKeywordCase(d: LicitacionData, keyword: string)
    ensures IsRelevant(d, keyword) <==> IsRelevant(d, Lower(keyword))
  {
    LowerIdempotent(keyword);
  }

  /** A record without description is relevant exactly when its title is. */
  lemma RelevantWithoutDescription(d: LicitacionData, keyword: string)
    requires d.descripcion.None?
    ensures IsRelevant(d, keyword) <==> Contains(Lower(d.titulo), Lower(keyword))
  {
    assert Lower(OrEmpty(d.descripcion)) == [];
    if keyword == [] {
      assert StartsWith(Lower(d.titulo), Lower(keyword));
    }
    if Contains(Lower(OrEmpty(d.descripcion)), Lower(keyword)) {
      var i := ContainsWitness(Lower(OrEmpty(d.descripcion)), Lower(keyword));
    }
  }

  /** `_filter_by_keyword(items, keyword)`. */
  function FilterByKeyword(items: seq<LicitacionData>, keyword: string): (r: seq<LicitacionData>)
    ensures forall d :: d in r <==> d in items && IsRelevant(d, keyword)
    ensures forall d :: multiset(r)[d] == if IsRelevant(d, keyword) then multiset(items)[d] else 0
    ensures Subsequence(r, items)
  {
    FilterSubsequence(items, d => IsRelevant(d, keyword));
    Filter(items, d => IsRelevant(d, keyword))
  }

  /** Every filtered record is relevant to the keyword. */
  lemma FilteredRelevant(items: seq<LicitacionData>, keyword: string)
    ensures forall k :: 0 <= k < |FilterByKeyword(items, keyword)| ==> IsRelevant(FilterByKeyword(items, keyword)[k], keyword)
  {
    var r := FilterByKeyword(items, keyword);
    assert forall k :: 0 <= k < |r| ==> r[k] in r;
  }

  /** Filtering twice by the same keyword is filtering once. */
  lemma FilterByKeywordIdempotent(items: seq<LicitacionData>, keyword: string)
    ensures FilterByKeyword(FilterByKeyword(items, keyword), keyword) == FilterByKeyword(items, keyword)
  {
    FilterIdempotent(items, d => IsRelevant(d, keyword));
  }

  // ── `_extract_all_items` ──────────────────────────────────────────────────

  /** The fragments whose presence makes a link look like a tender. */
  function TenderMarkers(): seq<string> {
    ["licit", "exped", "contrat", "compra"]
  }

  /** A marker occurs in the lowered href or the lowered text. */
  predicate LooksLikeTender(href: string, text: string) {
    exists i :: 0 <= i < |TenderMarkers()| &&
      (Contains(Lower(href), TenderMarkers()[i]) || Contains(Lower(text), TenderMarkers()[i]))
  }

  /** The minimum length of a link text worth keeping. */
  const MinLinkText: nat := 10

  /** The record of one `<a>` element, if it is kept: it must carry an
      `href`, a text of at least ten characters, and a tender marker. */
  function LinkRecord(a: Node, baseUrl: string, shortName: string, libs: Libs): (r: Option<LicitacionData>)
    ensures r.Some? <==> a.href.Some? && |GetText(a.texts)| >= MinLinkText && LooksLikeTender(a.href.value, GetText(a.texts))
    ensures r.Some? ==> r.value.titulo == GetText(a.texts) && r.value.urlDetalle == libs.urljoin(baseUrl, a.href.value)
    ensures r.Some? ==> r.value.matchedKeywords == [] && r.value.portalShortName == shortName
  {
    if a.href.None? then None
    else
      var text := GetText(a.texts);
      if |text| < MinLinkText || !LooksLikeTender(a.href.value, text) then None
      else
        Some(NewRecord(text, shortName, libs.urljoin(baseUrl, a.href.value))
               .(matchedKeywords := [], rawData := JObj([("source", JStr("link_extraction"))])))
  }

  /** `_extract_all_items(soup, base_url)` over the page's `<a>` elements. */
  function ExtractAllItems(anchors: seq<Node>, baseUrl: string, shortName: string, libs: Libs): (r: seq<LicitacionData>)
    ensures |r| <= |anchors|
    ensures forall k :: 0 <= k < |r| ==> exists i :: 0 <= i < |anchors| && LinkRecord(anchors[i], baseUrl, shortName, libs) == Some(r[k])
    ensures forall k :: 0 <= k < |r| ==> r[k].matchedKeywords == [] && |r[k].titulo| >= MinLinkText
  {
    var f := (a: Node) => LinkRecord(a, baseUrl, shortName, libs);
    var r := FilterMap(anchors, f);
    assert forall k :: 0 <= k < |r| ==> exists i :: 0 <= i < |anchors| && f(anchors[i]) == Some(r[k]);
    r
  }

  /** Every kept link leaves its record among the extracted items. */
  lemma ExtractKeepsEveryTenderLink(anchors: seq<Node>, baseUrl: string, shortName: string, libs: Libs, i: nat)
    requires i < |anchors| && anchors[i].href.Some? && |GetText(anchors[i].texts)| >= MinLinkText
    requires LooksLikeTender(anchors[i].href.value, GetText(anchors[i].texts))
    ensures LinkRecord(anchors[i], baseUrl, shortName, libs).value in ExtractAllItems(anchors, baseUrl, shortName, libs)
  {
    FilterMapKeeps(anchors, (a: Node) => LinkRecord(a, baseUrl, shortName, libs), i);
  }

  // ── `_parse_item` and `_extract_licitaciones` ─────────────────────────────

  /** A result container as `_parse_item` reads it: the title element its
      selector chain finds (with the `href` of the element or of the link
      inside it), and its date and issuer elements. */
  datatype Container = Container(title: Option<Node>, fecha: Option<Node>, org: Option<Node>)

  /** The shortest title `_parse_item` accepts. */
  const MinTitle: nat := 5

  /** `_parse_item(item, keyword, base_url)`: None without a title element or
      with a title shorter than five characters. */
  function ParseItem(c: Container, keyword: string, baseUrl: string, shortName: string, libs: Libs): (r: Option<LicitacionData>)
    ensures r.Some? <==> c.title.Some? && |GetText(c.title.value.texts)| >= MinTitle
    ensures r.Some? ==> r.value.titulo == GetText(c.title.value.texts) && r.value.matchedKeywords == [keyword]
    ensures r.Some? ==> r.value.portalShortName == shortName
    ensures r.Some? ==> var href := c.title.value.href;
      r.value.urlDetalle == if href.Some? && href.value != "" then libs.urljoin(baseUrl, href.value) else baseUrl
    ensures r.Some? ==> r.value.organismo == SafeText(c.org)
  {
    if c.title.None? then None
    else
      var titulo := GetText(c.title.value.texts);
      if |titulo| < MinTitle then None
      else
        var href := c.title.value.href;
        var url := if href.Some? && href.value != "" then libs.urljoin(baseUrl, href.value) else baseUrl;
        var fecha := match SafeText(c.fecha) case None => None case Some(t) => libs.parseDate(t);
        Some(NewRecord(titulo, shortName, url)
               .(organismo := SafeText(c.org), fechaPublicacion := fecha, matchedKeywords := [keyword],
                 rawData := JObj([("source", JStr("html_parsing"))])))
  }

  /** One container's contribution: its record when it parses and is relevant. */
  function RelevantItem(c: Container, keyword: string, baseUrl: string, shortName: string, libs: Libs): (r: Option<LicitacionData>)
    ensures r.Some? <==> ParseItem(c, keyword, baseUrl, shortName, libs).Some? && IsRelevant(ParseItem(c, keyword, baseUrl, shortName, libs).value, keyword)
    ensures r.Some? ==> r == ParseItem(c, keyword, baseUrl, shortName, libs)
  {
    var p := ParseItem(c, keyword, baseUrl, shortName, libs);
    if p.Some? && IsRelevant(p.value, keyword) then p else None
  }

  /** Each container's contribution, by position. */
  function ContainerRecords(cs: seq<Container>, keyword: string, baseUrl: string, shortName: string, libs: Libs): (r: seq<seq<LicitacionData>>)
    ensures |r| == |cs|
    ensures forall i :: 0 <= i < |cs| ==> r[i] == AsList(RelevantItem(cs[i], keyword, baseUrl, shortName, libs))
  {
    seq(|cs|, i requires 0 <= i < |cs| => AsList(RelevantItem(cs[i], keyword, baseUrl, shortName, libs)))
  }

  /** `_extract_licitaciones(soup, keyword, base_url)` over the containers:
      the record of every container that parses and is relevant, in page order. */
  function ExtractLicitaciones(cs: seq<Container>, keyword: string, baseUrl: string, shortName: string, libs: Libs): (r: seq<LicitacionData>)
    ensures |r| <= |cs|
    ensures forall k :: 0 <= k < |r| ==> IsRelevant(r[k], keyword) && r[k].matchedKeywords == [keyword]
    ensures forall k :: 0 <= k < |r| ==> |r[k].titulo| >= MinTitle
    ensures r == Flatten(ContainerRecords(cs, keyword, baseUrl, shortName, libs))
  {
    var f := (c: Container) => RelevantItem(c, keyword, baseUrl, shortName, libs);
    var r := FilterMap(cs, f);
    assert forall k :: 0 <= k < |r| ==> exists i :: 0 <= i < |cs| && f(cs[i]) == Some(r[k]);
    FilterMapIsFlatten(cs, f);
    assert Images(cs, f) == ContainerRecords(cs, keyword, baseUrl, shortName, libs);
    r
  }

  /** Every container that parses and is relevant leaves its record among
      the extracted tenders. */
  lemma ExtractKeepsEveryRelevant(cs: seq<Container>, keyword: string, baseUrl: string, shortName: string, libs: Libs, i: nat)
    requires i < |cs|
    requires ParseItem(cs[i], keyword, baseUrl, shortName, libs).Some?
    requires IsRelevant(ParseItem(cs[i], keyword, baseUrl, shortName, libs).value, keyword)
    ensures ParseItem(cs[i], keyword, baseUrl, shortName, libs).value in ExtractLicitaciones(cs, keyword, baseUrl, shortName, libs)
  {
    FilterMapKeeps(cs, (c: Container) => RelevantItem(c, keyword, baseUrl, shortName, libs), i);
  }

  // ── `_search_in_portal` and `_fetch_licitaciones` ─────────────────────────

  /** A results page as the adapter reads it: the containers its selector
      chain finds, and every `<a>` element. */
  datatype Page = Page(containers: seq<Container>, anchors: seq<Node>)

  /** `_search_in_portal(url, keyword)`: the relevant parsed containers, or
      when there are none the page's tender links filtered by keyword; a
      failed request gives nothing. */
  function SearchInPortal(m: Adapter, url: string, keyword: string, page: Result<Page, string>, libs: Libs): (r: seq<LicitacionData>)
    ensures page.Err? ==> r == []
    ensures forall k :: 0 <= k < |r| ==> IsRelevant(r[k], keyword)
    ensures page.Ok? && ExtractLicitaciones(page.value.containers, keyword, url, m.shortName, libs) != [] ==>
      r == ExtractLicitaciones(page.value.containers, keyword, url, m.shortName, libs)
    ensures page.Ok? && ExtractLicitaciones(page.value.containers, keyword, url, m.shortName, libs) == [] ==>
      r == FilterByKeyword(ExtractAllItems(page.value.anchors, url, m.shortName, libs), keyword)
  {
    match page
    case Err(_) => []
    case Ok(p) =>
      var found := ExtractLicitaciones(p.containers, keyword, url, m.shortName, libs);
      if found != [] then found
      else
        var items := ExtractAllItems(p.anchors, url, m.shortName, libs);
        FilteredRelevant(items, keyword);
        FilterByKeyword(items, keyword)
  }

  /** The record is relevant to one of the keywords. */
  predicate RelevantToSome(d: LicitacionData, keywords: seq<string>) {
    exists j :: 0 <= j < |keywords| && IsRelevant(d, keywords[j])
  }

  /** Appending one more keyword's relevant records keeps every record
      relevant to some keyword. */
  lemma RelevantSnoc(init: seq<LicitacionData>, mine: seq<LicitacionData>, keywords: seq<string>)
    requires keywords != []
    requires forall k :: 0 <= k < |init| ==> RelevantToSome(init[k], keywords[..|keywords| - 1])
    requires forall k :: 0 <= k < |mine| ==> IsRelevant(mine[k], keywords[|keywords| - 1])
    ensures forall k :: 0 <= k < |init + mine| ==> RelevantToSome((init + mine)[k], keywords)
  {
    var n := |keywords| - 1;
    forall k | 0 <= k < |init + mine| ensures RelevantToSome((init + mine)[k], keywords) {
      if k < |init| {
        var j :| 0 <= j < n && IsRelevant(init[k], keywords[..n][j]);
        assert keywords[..n][j] == keywords[j];
      } else {
        assert (init + mine)[k] == mine[k - |init|];
      }
    }
  }

  /** The search of the tenders section at `url`, as a function of the
      keyword and of the page it answers with. */
  function SearchAt(m: Adapter, url: string, libs: Libs): (string, Result<Page, string>) -> seq<LicitacionData> {
    (keyword: string, page: Result<Page, string>) => SearchInPortal(m, url, keyword, page, libs)
  }

  /** `_fetch_licitaciones`: nothing when no tenders section was found;
      otherwise every keyword's results in keyword order. */
  function FetchLicitaciones(m: Adapter, section: Option<string>, keywords: seq<string>,
                             pages: seq<Result<Page, string>>, libs: Libs): (r: seq<LicitacionData>)
    requires |pages| == |keywords|
    ensures section.None? ==> r == []
    ensures forall k :: 0 <= k < |r| ==> RelevantToSome(r[k], keywords)
    decreases |keywords|
  {
    if section.None? || keywords == [] then []
    else
      var n := |keywords| - 1;
      var init := FetchLicitaciones(m, section, keywords[..n], pages[..n], libs);
      var mine := SearchInPortal(m, section.value, keywords[n], pages[n], libs);
      var r := init + mine;
      RelevantSnoc(init, mine, keywords);
      r
  }

  /** With a tenders section, the result is every keyword's search of it,
      concatenated in keyword order: nothing dropped, merged or moved. */
  lemma {:induction false} FetchIsEveryKeywordsSearch(m: Adapter, section: Option<string>, keywords: seq<string>,
                                                      pages: seq<Result<Page, string>>, libs: Libs)
    requires |pages| == |keywords| && section.Some?
    ensures FetchLicitaciones(m, section, keywords, pages, libs) == Flatten(Zip(keywords, pages, SearchAt(m, section.value, libs)))
    decreases |keywords|
  {
    if keywords != [] {
      var n := |keywords| - 1;
      FetchIsEveryKeywordsSearch(m, section, keywords[..n], pages[..n], libs);
      FlattenZipSnoc(keywords, pages, SearchAt(m, section.value, libs));
    }
  }
}
