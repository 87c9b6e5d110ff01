/** The Buenos Aires province purchasing portal adapter
    (`PortalComprasPBAScraper`): per keyword, the portal's API first; when it
    gives nothing, the portal's file search, and when that is empty or fails,
    the alternative search. */
module Pbac {
  import opened Wrappers
  import opened Strings
  import opened Json
  import opened Models
  import opened Records
  import opened Mapping

  const ShortName: string := "pbac"
  const BaseUrl: string := "https://pbac.cgpba.gob.ar"
  const Untitled: string := "Sin título"

  /** `items or licitaciones or data or []`. */
  function SelectedItems(fields: seq<(string, Json)>): (r: Json)
    ensures Truthy(Get(fields, "items")) ==> r == Get(fields, "items")
    ensures !Truthy(Get(fields, "items")) && Truthy(Get(fields, "licitaciones")) ==> r == Get(fields, "licitaciones")
    ensures !Truthy(Get(fields, "items")) && !Truthy(Get(fields, "licitaciones")) && Truthy(Get(fields, "data")) ==>
      r == Get(fields, "data")
    ensures !Truthy(Get(fields, "items")) && !Truthy(Get(fields, "licitaciones")) && !Truthy(Get(fields, "data")) ==>
      r == JArr([])
  {
    Or(Or(Or(Get(fields, "items"), Get(fields, "licitaciones")), Get(fields, "data")), JArr([]))
  }

  /** `item.get("url") or f"{BASE_URL}/licitacion/{item.get('id')}"`, joined
      to the base when it is not absolute: None where the value is truthy but
      not text (its `startswith` raises). */
  function DetailUrl(fields: seq<(string, Json)>, libs: Libs): (r: Option<string>)
    ensures var u := Get(fields, "url");
      && (r.None? <==> Truthy(u) && !u.JStr?)
      && (Truthy(u) && u.JStr? && StartsWith(u.s, "http") ==> r == Some(u.s))
      && (Truthy(u) && u.JStr? && !StartsWith(u.s, "http") ==> r == Some(libs.urljoin(BaseUrl, u.s)))
      && (!Truthy(u) ==> r == Some(BaseUrl + "/licitacion/" + Str(Get(fields, "id"))))
  {
    var u := Get(fields, "url");
    if Truthy(u) && !u.JStr? then None
    else
      var built := BaseUrl + "/licitacion/" + Str(Get(fields, "id"));
      assert StartsWith(built, "http") by {
        assert built[..4] == BaseUrl[..4];
      }
      var url := if Truthy(u) then u.s else built;
      Some(if StartsWith(url, "http") then url else libs.urljoin(BaseUrl, url))
  }

  /** The record of one API object whose detail URL is `url`. */
  function ApiRecord(item: Json, url: string, keyword: string, libs: Libs): (r: LicitacionData)
    requires item.JObj?
    ensures r.titulo == Text(Or(Or(Get(item.fields, "descripcion"), Get(item.fields, "objeto")), JStr(Untitled)))
    ensures r.portalShortName == ShortName && r.urlDetalle == url
    ensures r.externalId == Some(Str(Or(Or(Get(item.fields, "nroExpediente"), Get(item.fields, "id")), JStr(""))))
    ensures r.numeroLicitacion == OptText(Get(item.fields, "nroLicitacion"))
    ensures r.fechaPublicacion == ParsedDate(Get(item.fields, "fechaPublicacion"), libs)
    ensures r.fechaApertura == ParsedDate(Get(item.fields, "fechaApertura"), libs)
    ensures r.matchedKeywords == [keyword] && r.rawData == item
  {
    var f := item.fields;
    var d := NewRecord(Text(Or(Or(Get(f, "descripcion"), Get(f, "objeto")), JStr(Untitled))), ShortName, url);
    d.(externalId := Some(Str(Or(Or(Get(f, "nroExpediente"), Get(f, "id")), JStr("")))),
       organismo := OptText(Or(Get(f, "organismo"), Get(f, "jurisdiccion"))),
       tipoContratacion := OptText(Or(Get(f, "modalidad"), Get(f, "tipo"))),
       numeroLicitacion := OptText(Get(f, "nroLicitacion")),
       fechaPublicacion := ParsedDate(Get(f, "fechaPublicacion"), libs),
       fechaApertura := ParsedDate(Get(f, "fechaApertura"), libs),
       matchedKeywords := [keyword],
       rawData := item)
  }

  /** The record of one item, or None where mapping it raises. */
  function ParseItem(item: Json, keyword: string, libs: Libs): (r: Option<LicitacionData>)
    ensures r.Some? <==> item.JObj? && DetailUrl(item.fields, libs).Some?
    ensures r.Some? ==> r.value == ApiRecord(item, DetailUrl(item.fields, libs).value, keyword, libs)
  {
    if !item.JObj? then None
    else
      match DetailUrl(item.fields, libs)
      case None => None
      case Some(url) => Some(ApiRecord(item, url, keyword, libs))
  }

  /** Each item's record, by position: one where the item maps, none where
      mapping it raises. */
  function ItemRecords(items: seq<Json>, keyword: string, libs: Libs): (r: seq<seq<LicitacionData>>)
    ensures |r| == |items|
    ensures forall i :: 0 <= i < |items| ==> r[i] == AsList(ParseItem(items[i], keyword, libs))
  {
    seq(|items|, i requires 0 <= i < |items| => AsList(ParseItem(items[i], keyword, libs)))
  }

  /** `_try_api` around `_parse_api`: every failure, including a response
      that is not an object or selected items that cannot be iterated, is
      caught and gives no records; a string or object iterates into strings,
      none of which maps. */
  function TryApi(response: Result<Json, string>, keyword: string, libs: Libs): (r: seq<LicitacionData>)
    ensures response.Err? || !response.value.JObj? || !SelectedItems(response.value.fields).JArr? ==> r == []
    ensures response.Ok? && response.value.JObj? && SelectedItems(response.value.fields).JArr? ==>
      var items := SelectedItems(response.value.fields).items;
      && |r| <= |items|
      && (forall k :: 0 <= k < |r| ==> exists i :: 0 <= i < |items| && ParseItem(items[i], keyword, libs) == Some(r[k]))
      && r == Flatten(ItemRecords(items, keyword, libs))
    ensures forall k :: 0 <= k < |r| ==> r[k].portalShortName == ShortName && r[k].matchedKeywords == [keyword]
  {
    if response.Err? || !response.value.JObj? then []
    else
      var items := SelectedItems(response.value.fields);
      if !items.JArr? then []
      else
        var f := (it: Json) => ParseItem(it, keyword, libs);
        var r := FilterMap(items.items, f);
        assert forall k :: 0 <= k < |r| ==> exists i :: 0 <= i < |items.items| && f(items.items[i]) == Some(r[k]);
        FilterMapIsFlatten(items.items, f);
        assert Images(items.items, f) == ItemRecords(items.items, keyword, libs);
        r
  }

  /** What the network answers for one keyword: the API response, the file
      search (which may raise), and the alternative search (which never does). */
  datatype Answer = Answer(api: Result<Json, string>, portal: Result<seq<LicitacionData>, string>,
                           buscador: seq<LicitacionData>)

  /** `_scrape_portal`: the file search's records, or the alternative
      search's when the file search is empty or raises. */
  function ScrapePortal(a: Answer): (r: seq<LicitacionData>)
    ensures a.portal.Ok? && a.portal.value != [] ==> r == a.portal.value
    ensures a.portal.Err? || a.portal.value == [] ==> r == a.buscador
  {
    if a.portal.Ok? && a.portal.value != [] then a.portal.value else a.buscador
  }

  /** `_buscar_keyword`: the API's records when there are any, the portal
      scrape's otherwise. */
  function SearchKeyword(keyword: string, a: Answer, libs: Libs): (r: seq<LicitacionData>)
    ensures TryApi(a.api, keyword, libs) != [] ==> r == TryApi(a.api, keyword, libs)
    ensures TryApi(a.api, keyword, libs) == [] ==> r == ScrapePortal(a)
    ensures r == TryApi(a.api, keyword, libs) || r == a.buscador || (a.portal.Ok? && r == a.portal.value)
  {
    var api := TryApi(a.api, keyword, libs);
    if api != [] then api else ScrapePortal(a)
  }

  /** The alternative search runs only when the API gives nothing and the
      file search is empty or raises. */
  lemma BuscadorOnlyAsLastResort(keyword: string, a: Answer, libs: Libs)
    requires SearchKeyword(keyword, a, libs) == a.buscador
    requires a.buscador != TryApi(a.api, keyword, libs)
    requires a.portal.Ok? ==> a.buscador != a.portal.value
    ensures TryApi(a.api, keyword, libs) == []
    ensures a.portal.Err? || a.portal.value == []
  {
  }

  /** Each keyword's records, by keyword position. */
  function PerKeyword(keywords: seq<string>, answers: seq<Answer>, libs: Libs): (r: seq<seq<LicitacionData>>)
    requires |answers| == |keywords|
    ensures |r| == |keywords|
    ensures forall j :: 0 <= j < |r| ==> r[j] == SearchKeyword(keywords[j], answers[j], libs)
  {
    seq(|keywords|, j requires 0 <= j < |keywords| => SearchKeyword(keywords[j], answers[j], libs))
  }

  /** The records by keyword position are those of all keywords but the
      last, then the last one's. */
  lemma PerKeywordSnoc(keywords: seq<string>, answers: seq<Answer>, libs: Libs)
    requires |answers| == |keywords| > 0
    ensures var n := |keywords| - 1;
      PerKeyword(keywords, answers, libs)
        == PerKeyword(keywords[..n], answers[..n], libs) + [SearchKeyword(keywords[n], answers[n], libs)]
  {
    var n := |keywords| - 1;
    var a := PerKeyword(keywords, answers, libs);
    var b := PerKeyword(keywords[..n], answers[..n], libs) + [SearchKeyword(keywords[n], answers[n], libs)];
    forall j | 0 <= j < |a| ensures a[j] == b[j] {
      if j < n { assert keywords[..n][j] == keywords[j] && answers[..n][j] == answers[j]; }
    }
  }

  /** `_fetch_licitaciones`: every keyword's records, in keyword order,
      without deduplication. */
  function FetchLicitaciones(keywords: seq<string>, answers: seq<Answer>, libs: Libs): (r: seq<LicitacionData>)
    requires |answers| == |keywords|
    ensures r == Flatten(PerKeyword(keywords, answers, libs))
    decreases |keywords|
  {
    if keywords == [] then []
    else
      var n := |keywords| - 1;
      var init := PerKeyword(keywords[..n], answers[..n], libs);
      var mine := SearchKeyword(keywords[n], answers[n], libs);
      PerKeywordSnoc(keywords, answers, libs);
      FlattenSnoc(init, mine);
      FetchLicitaciones(keywords[..n], answers[..n], libs) + mine
  }

  /** A record answers a keyword: it is an API record for it, or one of the
      keyword's scraped records. */
  predicate Answers(d: LicitacionData, keyword: string, a: Answer) {
    || (d.portalShortName == ShortName && d.matchedKeywords == [keyword])
    || d in a.buscador
    || (a.portal.Ok? && d in a.portal.value)
  }

  /** Every record fetched answers one of the keywords: its matched keyword
      list is that keyword alone, or it came from a scrape. */
  lemma {:induction false} FetchedMatchTheirKeyword(keywords: seq<string>, answers: seq<Answer>, libs: Libs, k: nat)
    requires |answers| == |keywords|
    requires k < |FetchLicitaciones(keywords, answers, libs)|
    ensures exists j :: 0 <= j < |keywords| && Answers(FetchLicitaciones(keywords, answers, libs)[k], keywords[j], answers[j])
    decreases |keywords|
  {
    var n := |keywords| - 1;
    var init := FetchLicitaciones(keywords[..n], answers[..n], libs);
    var mine := SearchKeyword(keywords[n], answers[n], libs);
    assert FetchLicitaciones(keywords, answers, libs) == init + mine;
    if k < |init| {
      FetchedMatchTheirKeyword(keywords[..n], answers[..n], libs, k);
      var j :| 0 <= j < n && Answers(init[k], keywords[..n][j], answers[..n][j]);
      assert keywords[..n][j] == keywords[j] && answers[..n][j] == answers[j];
    } else {
      var d := mine[k - |init|];
      assert FetchLicitaciones(keywords, answers, libs)[k] == d;
      assert d in mine;
    }
  }
}
