/** The national Official Bulletin adapter (`BoletinNacionalScraper`): the
    notices section searched before the regulations section, each keyword
    through the bulletin's search API first and its web search only when the
    API gives nothing, and every published item mapped to a record labelled
    with its section. */
module Boletin {
  import opened Wrappers
  import opened Strings
  import opened Json
  import opened Models
  import opened Records
  import opened Mapping

  const ShortName: string := "boletin-nacional"
  const BaseUrl: string := "https://www.boletinoficial.gob.ar"

  /** Section 3 holds the notices (calls for tender), section 1 the regulations. */
  const SectionNotices: int := 3
  const SectionRegulations: int := 1

  /** The label of a section: fixed for 1, 2 and 3, the number as text otherwise. */
  function SectionName(seccion: int): (r: string)
    ensures seccion == 1 ==> r == "Primera (Normativa)"
    ensures seccion == 2 ==> r == "Segunda (Sociedades)"
    ensures seccion == 3 ==> r == "Tercera (Avisos)"
    ensures seccion !in {1, 2, 3} ==> r == IntToString(seccion)
  {
    if seccion == 1 then "Primera (Normativa)"
    else if seccion == 2 then "Segunda (Sociedades)"
    else if seccion == 3 then "Tercera (Avisos)"
    else IntToString(seccion)
  }

  /** `publicaciones or data.get("data", {}).get("publicaciones") or items or []`:
      Err where the `data` member is reached and is not an object. */
  function SelectedItems(fields: seq<(string, Json)>): (r: Result<Json, string>)
    ensures Truthy(Get(fields, "publicaciones")) ==> r == Ok(Get(fields, "publicaciones"))
    ensures !Truthy(Get(fields, "publicaciones")) ==>
      var d := GetOr(fields, "data", JObj([]));
      && (r.Err? <==> !d.JObj?)
      && (d.JObj? && Truthy(Get(d.fields, "publicaciones")) ==> r == Ok(Get(d.fields, "publicaciones")))
      && (d.JObj? && !Truthy(Get(d.fields, "publicaciones")) && Truthy(Get(fields, "items")) ==> r == Ok(Get(fields, "items")))
      && (d.JObj? && !Truthy(Get(d.fields, "publicaciones")) && !Truthy(Get(fields, "items")) ==> r == Ok(JArr([])))
  {
    var p := Get(fields, "publicaciones");
    if Truthy(p) then Ok(p)
    else
      var d := GetOr(fields, "data", JObj([]));
      if !d.JObj? then Err("'" + TypeName(d) + "' object has no attribute 'get'")
      else Ok(Or(Or(Get(d.fields, "publicaciones"), Get(fields, "items")), JArr([])))
  }

  /** The item's bulletin number: `nroNorma or numero or ""`. */
  function NormNumber(f: seq<(string, Json)>): Json {
    Or(Or(Get(f, "nroNorma"), Get(f, "numero")), JStr(""))
  }

  /** The raw data kept for an item: the item plus its section label. */
  predicate Labelled(d: LicitacionData, seccion: int) {
    d.rawData.JObj? && Lookup(d.rawData.fields, "_seccion") == Some(JStr(SectionName(seccion)))
  }

  /** The record of one published object of the given section. */
  function ApiRecord(item: Json, keyword: string, seccion: int, libs: Libs): (r: LicitacionData)
    requires item.JObj?
    ensures r.portalShortName == ShortName && r.matchedKeywords == [keyword]
    ensures r.urlDetalle == BaseUrl + "/#!DetalleNorma/" + Str(GetOr(item.fields, "seccionCodigo", JInt(seccion)))
                            + "/" + Str(NormNumber(item.fields))
    ensures r.titulo == Text(Or(Or(Or(Get(item.fields, "titulo"), Get(item.fields, "descripcion")), Get(item.fields, "objeto")),
                                JStr("Aviso Boletín Oficial - " + SectionName(seccion))))
    ensures r.externalId == Some(Str(Or(Or(Get(item.fields, "idNorma"), Get(item.fields, "id")), NormNumber(item.fields))))
    ensures r.numeroExpediente == OptText(Get(item.fields, "expediente"))
    ensures Labelled(r, seccion)
    ensures forall k :: k != "_seccion" ==> Lookup(r.rawData.fields, k) == Lookup(item.fields, k)
  {
    var f := item.fields;
    var nro := NormNumber(f);
    var url := BaseUrl + "/#!DetalleNorma/" + Str(GetOr(f, "seccionCodigo", JInt(seccion))) + "/" + Str(nro);
    var titulo := Or(Or(Or(Get(f, "titulo"), Get(f, "descripcion")), Get(f, "objeto")),
                     JStr("Aviso Boletín Oficial - " + SectionName(seccion)));
    var d := NewRecord(Text(titulo), ShortName, url);
    d.(externalId := Some(Str(Or(Or(Get(f, "idNorma"), Get(f, "id")), nro))),
       organismo := OptText(Or(Or(Get(f, "organismo"), Get(f, "emisor")), Get(f, "dependencia"))),
       numeroExpediente := OptText(Get(f, "expediente")),
       fechaPublicacion := ParsedDate(Or(Get(f, "fechaPublicacion"), Get(f, "fecha")), libs),
       matchedKeywords := [keyword],
       rawData := JObj(Set(f, "_seccion", JStr(SectionName(seccion)))))
  }

  /** The record of one item; None where it is not an object (`item.get` raises). */
  function ParseItem(item: Json, keyword: string, seccion: int, libs: Libs): (r: Option<LicitacionData>)
    ensures r.Some? <==> item.JObj?
    ensures r.Some? ==> r.value == ApiRecord(item, keyword, seccion, libs)
  {
    if item.JObj? then Some(ApiRecord(item, keyword, seccion, libs)) else None
  }

  /** `_parse_api_results(data, keyword, seccion)`: Err where the response or
      its `data` member is not an object, or the selected items are a number
      or boolean; otherwise one record per object among the items. */
  function ParseApiResults(data: Json, keyword: string, seccion: int, libs: Libs): (r: Result<seq<LicitacionData>, string>)
    ensures r.Err? <==> !data.JObj? || SelectedItems(data.fields).Err? || Elements(SelectedItems(data.fields).value).Err?
    ensures r.Ok? ==> r.value == ParseItems(Elements(SelectedItems(data.fields).value).value, keyword, seccion, libs)
    ensures r.Ok? && !SelectedItems(data.fields).value.JArr? ==> r.value == []
  {
    if !data.JObj? then Err("'" + TypeName(data) + "' object has no attribute 'get'")
    else
      var items :- SelectedItems(data.fields);
      var elems :- Elements(items);
      if !items.JArr? then
        ParseItemsNoObjects(elems, keyword, seccion, libs);
        Ok(ParseItems(elems, keyword, seccion, libs))
      else Ok(ParseItems(elems, keyword, seccion, libs))
  }

  /** The record is that of some object among the items. */
  predicate FromObject(d: LicitacionData, elems: seq<Json>, keyword: string, seccion: int, libs: Libs) {
    exists i :: 0 <= i < |elems| && elems[i].JObj? && d == ApiRecord(elems[i], keyword, seccion, libs)
  }

  /** Each item's record, by position: one for an object, none otherwise. */
  function ItemRecords(elems: seq<Json>, keyword: string, seccion: int, libs: Libs): (r: seq<seq<LicitacionData>>)
    ensures |r| == |elems|
    ensures forall i :: 0 <= i < |elems| ==> r[i] == AsList(ParseItem(elems[i], keyword, seccion, libs))
  {
    seq(|elems|, i requires 0 <= i < |elems| => AsList(ParseItem(elems[i], keyword, seccion, libs)))
  }

  /** The loop over the selected items: the record of each object, in order;
      any other item makes `item.get` raise and is skipped. */
  function ParseItems(elems: seq<Json>, keyword: string, seccion: int, libs: Libs): (r: seq<LicitacionData>)
    ensures |r| <= |elems|
    ensures (forall i :: 0 <= i < |elems| ==> elems[i].JObj?) ==> |r| == |elems|
    ensures forall k :: 0 <= k < |r| ==> FromObject(r[k], elems, keyword, seccion, libs)
    ensures forall k :: 0 <= k < |r| ==>
      r[k].portalShortName == ShortName && r[k].matchedKeywords == [keyword] && Labelled(r[k], seccion)
    ensures r == Flatten(ItemRecords(elems, keyword, seccion, libs))
  {
    var f := (it: Json) => ParseItem(it, keyword, seccion, libs);
    var r := FilterMap(elems, f);
    FilterMapIsFlatten(elems, f);
    assert Images(elems, f) == ItemRecords(elems, keyword, seccion, libs);
    forall k | 0 <= k < |r|
      ensures FromObject(r[k], elems, keyword, seccion, libs)
    {
      var i :| 0 <= i < |elems| && f(elems[i]) == Some(r[k]);
      assert ParseItem(elems[i], keyword, seccion, libs) == Some(r[k]);
    }
    r
  }

  /** When no item is an object, nothing is parsed. */
  lemma ParseItemsNoObjects(elems: seq<Json>, keyword: string, seccion: int, libs: Libs)
    requires forall i :: 0 <= i < |elems| ==> !elems[i].JObj?
    ensures ParseItems(elems, keyword, seccion, libs) == []
  {
    var r := ParseItems(elems, keyword, seccion, libs);
    assert r != [] ==> FromObject(r[0], elems, keyword, seccion, libs);
  }

  /** `_buscar_api`: a failed request or an undecodable body (caught) gives
      no records; a decoded body goes to `_parse_api_results`, whose own
      failure propagates. */
  function SearchApi(response: Result<Json, string>, keyword: string, seccion: int, libs: Libs): (r: Result<seq<LicitacionData>, string>)
    ensures response.Err? ==> r == Ok([])
    ensures response.Ok? ==> r == ParseApiResults(response.value, keyword, seccion, libs)
  {
    match response
    case Err(_) => Ok([])
    case Ok(data) => ParseApiResults(data, keyword, seccion, libs)
  }

  /** What the network answers for one keyword in one section: the API
      response, and what the web search (which never raises) would return. */
  datatype Answer = Answer(api: Result<Json, string>, web: seq<LicitacionData>)

  /** One keyword of `_search_section`: the API's records when there are
      any, the web search's otherwise. */
  function SearchKeyword(keyword: string, a: Answer, seccion: int, libs: Libs): (r: Result<seq<LicitacionData>, string>)
    ensures r.Err? <==> SearchApi(a.api, keyword, seccion, libs).Err?
    ensures r.Ok? && SearchApi(a.api, keyword, seccion, libs).value != [] ==> r == SearchApi(a.api, keyword, seccion, libs)
    ensures r.Ok? && SearchApi(a.api, keyword, seccion, libs).value == [] ==> r.value == a.web
    ensures r.Ok? ==> forall k :: 0 <= k < |r.value| ==> Labelled(r.value[k], seccion) || r.value[k] in a.web
  {
    SearchApiLabelled(a.api, keyword, seccion, libs);
    var api :- SearchApi(a.api, keyword, seccion, libs);
    if api != [] then Ok(api) else Ok(a.web)
  }

  /** The API's records are labelled with the section searched. */
  lemma SearchApiLabelled(response: Result<Json, string>, keyword: string, seccion: int, libs: Libs)
    ensures SearchApi(response, keyword, seccion, libs).Ok? ==>
      forall k :: 0 <= k < |SearchApi(response, keyword, seccion, libs).value| ==>
        Labelled(SearchApi(response, keyword, seccion, libs).value[k], seccion)
  {
  }

  /** Once the API yields records, what the web would answer makes no difference. */
  lemma WebOnlyWithoutApiResults(keyword: string, api: Result<Json, string>, web1: seq<LicitacionData>,
                                 web2: seq<LicitacionData>, seccion: int, libs: Libs)
    requires SearchApi(api, keyword, seccion, libs).Ok? && SearchApi(api, keyword, seccion, libs).value != []
    ensures SearchKeyword(keyword, Answer(api, web1), seccion, libs)
         == SearchKeyword(keyword, Answer(api, web2), seccion, libs)
         == SearchApi(api, keyword, seccion, libs)
  {
  }

  /** A record came from the web answer of some keyword. */
  predicate FromWeb(d: LicitacionData, answers: seq<Answer>) {
    exists j :: 0 <= j < |answers| && d in answers[j].web
  }

  /** What one keyword adds to its section: its records, or nothing when
      its search raises. */
  function Contribution(keyword: string, a: Answer, seccion: int, libs: Libs): seq<LicitacionData> {
    var mine := SearchKeyword(keyword, a, seccion, libs);
    if mine.Ok? then mine.value else []
  }

  /** Each keyword's contribution to one section, by keyword position. */
  function PerKeyword(keywords: seq<string>, answers: seq<Answer>, seccion: int, libs: Libs): (r: seq<seq<LicitacionData>>)
    requires |answers| == |keywords|
    ensures |r| == |keywords|
    ensures forall j :: 0 <= j < |r| ==> r[j] == Contribution(keywords[j], answers[j], seccion, libs)
  {
    seq(|keywords|, j requires 0 <= j < |keywords| => Contribution(keywords[j], answers[j], seccion, libs))
  }

  /** The contributions by keyword position are those of all keywords but
      the last, then the last one's. */
  lemma PerKeywordSnoc(keywords: seq<string>, answers: seq<Answer>, seccion: int, libs: Libs)
    requires |answers| == |keywords| > 0
    ensures var n := |keywords| - 1;
      PerKeyword(keywords, answers, seccion, libs)
        == PerKeyword(keywords[..n], answers[..n], seccion, libs) + [Contribution(keywords[n], answers[n], seccion, libs)]
  {
    var n := |keywords| - 1;
    var a := PerKeyword(keywords, answers, seccion, libs);
    var b := PerKeyword(keywords[..n], answers[..n], seccion, libs) + [Contribution(keywords[n], answers[n], seccion, libs)];
    forall j | 0 <= j < |a| ensures a[j] == b[j] {
      if j < n { assert keywords[..n][j] == keywords[j] && answers[..n][j] == answers[j]; }
    }
  }

  /** `_search_section(keywords, seccion)`: each keyword's records in
      keyword order; one whose search raises contributes nothing. */
  function SearchSection(keywords: seq<string>, answers: seq<Answer>, seccion: int, libs: Libs): (r: seq<LicitacionData>)
    requires |answers| == |keywords|
    ensures r == Flatten(PerKeyword(keywords, answers, seccion, libs))
    ensures forall k :: 0 <= k < |r| ==> Labelled(r[k], seccion) || FromWeb(r[k], answers)
    decreases |keywords|
  {
    if keywords == [] then []
    else
      var n := |keywords| - 1;
      var init := SearchSection(keywords[..n], answers[..n], seccion, libs);
      var mine := SearchKeyword(keywords[n], answers[n], seccion, libs);
      var tail := if mine.Ok? then mine.value else [];
      PerKeywordSnoc(keywords, answers, seccion, libs);
      FlattenSnoc(PerKeyword(keywords[..n], answers[..n], seccion, libs), tail);
      var r := init + tail;
      forall k | 0 <= k < |r| ensures Labelled(r[k], seccion) || FromWeb(r[k], answers) {
        if k < |init| {
          if !Labelled(init[k], seccion) {
            var j :| 0 <= j < n && init[k] in answers[..n][j].web;
            assert answers[..n][j] == answers[j];
          }
        } else {
          assert r[k] == tail[k - |init|];
        }
      }
      r
  }

  /** The first `n` records are notices, the rest regulations (each
      either labelled with its section or taken from that section's web answers). */
  predicate SectionsInOrder(r: seq<LicitacionData>, n: nat, notices: seq<Answer>, regulations: seq<Answer>) {
    && n <= |r|
    && (forall k :: 0 <= k < n ==> Labelled(r[k], SectionNotices) || FromWeb(r[k], notices))
    && (forall k :: n <= k < |r| ==> Labelled(r[k], SectionRegulations) || FromWeb(r[k], regulations))
  }

  /** `_fetch_licitaciones`: the notices section's results, then the regulations section's. */
  function FetchLicitaciones(keywords: seq<string>, notices: seq<Answer>, regulations: seq<Answer>, libs: Libs): (r: seq<LicitacionData>)
    requires |notices| == |keywords| && |regulations| == |keywords|
    ensures r == Flatten(PerKeyword(keywords, notices, SectionNotices, libs))
              + Flatten(PerKeyword(keywords, regulations, SectionRegulations, libs))
    ensures SectionsInOrder(r, |SearchSection(keywords, notices, SectionNotices, libs)|, notices, regulations)
  {
    var a := SearchSection(keywords, notices, SectionNotices, libs);
    var b := SearchSection(keywords, regulations, SectionRegulations, libs);
    SectionsJoined(a, b, notices, regulations);
    a + b
  }

  /** Notices followed by regulations are in section order. */
  lemma SectionsJoined(a: seq<LicitacionData>, b: seq<LicitacionData>, notices: seq<Answer>, regulations: seq<Answer>)
    requires forall k :: 0 <= k < |a| ==> Labelled(a[k], SectionNotices) || FromWeb(a[k], notices)
    requires forall k :: 0 <= k < |b| ==> Labelled(b[k], SectionRegulations) || FromWeb(b[k], regulations)
    ensures SectionsInOrder(a + b, |a|, notices, regulations)
  {
    assert forall k :: |a| <= k < |a + b| ==> (a + b)[k] == b[k - |a|];
  }

  /** A notice's label is never a regulation's: API records of the two
      sections are told apart by their raw data. */
  lemma SectionsTellApart(d: LicitacionData)
    ensures !(Labelled(d, SectionNotices) && Labelled(d, SectionRegulations))
  {
  }
}
