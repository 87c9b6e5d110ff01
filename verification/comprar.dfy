/** The Argentina Compra adapter (`ComprarScraper`): per keyword, the
    publications API first and the web search only when the API gives
    nothing; every item mapped to a record; and the combined results
    deduplicated by external id, or by normalised title when there is none. */
module Comprar {
  import opened Wrappers
  import opened Strings
  import opened Json
  import opened Models
  import opened Records
  import opened Mapping
  import opened Sorting

  // ── `_dedupe_by_id` ───────────────────────────────────────────────────────

  /** `item.external_id or item.titulo.strip().lower()`. */
  function DedupKey(d: LicitacionData): string {
    if d.externalId.Some? && d.externalId.value != "" then d.externalId.value else Lower(Strip(d.titulo))
  }

  /** The keys of the items. */
  function KeySet(items: seq<LicitacionData>): set<string> {
    set i | 0 <= i < |items| :: DedupKey(items[i])
  }

  /** No two items share a key. */
  predicate DistinctKeys(items: seq<LicitacionData>) {
    forall i, j :: 0 <= i < j < |items| ==> DedupKey(items[i]) != DedupKey(items[j])
  }

  /** The loop of `_dedupe_by_id` from a given `seen` set on. */
  function DedupeFrom(items: seq<LicitacionData>, seen: set<string>): (r: seq<LicitacionData>)
    ensures KeySet(r) == KeySet(items) - seen
    ensures DistinctKeys(r)
    ensures Subsequence(r, items)
    decreases |items|
  {
    if items == [] then []
    else
      var k := DedupKey(items[0]);
      KeySetCons(items[0], items[1..]);
      assert items == [items[0]] + items[1..];
      if k in seen then
        var r := DedupeFrom(items[1..], seen);
        SubsequenceDrop(r, items);
        r
      else
        var rest := DedupeFrom(items[1..], seen + {k});
        var r := [items[0]] + rest;
        assert r[1..] == rest;
        KeySetCons(items[0], rest);
        DistinctCons(items[0], rest);
        r
  }

  /** The keys of a sequence are its head's key and the keys of its tail. */
  lemma KeySetCons(x: LicitacionData, xs: seq<LicitacionData>)
    ensures KeySet([x] + xs) == {DedupKey(x)} + KeySet(xs)
  {
    var r := [x] + xs;
    assert forall i :: 1 <= i < |r| ==> r[i] == xs[i - 1];
    forall y | y in KeySet(r) ensures y in {DedupKey(x)} + KeySet(xs) {
      var i :| 0 <= i < |r| && DedupKey(r[i]) == y;
      if i > 0 { assert DedupKey(xs[i - 1]) == y; }
    }
    forall y | y in KeySet(xs) ensures y in KeySet(r) {
      var i :| 0 <= i < |xs| && DedupKey(xs[i]) == y;
      assert DedupKey(r[i + 1]) == y;
    }
    assert r[0] == x && DedupKey(r[0]) in KeySet(r);
  }

  /** A head whose key the tail lacks keeps the keys distinct. */
  lemma DistinctCons(x: LicitacionData, xs: seq<LicitacionData>)
    requires DistinctKeys(xs) && DedupKey(x) !in KeySet(xs)
    ensures DistinctKeys([x] + xs)
  {
    var r := [x] + xs;
    forall i, j | 0 <= i < j < |r| ensures DedupKey(r[i]) != DedupKey(r[j]) {
      if i == 0 {
        assert r[j] == xs[j - 1];
        assert DedupKey(xs[j - 1]) in KeySet(xs);
      } else {
        assert r[i] == xs[i - 1] && r[j] == xs[j - 1];
      }
    }
  }

  /** `_dedupe_by_id(items)`. */
  function DedupeById(items: seq<LicitacionData>): (r: seq<LicitacionData>)
    ensures KeySet(r) == KeySet(items)
    ensures DistinctKeys(r)
    ensures Subsequence(r, items)
  {
    DedupeFrom(items, {})
  }

  /** Whether `items[i]` is the first item with its key. */
  predicate FirstOfKey(items: seq<LicitacionData>, i: nat)
    requires i < |items|
  {
    forall j :: 0 <= j < i ==> DedupKey(items[j]) != DedupKey(items[i])
  }

  /** `d` is the first item of its key in `items`, and that key is not in `seen`. */
  predicate KeptFirst(items: seq<LicitacionData>, seen: set<string>, d: LicitacionData) {
    exists i :: 0 <= i < |items| && items[i] == d && FirstOfKey(items, i) && DedupKey(items[i]) !in seen
  }

  /** The loop keeps exactly the first item of each key not yet seen. */
  lemma {:induction false} DedupeFromKeepsFirst(items: seq<LicitacionData>, seen: set<string>, k: nat)
    requires k < |DedupeFrom(items, seen)|
    ensures KeptFirst(items, seen, DedupeFrom(items, seen)[k])
    decreases |items|
  {
    var key := DedupKey(items[0]);
    var r := DedupeFrom(items, seen);
    if key in seen {
      assert r == DedupeFrom(items[1..], seen);
      DedupeFromKeepsFirst(items[1..], seen, k);
      KeptFirstShift(items, seen, seen, r[k]);
    } else if k == 0 {
      assert FirstOfKey(items, 0);
      assert items[0] == r[0];
    } else {
      var rest := DedupeFrom(items[1..], seen + {key});
      assert r[k] == rest[k - 1];
      DedupeFromKeepsFirst(items[1..], seen + {key}, k - 1);
      KeptFirstShift(items, seen + {key}, seen, r[k]);
    }
  }

  /** A first-of-key item after the head, whose key the head's `seen` set
      already holds, is first of its key in the whole sequence. */
  lemma KeptFirstShift(items: seq<LicitacionData>, seen': set<string>, seen: set<string>, d: LicitacionData)
    requires |items| > 0 && DedupKey(items[0]) in seen' && seen <= seen'
    requires KeptFirst(items[1..], seen', d)
    ensures KeptFirst(items, seen, d)
  {
    var i :| 0 <= i < |items[1..]| && items[1..][i] == d && FirstOfKey(items[1..], i) && DedupKey(items[1..][i]) !in seen';
    assert items[i + 1] == items[1..][i];
    forall j | 0 <= j < i + 1 ensures DedupKey(items[j]) != DedupKey(items[i + 1]) {
      if j > 0 { assert items[j] == items[1..][j - 1]; }
    }
    assert FirstOfKey(items, i + 1);
  }

  /** Every kept item is the first of its key in the input. */
  lemma DedupeKeepsFirst(items: seq<LicitacionData>, k: nat)
    requires k < |DedupeById(items)|
    ensures exists i :: 0 <= i < |items| && items[i] == DedupeById(items)[k] && FirstOfKey(items, i)
  {
    DedupeFromKeepsFirst(items, {}, k);
    var i :| 0 <= i < |items| && items[i] == DedupeById(items)[k] && FirstOfKey(items, i) && DedupKey(items[i]) !in {};
  }

  /** Items with distinct keys pass the loop unchanged. */
  lemma {:induction false} DistinctKeysUnchanged(items: seq<LicitacionData>, seen: set<string>)
    requires DistinctKeys(items)
    requires forall i :: 0 <= i < |items| ==> DedupKey(items[i]) !in seen
    ensures DedupeFrom(items, seen) == items
    decreases |items|
  {
    if items != [] {
      assert forall i :: 1 <= i < |items| ==> items[i] == items[1..][i - 1];
      DistinctKeysUnchanged(items[1..], seen + {DedupKey(items[0])});
    }
  }

  /** Deduplicating twice is deduplicating once. */
  lemma DedupeIdempotent(items: seq<LicitacionData>)
    ensures DedupeById(DedupeById(items)) == DedupeById(items)
  {
    DistinctKeysUnchanged(DedupeById(items), {});
  }

  // ── `_parse_api_response` ─────────────────────────────────────────────────

  /** The adapter's short name. */
  const ShortName: string := "comprar"

  /** The title used when an item has neither description nor title. */
  const Untitled: string := "Sin título"

  /** `data.get("data", data.get("items", data.get("resultado", [])))`:
      the first present key wins, whatever its value. */
  function ApiItems(fields: seq<(string, Json)>): Json {
    GetOr(fields, "data", GetOr(fields, "items", GetOr(fields, "resultado", JArr([]))))
  }

  /** `item.get("url") or item.get("urlDetalle") or ""`, resolved against
      the base URL: None where the value is truthy but not text (its
      `startswith` raises); otherwise an absolute URL kept, a relative one
      joined to the base, and no URL at all replaced by the base. */
  function DetailUrl(fields: seq<(string, Json)>, baseUrl: string, libs: Libs): (r: Option<string>)
    ensures var u := Or(Get(fields, "url"), Get(fields, "urlDetalle"));
      && (r.None? <==> Truthy(u) && !u.JStr?)
      && (Truthy(u) && u.JStr? && StartsWith(u.s, "http") ==> r == Some(u.s))
      && (Truthy(u) && u.JStr? && !StartsWith(u.s, "http") && libs.urljoin(baseUrl, u.s) != "" ==>
            r == Some(libs.urljoin(baseUrl, u.s)))
      && (!Truthy(u) ==> r == Some(baseUrl))
  {
    var u := Or(Get(fields, "url"), Get(fields, "urlDetalle"));
    if Truthy(u) && !u.JStr? then None
    else
      var url := if !Truthy(u) then "" else if StartsWith(u.s, "http") then u.s else libs.urljoin(baseUrl, u.s);
      Some(if url == "" then baseUrl else url)
  }

  /** The record of one API object whose detail URL is `url`. */
  function ApiRecord(item: Json, url: string, keyword: string, libs: Libs): (r: LicitacionData)
    requires item.JObj?
    ensures r.titulo == Text(Or(Or(Get(item.fields, "descripcion"), Get(item.fields, "titulo")), JStr(Untitled)))
    ensures r.portalShortName == ShortName && r.urlDetalle == url
    ensures r.externalId == Some(Str(Or(Or(Get(item.fields, "nroExpediente"), Get(item.fields, "id")), JStr(""))))
    ensures r.matchedKeywords == [keyword] && r.rawData == item
  {
    var f := item.fields;
    var d := NewRecord(Text(Or(Or(Get(f, "descripcion"), Get(f, "titulo")), JStr(Untitled))), ShortName, url);
    d.(externalId := Some(Str(Or(Or(Get(f, "nroExpediente"), Get(f, "id")), JStr("")))),
       organismo := OptText(Or(Get(f, "organismo"), Get(f, "reparticion"))),
       tipoContratacion := OptText(Or(Get(f, "tipoContratacion"), Get(f, "modalidad"))),
       montoEstimado := AmountOf(f, ["montoEstimado", "monto", "presupuesto"], libs),
       fechaPublicacion := IsoDateOf(f, ["fechaPublicacion", "fecha_publicacion", "fechaCreacion"], libs),
       matchedKeywords := [keyword],
       rawData := item)
  }

  /** The record of one API item, or None where mapping it raises (the item
      is not an object, or its URL value is neither text nor falsy). */
  function ParseItem(item: Json, keyword: string, baseUrl: string, libs: Libs): (r: Option<LicitacionData>)
    ensures r.Some? <==> item.JObj? && DetailUrl(item.fields, baseUrl, libs).Some?
    ensures r.Some? ==> r.value == ApiRecord(item, DetailUrl(item.fields, baseUrl, libs).value, keyword, libs)
  {
    if !item.JObj? then None
    else
      match DetailUrl(item.fields, baseUrl, libs)
      case None => None
      case Some(url) => Some(ApiRecord(item, url, keyword, libs))
  }

  /** Each item's record, by position: one where the item maps, none where
      mapping it raises. */
  function ItemRecords(items: seq<Json>, keyword: string, baseUrl: string, libs: Libs): (r: seq<seq<LicitacionData>>)
    ensures |r| == |items|
    ensures forall i :: 0 <= i < |items| ==> r[i] == AsList(ParseItem(items[i], keyword, baseUrl, libs))
  {
    seq(|items|, i requires 0 <= i < |items| => AsList(ParseItem(items[i], keyword, baseUrl, libs)))
  }

  /** `_parse_api_response(data, keyword)`: Err where the response is not an
      object (the `.get` raises); no records when the selected items value
      is not a list; otherwise the records of the items that map, in order. */
  function ParseApiResponse(data: Json, keyword: string, baseUrl: string, libs: Libs): (r: Result<seq<LicitacionData>, string>)
    ensures r.Err? <==> !data.JObj?
    ensures r.Ok? && !ApiItems(data.fields).JArr? ==> r.value == []
    ensures r.Ok? && ApiItems(data.fields).JArr? ==>
      var items := ApiItems(data.fields).items;
      && |r.value| <= |items|
      && (forall k :: 0 <= k < |r.value| ==> exists i :: 0 <= i < |items| && ParseItem(items[i], keyword, baseUrl, libs) == Some(r.value[k]))
      && r.value == Flatten(ItemRecords(items, keyword, baseUrl, libs))
    ensures r.Ok? ==> forall k :: 0 <= k < |r.value| ==>
      r.value[k].portalShortName == ShortName && r.value[k].matchedKeywords == [keyword]
  {
    if !data.JObj? then Err("'" + TypeName(data) + "' object has no attribute 'get'")
    else
      var items := ApiItems(data.fields);
      if !items.JArr? then Ok([])
      else
        var f := (it: Json) => ParseItem(it, keyword, baseUrl, libs);
        var r := FilterMap(items.items, f);
        assert forall k :: 0 <= k < |r| ==> exists i :: 0 <= i < |items.items| && ParseItem(items.items[i], keyword, baseUrl, libs) == Some(r[k]);
        FilterMapIsFlatten(items.items, f);
        assert Images(items.items, f) == ItemRecords(items.items, keyword, baseUrl, libs);
        Ok(r)
  }

  // ── `_search_keyword` and `_fetch_licitaciones` ───────────────────────────

  /** `_try_api`: a failed request or an undecodable body (caught) gives no
      records; a decoded body goes to `_parse_api_response`, whose own
      failure propagates. */
  function TryApi(response: Result<Json, string>, keyword: string, baseUrl: string, libs: Libs): (r: Result<seq<LicitacionData>, string>)
    ensures response.Err? ==> r == Ok([])
    ensures response.Ok? ==> r == ParseApiResponse(response.value, keyword, baseUrl, libs)
  {
    match response
    case Err(_) => Ok([])
    case Ok(data) => ParseApiResponse(data, keyword, baseUrl, libs)
  }

  /** What the network answers for one keyword: the API response, and what
      the web search (with its own fallbacks) would return. */
  datatype KeywordAnswer = KeywordAnswer(api: Result<Json, string>, web: seq<LicitacionData>)

  /** `_search_keyword`: the API's records when there are any, the web
      search's otherwise. */
  function SearchKeyword(keyword: string, a: KeywordAnswer, baseUrl: string, libs: Libs): (r: Result<seq<LicitacionData>, string>)
    ensures TryApi(a.api, keyword, baseUrl, libs).Err? <==> r.Err?
    ensures r.Ok? && TryApi(a.api, keyword, baseUrl, libs).value != [] ==> r.value == TryApi(a.api, keyword, baseUrl, libs).value
    ensures r.Ok? && TryApi(a.api, keyword, baseUrl, libs).value == [] ==> r.value == a.web
  {
    var api :- TryApi(a.api, keyword, baseUrl, libs);
    if api != [] then Ok(api) else Ok(a.web)
  }

  /** The web search is consulted only when the API yields no records:
      once it yields some, what the web would answer makes no difference. */
  lemma WebOnlyWithoutApiResults(keyword: string, api: Result<Json, string>, web1: seq<LicitacionData>,
                                 web2: seq<LicitacionData>, baseUrl: string, libs: Libs)
    requires TryApi(api, keyword, baseUrl, libs).Ok? && TryApi(api, keyword, baseUrl, libs).value != []
    ensures SearchKeyword(keyword, KeywordAnswer(api, web1), baseUrl, libs)
         == SearchKeyword(keyword, KeywordAnswer(api, web2), baseUrl, libs)
         == TryApi(api, keyword, baseUrl, libs)
  {
  }

  /** An API item that maps always leaves a record, so an API answer with
      such an item keeps the web search from running. */
  lemma {:induction false} MappedItemBlocksWeb(keyword: string, api: Result<Json, string>, baseUrl: string,
                                               libs: Libs, i: nat)
    requires api.Ok? && api.value.JObj? && ApiItems(api.value.fields).JArr?
    requires i < |ApiItems(api.value.fields).items|
    requires ParseItem(ApiItems(api.value.fields).items[i], keyword, baseUrl, libs).Some?
    ensures TryApi(api, keyword, baseUrl, libs).Ok? && TryApi(api, keyword, baseUrl, libs).value != []
  {
    var items := ApiItems(api.value.fields).items;
    FilterMapKeeps(items, (it: Json) => ParseItem(it, keyword, baseUrl, libs), i);
  }

  /** What one keyword adds: its records, or nothing when its search raises. */
  function KeywordRecords(baseUrl: string, libs: Libs): (string, KeywordAnswer) -> seq<LicitacionData> {
    (keyword: string, a: KeywordAnswer) =>
      var mine := SearchKeyword(keyword, a, baseUrl, libs);
      if mine.Ok? then mine.value else []
  }

  /** The results of every keyword whose search did not raise, in keyword order. */
  function Collected(keywords: seq<string>, answers: seq<KeywordAnswer>, baseUrl: string, libs: Libs): (r: seq<LicitacionData>)
    requires |answers| == |keywords|
    ensures r == Flatten(Zip(keywords, answers, KeywordRecords(baseUrl, libs)))
    decreases |keywords|
  {
    if keywords == [] then []
    else
      var n := |keywords| - 1;
      var mine := SearchKeyword(keywords[n], answers[n], baseUrl, libs);
      var tail := if mine.Ok? then mine.value else [];
      FlattenZipSnoc(keywords, answers, KeywordRecords(baseUrl, libs));
      Collected(keywords[..n], answers[..n], baseUrl, libs) + tail
  }

  /** `_fetch_licitaciones`: each keyword searched in turn (a keyword whose
      search raises contributes nothing), then the whole deduplicated. */
  function FetchLicitaciones(keywords: seq<string>, answers: seq<KeywordAnswer>, baseUrl: string, libs: Libs): (r: seq<LicitacionData>)
    requires |answers| == |keywords|
    ensures DistinctKeys(r)
    ensures KeySet(r) == KeySet(Collected(keywords, answers, baseUrl, libs))
    ensures Subsequence(r, Collected(keywords, answers, baseUrl, libs))
  {
    DedupeById(Collected(keywords, answers, baseUrl, libs))
  }
}
