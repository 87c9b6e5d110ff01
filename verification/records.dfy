/** The adapter-neutral tender record (`LicitacionData`), its deduplication
    key, and the pieces of `BaseScraper` that are pure: construction, the
    request-header merge and safe text extraction from a parsed element. */
module Records {
  import opened Wrappers
  import opened Strings
  import opened Json
  import opened Models

  // ── The record ────────────────────────────────────────────────────────────

  datatype LicitacionData = LicitacionData(
    titulo: string,
    portalShortName: string,
    urlDetalle: string,
    externalId: Option<string>,
    descripcion: Option<string>,
    numeroExpediente: Option<string>,
    numeroLicitacion: Option<string>,
    organismo: Option<string>,
    tipoContratacion: Option<string>,
    montoEstimado: Option<real>,
    moneda: Option<string>,
    fechaPublicacion: Option<Time>,
    fechaApertura: Option<Time>,
    fechaCierre: Option<Time>,
    urlPliego: Option<string>,
    matchedKeywords: seq<string>,
    rawData: Json)

  /** A record built from its three required fields; every optional field
      takes its declared default (currency "ARS", empty keyword list and raw data). */
  function NewRecord(titulo: string, portalShortName: string, urlDetalle: string): LicitacionData {
    LicitacionData(titulo, portalShortName, urlDetalle, None, None, None, None, None, None,
                   None, Some("ARS"), None, None, None, None, [], JObj([]))
  }

  /** Python's `x or ""` on an optional string. */
  function OrEmpty(o: Option<string>): string {
    o.GetOr("")
  }

  /** The five key parts, in hashing order. */
  function KeyParts(d: LicitacionData): seq<string> {
    [ Lower(Strip(d.titulo)),
      Strip(OrEmpty(d.externalId)),
      Strip(OrEmpty(d.numeroLicitacion)),
      Strip(OrEmpty(d.organismo)),
      d.portalShortName ]
  }

  /** The string `compute_hash` digests: the key parts separated by "|". */
  function Preimage(d: LicitacionData): string {
    var k := KeyParts(d);
    k[0] + "|" + k[1] + "|" + k[2] + "|" + k[3] + "|" + k[4]
  }

  /** The preimage is Python's `"|".join(key_parts)`. */
  lemma PreimageIsJoin(d: LicitacionData)
    ensures Preimage(d) == Join(KeyParts(d), "|")
  {
    var k := KeyParts(d);
    JoinFive(k[0], k[1], k[2], k[3], k[4]);
    assert k == [k[0], k[1], k[2], k[3], k[4]];
  }

  lemma JoinFive(a: string, b: string, c: string, d: string, e: string)
    ensures Join([a, b, c, d, e], "|") == a + "|" + b + "|" + c + "|" + d + "|" + e
  {
    var k := [a, b, c, d, e];
    assert k[1..] == [b, c, d, e] && k[1..][1..] == [c, d, e];
    assert k[1..][1..][1..] == [d, e] && k[1..][1..][1..][1..] == [e];
    assert Join([e], "|") == e;
    assert Join([d, e], "|") == d + "|" + e;
    assert Join([c, d, e], "|") == c + "|" + (d + "|" + e);
    assert Join([b, c, d, e], "|") == b + "|" + (c + "|" + (d + "|" + e));
  }

  /** `compute_hash`: an opaque digest `h` (SHA-256 in the system) of the preimage. */
  function ContentHash(d: LicitacionData, h: string -> Hash): (r: Hash)
    ensures r == h(Join(KeyParts(d), "|"))
  {
    PreimageIsJoin(d);
    h(Preimage(d))
  }

  /** Records agreeing on the five key parts share a hash, whatever their
      URLs, dates, amount, currency, description, file number, matched
      keywords or raw data. */
  lemma HashIgnoresNonKeyFields(d1: LicitacionData, d2: LicitacionData, h: string -> Hash)
    requires d1.titulo == d2.titulo && d1.externalId == d2.externalId
    requires d1.numeroLicitacion == d2.numeroLicitacion && d1.organismo == d2.organismo
    requires d1.portalShortName == d2.portalShortName
    ensures ContentHash(d1, h) == ContentHash(d2, h)
  {
  }

  /** Titles differing only in surrounding white space and letter case hash alike. */
  lemma HashIgnoresTitlePaddingAndCase(d: LicitacionData, w1: string, t1: string, w2: string,
                                       t2: string, h: string -> Hash)
    requires AllSpace(w1) && AllSpace(w2) && Lower(t1) == Lower(t2)
    ensures ContentHash(d.(titulo := w1 + t1 + w2), h) == ContentHash(d.(titulo := t2), h)
  {
    StripIgnoresPadding(w1, t1, w2);
    LowerStripCommute(t1);
    LowerStripCommute(t2);
  }

  /** A missing optional key field, an empty one and an all-blank one give
      the same preimage. */
  lemma PreimageBlankOptional(d: LicitacionData, blank: string)
    requires AllSpace(blank)
    ensures Preimage(d.(externalId := None)) == Preimage(d.(externalId := Some(blank)))
    ensures Preimage(d.(numeroLicitacion := None)) == Preimage(d.(numeroLicitacion := Some(blank)))
    ensures Preimage(d.(organismo := None)) == Preimage(d.(organismo := Some(blank)))
  {
    BlankReadsAsMissing(blank);
    KeyPartsCongruent(d.(externalId := None), d.(externalId := Some(blank)));
    KeyPartsCongruent(d.(numeroLicitacion := None), d.(numeroLicitacion := Some(blank)));
    KeyPartsCongruent(d.(organismo := None), d.(organismo := Some(blank)));
  }

  lemma BlankReadsAsMissing(blank: string)
    requires AllSpace(blank)
    ensures Strip(OrEmpty(None)) == Strip(OrEmpty(Some(blank))) == []
  {
    StripOfBlank(blank);
    StripOfBlank("");
  }

  /** Records whose optional key fields strip alike have the same preimage. */
  lemma KeyPartsCongruent(d1: LicitacionData, d2: LicitacionData)
    requires d1.titulo == d2.titulo && d1.portalShortName == d2.portalShortName
    requires Strip(OrEmpty(d1.externalId)) == Strip(OrEmpty(d2.externalId))
    requires Strip(OrEmpty(d1.numeroLicitacion)) == Strip(OrEmpty(d2.numeroLicitacion))
    requires Strip(OrEmpty(d1.organismo)) == Strip(OrEmpty(d2.organismo))
    ensures Preimage(d1) == Preimage(d2)
  {
    assert KeyParts(d1) == KeyParts(d2);
  }

  /** Records equal in every other key part but with different stripped
      organisations have different preimages. */
  lemma PreimageOrganismoSensitive(d1: LicitacionData, d2: LicitacionData)
    requires d1.titulo == d2.titulo && d1.externalId == d2.externalId
    requires d1.numeroLicitacion == d2.numeroLicitacion
    requires d1.portalShortName == d2.portalShortName
    requires Strip(OrEmpty(d1.organismo)) != Strip(OrEmpty(d2.organismo))
    ensures Preimage(d1) != Preimage(d2)
  {
    var k1 := KeyParts(d1);
    var k2 := KeyParts(d2);
    FourthPartDistinguishes(k1[0], k1[1], k1[2], k1[3], k2[3], k1[4]);
  }

  lemma FourthPartDistinguishes(a: string, b: string, c: string, o1: string, o2: string, e: string)
    requires o1 != o2
    ensures a + "|" + b + "|" + c + "|" + o1 + "|" + e != a + "|" + b + "|" + c + "|" + o2 + "|" + e
  {
    var p := a + "|" + b + "|" + c + "|";
    assert a + "|" + b + "|" + c + "|" + o1 + "|" + e == p + o1 + ("|" + e);
    assert a + "|" + b + "|" + c + "|" + o2 + "|" + e == p + o2 + ("|" + e);
    if |o1| == |o2| {
      assert (p + o1 + ("|" + e))[|p|..|p| + |o1|] == o1;
      assert (p + o2 + ("|" + e))[|p|..|p| + |o2|] == o2;
    }
  }

  /** Text with no white space and no capitals: stripping and lower-casing
      leave it as it is. */
  predicate Plain(s: string) {
    forall i :: 0 <= i < |s| ==> !IsSpace(s[i]) && LowerChar(s[i]) == s[i]
  }

  /** The "|" separator is not escaped: the title "a|b" and the title "a"
      with external id "b|" differ in their key parts but share a preimage,
      and so a hash. */
  lemma PreimageSeparatorAmbiguous(a: string, b: string, p: string, h: string -> Hash)
    requires Plain(a) && Plain(b)
    ensures KeyParts(NewRecord(a + "|" + b, p, "")) != KeyParts(NewRecord(a, p, "").(externalId := Some(b + "|")))
    ensures ContentHash(NewRecord(a + "|" + b, p, ""), h)
         == ContentHash(NewRecord(a, p, "").(externalId := Some(b + "|")), h)
  {
    SeparatorKeyParts(a, b, p);
    SeparatorPreimage(a, b, p);
  }

  lemma SeparatorKeyParts(a: string, b: string, p: string)
    requires Plain(a) && Plain(b)
    ensures KeyParts(NewRecord(a + "|" + b, p, "")) != KeyParts(NewRecord(a, p, "").(externalId := Some(b + "|")))
  {
    PlainJoin(a, b);
    TitleParts(a + "|" + b, p);
    IdParts(a, b + "|", p);
  }

  lemma SeparatorPreimage(a: string, b: string, p: string)
    requires Plain(a) && Plain(b)
    ensures Preimage(NewRecord(a + "|" + b, p, "")) == Preimage(NewRecord(a, p, "").(externalId := Some(b + "|")))
  {
    PlainJoin(a, b);
    var d1 := NewRecord(a + "|" + b, p, "");
    var d2 := NewRecord(a, p, "").(externalId := Some(b + "|"));
    TitleParts(a + "|" + b, p);
    IdParts(a, b + "|", p);
    KeyPartsJoined(d1, [a + "|" + b, "", "", "", p]);
    KeyPartsJoined(d2, [a, b + "|", "", "", p]);
    SeparatorShift(a, b, p);
  }

  lemma TitleParts(t: string, p: string)
    requires Plain(t)
    ensures KeyParts(NewRecord(t, p, "")) == [t, "", "", "", p]
  {
    KeyPartsPlain(NewRecord(t, p, ""));
  }

  lemma IdParts(a: string, e: string, p: string)
    requires Plain(a) && Plain(e)
    ensures KeyParts(NewRecord(a, p, "").(externalId := Some(e))) == [a, e, "", "", p]
  {
    KeyPartsPlain(NewRecord(a, p, "").(externalId := Some(e)));
  }

  /** Plain key fields are their own key parts. */
  lemma KeyPartsPlain(d: LicitacionData)
    requires Plain(d.titulo) && Plain(OrEmpty(d.externalId))
    requires Plain(OrEmpty(d.numeroLicitacion)) && Plain(OrEmpty(d.organismo))
    ensures KeyParts(d) == [d.titulo, OrEmpty(d.externalId), OrEmpty(d.numeroLicitacion), OrEmpty(d.organismo), d.portalShortName]
  {
    PlainStrip(d.titulo);
    PlainStrip(OrEmpty(d.externalId));
    PlainStrip(OrEmpty(d.numeroLicitacion));
    PlainStrip(OrEmpty(d.organismo));
  }

  lemma KeyPartsJoined(d: LicitacionData, parts: seq<string>)
    requires KeyParts(d) == parts
    ensures |parts| == 5
    ensures Preimage(d) == parts[0] + "|" + parts[1] + "|" + parts[2] + "|" + parts[3] + "|" + parts[4]
  {
  }

  lemma SeparatorShift(a: string, b: string, p: string)
    ensures (a + "|" + b) + "|" + "" + "|" + "" + "|" + "" + "|" + p
         == a + "|" + (b + "|") + "|" + "" + "|" + "" + "|" + p
  {
  }

  /** Joining plain texts with "|" keeps them plain. */
  lemma PlainJoin(a: string, b: string)
    requires Plain(a) && Plain(b)
    ensures Plain(a + "|" + b) && Plain(b + "|")
  {
    var t := a + "|" + b;
    assert forall i :: 0 <= i < |t| ==> t[i] == (if i < |a| then a[i] else if i == |a| then '|' else b[i - |a| - 1]);
  }

  /** Plain text is its own key part. */
  lemma PlainStrip(s: string)
    requires Plain(s)
    ensures Strip(s) == s && Lower(s) == s
  {
    StripUnpadded(s);
    PlainLower(s);
  }

  lemma PlainLower(s: string)
    requires Plain(s)
    ensures Lower(s) == s
  {
  }

  // ── BaseScraper ───────────────────────────────────────────────────────────

  /** The state every adapter shares after construction. */
  datatype ScraperBase = ScraperBase(baseUrl: string, config: Json)

  /** `BaseScraper.__init__`: trailing "/" removed from the URL, a missing
      or empty configuration replaced by an empty mapping. */
  function NewScraperBase(baseUrl: string, config: Option<Json>): (r: ScraperBase)
    ensures r.baseUrl == RStripChar(baseUrl, '/')
    ensures r.baseUrl == [] || r.baseUrl[|r.baseUrl| - 1] != '/'
    ensures config.None? ==> r.config == JObj([])
    ensures config.Some? && Truthy(config.value) ==> r.config == config.value
    ensures !Truthy(r.config) ==> r.config == JObj([])
  {
    var c := if config.Some? && Truthy(config.value) then config.value else JObj([]);
    ScraperBase(RStripChar(baseUrl, '/'), c)
  }

  /** Stripping is already done: a second construction changes nothing. */
  lemma NewScraperBaseIdempotent(baseUrl: string, config: Option<Json>)
    ensures var b := NewScraperBase(baseUrl, config);
            NewScraperBase(b.baseUrl, Some(b.config)) == b
  {
  }

  function DefaultHeaders(): seq<(string, Json)> {
    [ ("User-Agent", JStr("Mozilla/5.0 (Windows NT 10.0; Win64; x64) AppleWebKit/537.36 (KHTML, like Gecko) Chrome/120.0.0.0 Safari/537.36")),
      ("Accept", JStr("text/html,application/xhtml+xml,application/xml;q=0.9,*/*;q=0.8")),
      ("Accept-Language", JStr("es-AR,es;q=0.9,en;q=0.8")),
      ("Accept-Encoding", JStr("gzip, deflate, br")) ]
  }

  /** `{**base, **extra}`: each binding of `extra` applied in order. */
  function Overlay(base: seq<(string, Json)>, extra: seq<(string, Json)>): (r: seq<(string, Json)>)
    ensures forall k :: Lookup(r, k) == if Lookup(extra, k).Some? then Lookup(extra, k) else Lookup(base, k)
    decreases |extra|
  {
    if extra == [] then base
    else
      var init := extra[..|extra| - 1];
      var (k, v) := extra[|extra| - 1];
      var r := Set(Overlay(base, init), k, v);
      assert forall k' :: Lookup(extra, k') == if k' == k then Some(v) else Lookup(init, k');
      r
  }

  /** The headers `search` sends: the defaults overridden key by key by the
      configuration's `extra_headers` (`ConfiguredHeaders` states how). */
  function RequestHeaders(s: ScraperBase): Result<seq<(string, Json)>, string> {
    ConfiguredHeaders(DefaultHeaders(), s.config)
  }

  /** The text of the exception building the headers raises, if it raises:
      the configuration's `.get` fails on a non-mapping, and the `**` unpacking
      fails on an `extra_headers` that is not a mapping. */
  function HeadersError(config: Json): Option<string> {
    if !config.JObj? then
      Some("'" + TypeName(config) + "' object has no attribute 'get'")
    else
      var extra := GetOr(config.fields, "extra_headers", JObj([]));
      if !extra.JObj? then Some("'" + TypeName(extra) + "' object is not a mapping")
      else None
  }

  /** `{**base, **config.get("extra_headers", {})}`: a configuration that is
      not a mapping, or an `extra_headers` that is not one, raises before any
      request, with the text `HeadersError` gives. */
  function ConfiguredHeaders(base: seq<(string, Json)>, config: Json): (r: Result<seq<(string, Json)>, string>)
    ensures r.Ok? <==> config.JObj? && GetOr(config.fields, "extra_headers", JObj([])).JObj?
    ensures r.Err? <==> HeadersError(config).Some?
    ensures r.Err? ==> r.error == HeadersError(config).value
    ensures r.Ok? ==> forall k ::
      var extra := GetOr(config.fields, "extra_headers", JObj([])).fields;
      Lookup(r.value, k) == if Lookup(extra, k).Some? then Lookup(extra, k) else Lookup(base, k)
  {
    match HeadersError(config)
    case Some(e) => Err(e)
    case None => Ok(Overlay(base, GetOr(config.fields, "extra_headers", JObj([])).fields))
  }

  /** Extra headers override the base headers but never remove one: every
      base header (a default header, for `RequestHeaders`) is still sent. */
  lemma ConfiguredHeadersKeepBase(base: seq<(string, Json)>, config: Json, k: string)
    requires ConfiguredHeaders(base, config).Ok? && Lookup(base, k).Some?
    ensures Lookup(ConfiguredHeaders(base, config).value, k).Some?
  {
  }

  // ── Parsed elements ───────────────────────────────────────────────────────

  /** A parsed HTML element, reduced to what the adapters read from it: its
      text nodes in document order and its `href` attribute. */
  datatype Node = Node(texts: seq<string>, href: Option<string>)

  /** `element.get_text(strip=True)`: every text node stripped, then concatenated. */
  function GetText(texts: seq<string>): string
    decreases |texts|
  {
    if texts == [] then "" else Strip(texts[0]) + GetText(texts[1..])
  }

  lemma StripEmptyIffBlank(s: string)
    ensures Strip(s) == [] <==> AllSpace(s)
  {
    if AllSpace(s) {
      StripOfBlank(s);
    } else {
      var a, b := StripDecompose(s);
    }
  }

  lemma {:induction false} GetTextEmptyIffBlank(texts: seq<string>)
    ensures GetText(texts) == [] <==> forall i :: 0 <= i < |texts| ==> AllSpace(texts[i])
    decreases |texts|
  {
    if texts != [] {
      GetTextEmptyIffBlank(texts[1..]);
      StripEmptyIffBlank(texts[0]);
      assert forall i :: 1 <= i < |texts| ==> texts[i] == texts[1..][i - 1];
    }
  }

  /** `_safe_text`: no text for a missing element or one whose text is all blank. */
  function SafeText(e: Option<Node>): (r: Option<string>)
    ensures r.Some? ==> r.value != []
    ensures r.None? <==> e.None? || forall i :: 0 <= i < |e.value.texts| ==> AllSpace(e.value.texts[i])
  {
    if e.None? then None
    else
      var t := GetText(e.value.texts);
      GetTextEmptyIffBlank(e.value.texts);
      if t == [] then None else Some(t)
  }
}
