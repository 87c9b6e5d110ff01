/** What the adapters share when they turn decoded JSON into records:
    Python's `or` on decoded values, reading a value as text, keeping the
    items that map, and the foreign libraries they call (URL joining, date
    and number parsing), which this model takes as parameters. */
module Mapping {
  import opened Wrappers
  import opened Strings
  import opened Json
  import opened Models

  /** The foreign functions the adapters call: `urllib.parse.urljoin`,
      `datetime.fromisoformat` and `dateparser.parse` (None where they raise
      or give up), and `float()` of a string (None where it raises). */
  datatype Libs = Libs(
    urljoin: (string, string) -> string,
    isoDate: string -> Option<Time>,
    parseDate: string -> Option<Time>,
    toFloat: string -> Option<real>)

  /** Python's `a or b` on decoded values. */
  function Or(a: Json, b: Json): (r: Json)
    ensures Truthy(a) ==> r == a
    ensures !Truthy(a) ==> r == b
  {
    if Truthy(a) then a else b
  }

  /** A decoded value kept in an optional text field: a string as it is,
      `null` as no text. */
  function OptText(j: Json): (r: Option<string>)
    ensures j.JStr? <==> r.Some?
    ensures j.JStr? ==> r.value == j.s
  {
    if j.JStr? then Some(j.s) else None
  }

  /** A decoded value kept in a text field: a string as it is, anything
      else as `str()` prints it. */
  function Text(j: Json): (r: string)
    ensures j.JStr? ==> r == j.s
  {
    Str(j)
  }

  /** The items that map to something, each replaced by what it maps to,
      in order: a loop that skips an item whose mapping raises. */
  function FilterMap<A, B>(xs: seq<A>, f: A -> Option<B>): (r: seq<B>)
    ensures |r| <= |xs|
    ensures (forall i :: 0 <= i < |xs| ==> f(xs[i]).Some?) ==> |r| == |xs|
    ensures forall k :: 0 <= k < |r| ==> exists i :: 0 <= i < |xs| && f(xs[i]) == Some(r[k])
    decreases |xs|
  {
    if xs == [] then []
    else
      var rest := FilterMap(xs[1..], f);
      assert forall i :: 1 <= i < |xs| ==> xs[i] == xs[1..][i - 1];
      match f(xs[0])
      case None => rest
      case Some(y) =>
        var r := [y] + rest;
        assert forall k :: 1 <= k < |r| ==> r[k] == rest[k - 1];
        r
  }

  /** An optional value as a list of at most one element. */
  function AsList<B>(o: Option<B>): (r: seq<B>)
    ensures |r| <= 1 && (r != [] <==> o.Some?)
    ensures o.Some? ==> r == [o.value]
  {
    if o.Some? then [o.value] else []
  }

  /** What each item maps to, as a list of at most one element, by position. */
  function Images<A, B>(xs: seq<A>, f: A -> Option<B>): (r: seq<seq<B>>)
    ensures |r| == |xs|
    ensures forall i :: 0 <= i < |xs| ==> r[i] == AsList(f(xs[i]))
  {
    seq(|xs|, i requires 0 <= i < |xs| => AsList(f(xs[i])))
  }

  /** The result is the images of the items that map, in item order: none
      is dropped, duplicated or moved. */
  lemma {:induction false} FilterMapIsFlatten<A, B>(xs: seq<A>, f: A -> Option<B>)
    ensures FilterMap(xs, f) == Flatten(Images(xs, f))
    decreases |xs|
  {
    if xs != [] {
      FilterMapIsFlatten(xs[1..], f);
      var im := Images(xs, f);
      assert im[1..] == Images(xs[1..], f);
      assert Flatten(im) == AsList(f(xs[0])) + Flatten(im[1..]);
    }
  }

  /** Every item that maps leaves its image in the result. */
  lemma {:induction false} FilterMapKeeps<A, B>(xs: seq<A>, f: A -> Option<B>, i: nat)
    requires i < |xs| && f(xs[i]).Some?
    ensures f(xs[i]).value in FilterMap(xs, f)
    decreases |xs|
  {
    if i > 0 {
      FilterMapKeeps(xs[1..], f, i - 1);
    }
  }

  /** The lists joined end to end, first to last. */
  function Flatten<T>(xss: seq<seq<T>>): seq<T>
    decreases |xss|
  {
    if xss == [] then [] else xss[0] + Flatten(xss[1..])
  }

  /** Appending one more list to the lists appends it to their join. */
  lemma {:induction false} FlattenSnoc<T>(xss: seq<seq<T>>, xs: seq<T>)
    ensures Flatten(xss + [xs]) == Flatten(xss) + xs
    decreases |xss|
  {
    if xss != [] {
      assert (xss + [xs])[1..] == xss[1..] + [xs];
      FlattenSnoc(xss[1..], xs);
    } else {
      assert Flatten([xs]) == xs + Flatten([xs][1..]);
    }
  }

  /** `f` applied to the pairs of two equally long lists, by position. */
  function Zip<A, B, C>(xs: seq<A>, ys: seq<B>, f: (A, B) -> C): (r: seq<C>)
    requires |ys| == |xs|
    ensures |r| == |xs|
    ensures forall j :: 0 <= j < |r| ==> r[j] == f(xs[j], ys[j])
  {
    seq(|xs|, j requires 0 <= j < |xs| => f(xs[j], ys[j]))
  }

  /** The pairs by position are those of all but the last, then the last. */
  lemma ZipSnoc<A, B, C>(xs: seq<A>, ys: seq<B>, f: (A, B) -> C)
    requires |ys| == |xs| > 0
    ensures var n := |xs| - 1;
      Zip(xs, ys, f) == Zip(xs[..n], ys[..n], f) + [f(xs[n], ys[n])]
  {
    var n := |xs| - 1;
    var a := Zip(xs, ys, f);
    var b := Zip(xs[..n], ys[..n], f) + [f(xs[n], ys[n])];
    forall j | 0 <= j < |a| ensures a[j] == b[j] {
      if j < n { assert xs[..n][j] == xs[j] && ys[..n][j] == ys[j]; }
    }
  }

  /** Joining the per-position lists of a longer pair of lists appends the
      last position's list. */
  lemma FlattenZipSnoc<A, B, T>(xs: seq<A>, ys: seq<B>, f: (A, B) -> seq<T>)
    requires |ys| == |xs| > 0
    ensures var n := |xs| - 1;
      Flatten(Zip(xs, ys, f)) == Flatten(Zip(xs[..n], ys[..n], f)) + f(xs[n], ys[n])
  {
    var n := |xs| - 1;
    ZipSnoc(xs, ys, f);
    FlattenSnoc(Zip(xs[..n], ys[..n], f), f(xs[n], ys[n]));
  }

  /** The values of the first of `keys` whose value in the object is truthy
      (`for k in keys: if item.get(k): ...; break`). */
  function FirstTruthyKey(fields: seq<(string, Json)>, keys: seq<string>): (r: Option<Json>)
    ensures r.Some? ==> Truthy(r.value) && exists k :: k in keys && Get(fields, k) == r.value
    ensures r.None? <==> forall k :: k in keys ==> !Truthy(Get(fields, k))
    decreases |keys|
  {
    if keys == [] then None
    else if Truthy(Get(fields, keys[0])) then Some(Get(fields, keys[0]))
    else
      assert forall k :: k in keys ==> k == keys[0] || k in keys[1..];
      FirstTruthyKey(fields, keys[1..])
  }

  /** A date field read from the first truthy of `keys` with ISO parsing,
      `Z` read as `+00:00`: no date when no key holds one, when the value is
      not a string, or when it does not parse. */
  function IsoDateOf(fields: seq<(string, Json)>, keys: seq<string>, libs: Libs): (r: Option<Time>)
    ensures FirstTruthyKey(fields, keys).None? ==> r.None?
  {
    match FirstTruthyKey(fields, keys)
    case None => None
    case Some(v) => if v.JStr? then libs.isoDate(ReplaceAll(v.s, "Z", "+00:00")) else None
  }

  /** An amount read from the first truthy of `keys`: its text without
      thousands separators and points, parsed as a float. */
  function AmountOf(fields: seq<(string, Json)>, keys: seq<string>, libs: Libs): (r: Option<real>)
    ensures FirstTruthyKey(fields, keys).None? ==> r.None?
  {
    match FirstTruthyKey(fields, keys)
    case None => None
    case Some(v) => libs.toFloat(ReplaceAll(ReplaceAll(Str(v), ",", ""), ".", ""))
  }

  /** `_parse_fecha(text)` of the adapters that guard the date parser: no
      date for a falsy value, the parser's answer for text, and no date
      where the parser raises (on anything that is not text). */
  function ParsedDate(v: Json, libs: Libs): (r: Option<Time>)
    ensures !Truthy(v) || !v.JStr? ==> r.None?
    ensures Truthy(v) && v.JStr? ==> r == libs.parseDate(v.s)
  {
    if Truthy(v) && v.JStr? then libs.parseDate(v.s) else None
  }
}
