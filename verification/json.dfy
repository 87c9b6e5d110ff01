/** Decoded JSON values as the adapters see them after `resp.json()`, with
    the Python operations applied to them: `dict.get`, truthiness, `or`
    chains, `str()` and dict update. Objects keep their members in document
    order; when a key repeats, the last binding wins, as in `json.loads`. */
module Json {
  import opened Wrappers
  import opened Strings

  datatype Json =
    | JNull
    | JBool(b: bool)
    | JInt(n: int)
    | JStr(s: string)
    | JArr(items: seq<Json>)
    | JObj(fields: seq<(string, Json)>)

  /** Python truthiness of the decoded value. */
  predicate Truthy(j: Json) {
    match j
    case JNull => false
    case JBool(b) => b
    case JInt(n) => n != 0
    case JStr(s) => s != ""
    case JArr(xs) => xs != []
    case JObj(fs) => fs != []
  }

  /** The binding of `k`, if any (the last one when the key repeats). */
  function Lookup(fields: seq<(string, Json)>, k: string): (r: Option<Json>)
    ensures r.Some? <==> exists i :: 0 <= i < |fields| && fields[i].0 == k
    decreases |fields|
  {
    if fields == [] then None
    else if fields[|fields| - 1].0 == k then Some(fields[|fields| - 1].1)
    else Lookup(fields[..|fields| - 1], k)
  }

  /** `d.get(k)`: JSON `null` when the key is absent. */
  function Get(fields: seq<(string, Json)>, k: string): Json {
    Lookup(fields, k).GetOr(JNull)
  }

  /** `d.get(k, default)`: the default only when the key is absent. */
  function GetOr(fields: seq<(string, Json)>, k: string, default: Json): Json {
    Lookup(fields, k).GetOr(default)
  }

  /** `a or b or ... or default`: the first truthy value. */
  function FirstTruthy(vals: seq<Json>, default: Json): (r: Json)
    ensures r == default || r in vals
    ensures r != default ==> Truthy(r)
    ensures (forall i :: 0 <= i < |vals| ==> !Truthy(vals[i])) ==> r == default
    decreases |vals|
  {
    if vals == [] then default
    else if Truthy(vals[0]) then vals[0]
    else FirstTruthy(vals[1..], default)
  }

  /** Python's type name of a decoded value, as exception texts print it. */
  function TypeName(j: Json): string {
    match j
    case JNull => "NoneType"
    case JBool(_) => "bool"
    case JInt(_) => "int"
    case JStr(_) => "str"
    case JArr(_) => "list"
    case JObj(_) => "dict"
  }

  /** What `for item in items` visits: a list's elements, a string's
      characters, an object's keys; a number or boolean is not iterable. */
  function Elements(items: Json): (r: Result<seq<Json>, string>)
    ensures r.Err? <==> items.JInt? || items.JBool? || items.JNull?
    ensures items.JArr? ==> r == Ok(items.items)
    ensures r.Ok? ==> !items.JArr? ==> forall i :: 0 <= i < |r.value| ==> r.value[i].JStr?
  {
    match items
    case JArr(xs) => Ok(xs)
    case JStr(s) => Ok(seq(|s|, i requires 0 <= i < |s| => JStr([s[i]])))
    case JObj(fs) => Ok(seq(|fs|, i requires 0 <= i < |fs| => JStr(fs[i].0)))
    case _ => Err("'" + TypeName(items) + "' object is not iterable")
  }

  /** `repr()` of a decoded value (string quoting simplified: no escapes). */
  function Repr(j: Json): string
    decreases j
  {
    match j
    case JNull => "None"
    case JBool(b) => if b then "True" else "False"
    case JInt(n) => IntToString(n)
    case JStr(s) => "'" + s + "'"
    case JArr(xs) =>
      "[" + Join(seq(|xs|, i requires 0 <= i < |xs| => Repr(xs[i])), ", ") + "]"
    case JObj(fs) =>
      "{" + Join(seq(|fs|, i requires 0 <= i < |fs| => "'" + fs[i].0 + "': " + Repr(fs[i].1)), ", ") + "}"
  }

  /** `str()` of a decoded value; also what an f-string interpolates. */
  function Str(j: Json): string {
    match j
    case JStr(s) => s
    case _ => Repr(j)
  }

  /** `{**d, k: v}`: `k` rebound in place, or appended when absent. */
  function Set(fields: seq<(string, Json)>, k: string, v: Json): (r: seq<(string, Json)>)
    ensures Lookup(r, k) == Some(v)
    ensures forall k' :: k' != k ==> Lookup(r, k') == Lookup(fields, k')
  {
    if Lookup(fields, k).Some? then
      var r := Rebind(fields, k, v);
      assert forall k' :: Lookup(r, k') == if k' == k then Some(v) else Lookup(fields, k') by {
        forall k' ensures Lookup(r, k') == if k' == k then Some(v) else Lookup(fields, k') {
          LookupRebind(fields, k, v, k');
        }
      }
      r
    else
      var r := fields + [(k, v)];
      assert forall k' :: Lookup(r, k') == if k' == k then Some(v) else Lookup(fields, k') by {
        forall k' ensures Lookup(r, k') == if k' == k then Some(v) else Lookup(fields, k') {
          LookupAppend(fields, k, v, k');
        }
      }
      r
  }

  function Rebind(fields: seq<(string, Json)>, k: string, v: Json): (r: seq<(string, Json)>)
    ensures |r| == |fields|
    ensures forall i :: 0 <= i < |r| ==> r[i].0 == fields[i].0
    ensures forall i :: 0 <= i < |r| ==> r[i].1 == if fields[i].0 == k then v else fields[i].1
  {
    seq(|fields|, i requires 0 <= i < |fields| => if fields[i].0 == k then (k, v) else fields[i])
  }

  lemma {:induction false} LookupRebind(fields: seq<(string, Json)>, k: string, v: Json, k': string)
    ensures Lookup(Rebind(fields, k, v), k') ==
      if k' == k && Lookup(fields, k).Some? then Some(v) else Lookup(fields, k')
    decreases |fields|
  {
    if fields != [] {
      var init := fields[..|fields| - 1];
      assert Rebind(fields, k, v)[..|fields| - 1] == Rebind(init, k, v);
      LookupRebind(init, k, v, k');
    }
  }

  lemma LookupAppend(fields: seq<(string, Json)>, k: string, v: Json, k': string)
    ensures Lookup(fields + [(k, v)], k') == if k' == k then Some(v) else Lookup(fields, k')
  {
    assert (fields + [(k, v)])[..|fields|] == fields;
  }
}
