/** Whole-word search with an alternation of literal terms: the behaviour of
    a compiled pattern `\bt1\b|\bt2\b|...` (terms escaped) under `search`
    and `findall`. A match starts at the leftmost position where some term
    occurs between two word boundaries; at that position the first term in
    alternation order that fits wins, and `findall` resumes after it. */
module WordMatch {
  import opened Wrappers

  /** Python's `\w` on `str` patterns: letters, digits and underscore. Exact
      for code points below U+0250 (ASCII, Latin-1, Latin Extended-A/B);
      every later code point is treated as a non-word character. */
  predicate IsWordChar(c: char) {
    var n := c as int;
    ('a' <= c <= 'z') || ('A' <= c <= 'Z') || ('0' <= c <= '9') || c == '_'
    || n == 0xAA || n == 0xB2 || n == 0xB3 || n == 0xB5 || n == 0xB9 || n == 0xBA
    || (0xBC <= n <= 0xBE)
    || (0xC0 <= n <= 0x24F && n != 0xD7 && n != 0xF7)
  }

  /** `\b` at position `p` (0 <= p <= |x|): exactly one side is a word character. */
  predicate Boundary(x: string, p: nat)
    requires p <= |x|
  {
    (p > 0 && IsWordChar(x[p - 1])) != (p < |x| && IsWordChar(x[p]))
  }

  /** `\bt\b` matches at `p`. */
  predicate WholeAt(x: string, t: string, p: nat) {
    p + |t| <= |x| && x[p..p + |t|] == t && Boundary(x, p) && Boundary(x, p + |t|)
  }

  /** Some term of the alternation matches at `p`. */
  predicate AnyAt(x: string, terms: seq<string>, p: nat) {
    exists k :: 0 <= k < |terms| && WholeAt(x, terms[k], p)
  }

  /** The alternative that wins at `p`: the first term, in order, that matches there. */
  function FirstAt(x: string, terms: seq<string>, p: nat): (r: Option<nat>)
    ensures r.Some? ==> r.value < |terms| && WholeAt(x, terms[r.value], p)
    ensures r.Some? ==> forall k :: 0 <= k < r.value ==> !WholeAt(x, terms[k], p)
    ensures r.None? <==> !AnyAt(x, terms, p)
    decreases |terms|
  {
    if terms == [] then None
    else if WholeAt(x, terms[0], p) then Some(0)
    else
      var rest := FirstAt(x, terms[1..], p);
      assert forall k :: 1 <= k < |terms| ==> terms[k] == terms[1..][k - 1];
      if rest.None? then None else Some(rest.value + 1)
  }

  /** A match: its start and length. */
  datatype Hit = Hit(start: nat, len: nat)

  /** `pattern.search(x, pos=from)`: the leftmost match at or after `from`. */
  function SearchFrom(x: string, terms: seq<string>, from: nat): (r: Option<Hit>)
    ensures r.Some? ==> from <= r.value.start && r.value.start + r.value.len <= |x|
    ensures r.Some? ==> AnyAt(x, terms, r.value.start)
    ensures r.Some? ==> exists k :: 0 <= k < |terms| && |terms[k]| == r.value.len
                                     && WholeAt(x, terms[k], r.value.start)
    ensures r.Some? ==> forall p :: from <= p < r.value.start ==> !AnyAt(x, terms, p)
    ensures r.None? ==> forall p :: from <= p ==> !AnyAt(x, terms, p)
    decreases |x| + 1 - from
  {
    if from > |x| then
      assert forall p :: from <= p ==> !AnyAt(x, terms, p) by {
        forall p | from <= p ensures !AnyAt(x, terms, p) { NoneBeyondEnd(x, terms, p); }
      }
      None
    else
      match FirstAt(x, terms, from)
      case Some(k) =>
        assert WholeAt(x, terms[k], from);
        Some(Hit(from, |terms[k]|))
      case None =>
        var r := SearchFrom(x, terms, from + 1);
        assert !AnyAt(x, terms, from);
        r
  }

  /** No term matches past the end of the text. */
  lemma NoneBeyondEnd(x: string, terms: seq<string>, p: nat)
    requires p > |x|
    ensures !AnyAt(x, terms, p)
  {
  }

  /** `pattern.search(x)` finds something. */
  function Search(x: string, terms: seq<string>): Option<Hit> {
    SearchFrom(x, terms, 0)
  }

  /** Some term occurs as a whole word somewhere in `x`. */
  predicate Occurs(x: string, terms: seq<string>) {
    exists p :: 0 <= p <= |x| && AnyAt(x, terms, p)
  }

  lemma SearchFindsOccurrence(x: string, terms: seq<string>)
    ensures Search(x, terms).Some? <==> Occurs(x, terms)
  {
    if Occurs(x, terms) {
      var p :| 0 <= p <= |x| && AnyAt(x, terms, p);
      assert SearchFrom(x, terms, 0).Some?;
    }
  }

  /** `len(pattern.findall(x[from:]))`: successive leftmost matches; after an
      empty match the scan moves one position on. */
  function CountFrom(x: string, terms: seq<string>, from: nat): nat
    decreases |x| + 1 - from
  {
    match SearchFrom(x, terms, from)
    case None => 0
    case Some(h) => 1 + CountFrom(x, terms, if h.len == 0 then h.start + 1 else h.start + h.len)
  }

  function Count(x: string, terms: seq<string>): nat {
    CountFrom(x, terms, 0)
  }

  /** `findall` returns something exactly when `search` does. */
  lemma CountPositiveIffOccurs(x: string, terms: seq<string>)
    ensures Count(x, terms) > 0 <==> Occurs(x, terms)
  {
    SearchFindsOccurrence(x, terms);
  }

  /** A term with a character that never occurs in the text never matches. */
  lemma AbsentCharNeverMatches(x: string, t: string, c: char)
    requires c in t && c !in x
    ensures forall p :: !WholeAt(x, t, p)
  {
  }
}
