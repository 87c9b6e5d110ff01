/** Python `str` operations the monitor relies on, over Dafny strings
    (sequences of Unicode code points, as Python's `str` is). */
module Strings {

  /** Python's `str.isspace()`: the code points Unicode classifies as white space. */
  predicate IsSpace(c: char) {
    var n := c as int;
    (9 <= n <= 13) || (28 <= n <= 32) || n == 0x85 || n == 0xA0 || n == 0x1680
    || (0x2000 <= n <= 0x200A) || n == 0x2028 || n == 0x2029 || n == 0x202F
    || n == 0x205F || n == 0x3000
  }

  predicate AllSpace(s: string) {
    forall i :: 0 <= i < |s| ==> IsSpace(s[i])
  }

  /** Python's `str.lower()` on one code point, for ASCII and Latin-1 capitals
      (the alphabet of the Spanish-language portals). */
  function LowerChar(c: char): char {
    if 'A' <= c <= 'Z' then (c as int + 32) as char
    else if 0xC0 <= c as int <= 0xDE && c as int != 0xD7 then (c as int + 32) as char
    else c
  }

  /** Python's `str.upper()` on ASCII letters. */
  function UpperChar(c: char): char {
    if 'a' <= c <= 'z' then (c as int - 32) as char else c
  }

  function Lower(s: string): (r: string)
    ensures |r| == |s|
    ensures forall i :: 0 <= i < |s| ==> r[i] == LowerChar(s[i])
  {
    seq(|s|, i requires 0 <= i < |s| => LowerChar(s[i]))
  }

  function Upper(s: string): (r: string)
    ensures |r| == |s|
    ensures forall i :: 0 <= i < |s| ==> r[i] == UpperChar(s[i])
  {
    seq(|s|, i requires 0 <= i < |s| => UpperChar(s[i]))
  }

  lemma LowerCharFacts(c: char)
    ensures LowerChar(LowerChar(c)) == LowerChar(c)
    ensures IsSpace(LowerChar(c)) == IsSpace(c)
  {
  }

  lemma LowerIdempotent(s: string)
    ensures Lower(Lower(s)) == Lower(s)
  {
    forall i | 0 <= i < |s| ensures Lower(Lower(s))[i] == Lower(s)[i] {
      LowerCharFacts(s[i]);
    }
  }

  lemma LowerConcat(a: string, b: string)
    ensures Lower(a + b) == Lower(a) + Lower(b)
  {
  }

  /** Leading white space removed (`str.lstrip()`). */
  function TrimStart(s: string): (r: string)
    ensures |r| <= |s| && r == s[|s| - |r|..]
    ensures AllSpace(s[..|s| - |r|])
    ensures r == [] || !IsSpace(r[0])
  {
    if |s| > 0 && IsSpace(s[0]) then
      var r := TrimStart(s[1..]);
      assert s[..|s| - |r|] == [s[0]] + s[1..][..|s| - 1 - |r|];
      r
    else s
  }

  /** Trailing white space removed (`str.rstrip()`). */
  function TrimEnd(s: string): (r: string)
    ensures |r| <= |s| && r == s[..|r|]
    ensures AllSpace(s[|r|..])
    ensures r == [] || !IsSpace(r[|r| - 1])
  {
    if |s| > 0 && IsSpace(s[|s| - 1]) then
      var r := TrimEnd(s[..|s| - 1]);
      assert s[|r|..] == s[..|s| - 1][|r|..] + [s[|s| - 1]];
      r
    else s
  }

  /** Python's `str.strip()`. */
  function Strip(s: string): string {
    TrimEnd(TrimStart(s))
  }

  /** `s` is `a + m + b` with blank margins and a core that begins and ends
      with a non-blank character: the shape `Strip` recognises. */
  predicate Framed(a: string, m: string, b: string) {
    AllSpace(a) && AllSpace(b) && (m == [] || (!IsSpace(m[0]) && !IsSpace(m[|m| - 1])))
  }

  lemma {:induction false} TrimStartBlankPrefix(a: string, x: string)
    requires AllSpace(a)
    ensures TrimStart(a + x) == TrimStart(x)
    decreases |a|
  {
    if |a| > 0 {
      assert (a + x)[1..] == a[1..] + x;
      TrimStartBlankPrefix(a[1..], x);
    } else {
      assert a + x == x;
    }
  }

  lemma {:induction false} TrimEndBlankSuffix(x: string, b: string)
    requires AllSpace(b)
    ensures TrimEnd(x + b) == TrimEnd(x)
    decreases |b|
  {
    if |b| > 0 {
      assert (x + b)[..|x + b| - 1] == x + b[..|b| - 1];
      TrimEndBlankSuffix(x, b[..|b| - 1]);
    } else {
      assert x + b == x;
    }
  }

  /** A string that does not begin with white space has nothing to lstrip. */
  lemma TrimStartKeeps(x: string)
    requires x == [] || !IsSpace(x[0])
    ensures TrimStart(x) == x
  {
  }

  /** A string that does not end with white space has nothing to rstrip. */
  lemma TrimEndKeeps(x: string)
    requires x == [] || !IsSpace(x[|x| - 1])
    ensures TrimEnd(x) == x
  {
  }

  /** A string with no white space at either end strips to itself. */
  lemma StripUnpadded(s: string)
    requires s == [] || (!IsSpace(s[0]) && !IsSpace(s[|s| - 1]))
    ensures Strip(s) == s
  {
    TrimStartKeeps(s);
    TrimEndKeeps(s);
  }

  lemma TrimStartOfBlank(b: string)
    requires AllSpace(b)
    ensures TrimStart(b) == []
  {
    assert b + [] == b;
    TrimStartBlankPrefix(b, []);
    TrimStartKeeps([]);
  }

  /** `Strip` returns exactly the core of any framed decomposition. */
  lemma StripFramed(a: string, m: string, b: string)
    requires Framed(a, m, b)
    ensures Strip(a + m + b) == m
  {
    assert a + m + b == a + (m + b);
    TrimStartBlankPrefix(a, m + b);
    if m == [] {
      assert m + b == b;
      TrimStartOfBlank(b);
      TrimEndKeeps([]);
    } else {
      assert (m + b)[0] == m[0];
      TrimStartKeeps(m + b);
      TrimEndBlankSuffix(m, b);
      TrimEndKeeps(m);
    }
  }

  /** Every string is framed around its stripped core. */
  lemma StripDecompose(s: string) returns (a: string, b: string)
    ensures s == a + Strip(s) + b && Framed(a, Strip(s), b)
  {
    var t := TrimStart(s);
    var m := TrimEnd(t);
    a := s[..|s| - |t|];
    b := t[|m|..];
    FramedParts(s, t, m, a, b);
  }

  lemma FramedParts(s: string, t: string, m: string, a: string, b: string)
    requires |t| <= |s| && t == s[|s| - |t|..] && (t == [] || !IsSpace(t[0]))
    requires |m| <= |t| && m == t[..|m|] && (m == [] || !IsSpace(m[|m| - 1]))
    requires a == s[..|s| - |t|] && b == t[|m|..]
    requires AllSpace(a) && AllSpace(b)
    ensures s == a + m + b && Framed(a, m, b)
  {
    assert s == a + m + b by {
      assert t == m + b;
      assert s == a + t;
    }
    assert AllSpace(a) && AllSpace(b);
    assert m == [] || !IsSpace(m[0]) by {
      assert m == [] || m[0] == t[0];
    }
  }

  lemma StripIdempotent(s: string)
    ensures Strip(Strip(s)) == Strip(s)
  {
    var m := Strip(s);
    var _, _ := StripDecompose(s);
    assert [] + m + [] == m;
    StripFramed([], m, []);
  }

  /** Surrounding white space does not change the stripped text. */
  lemma StripIgnoresPadding(w1: string, t: string, w2: string)
    requires AllSpace(w1) && AllSpace(w2)
    ensures Strip(w1 + t + w2) == Strip(t)
  {
    var a, b := StripDecompose(t);
    var m := Strip(t);
    AllSpaceJoin(w1, a);
    AllSpaceJoin(b, w2);
    Regroup(w1, t, w2, a, m, b);
    StripFramed(w1 + a, m, b + w2);
  }

  lemma AllSpaceJoin(x: string, y: string)
    requires AllSpace(x) && AllSpace(y)
    ensures AllSpace(x + y)
  {
  }

  lemma Regroup(w1: string, t: string, w2: string, a: string, m: string, b: string)
    requires t == a + m + b
    ensures w1 + t + w2 == (w1 + a) + m + (b + w2)
  {
  }

  lemma StripOfBlank(s: string)
    requires AllSpace(s)
    ensures Strip(s) == []
  {
    assert s == s + [] + [];
    StripFramed(s, [], []);
  }

  lemma LowerPreservesFrame(a: string, m: string, b: string)
    requires Framed(a, m, b)
    ensures Framed(Lower(a), Lower(m), Lower(b))
  {
    forall i | 0 <= i < |a| ensures IsSpace(Lower(a)[i]) { LowerCharFacts(a[i]); }
    forall i | 0 <= i < |b| ensures IsSpace(Lower(b)[i]) { LowerCharFacts(b[i]); }
    if m != [] {
      LowerCharFacts(m[0]);
      LowerCharFacts(m[|m| - 1]);
    }
  }

  /** Lower-casing and stripping commute: `s.strip().lower() == s.lower().strip()`. */
  lemma LowerStripCommute(s: string)
    ensures Lower(Strip(s)) == Strip(Lower(s))
  {
    var a, b := StripDecompose(s);
    var m := Strip(s);
    LowerPreservesFrame(a, m, b);
    LowerConcat(a + m, b);
    LowerConcat(a, m);
    StripFramed(Lower(a), Lower(m), Lower(b));
  }

  /** Python's `s.rstrip(c)` for a single character `c`. */
  function RStripChar(s: string, c: char): (r: string)
    ensures |r| <= |s| && r == s[..|r|]
    ensures forall i :: |r| <= i < |s| ==> s[i] == c
    ensures r == [] || r[|r| - 1] != c
  {
    if |s| > 0 && s[|s| - 1] == c then RStripChar(s[..|s| - 1], c) else s
  }

  predicate StartsWith(s: string, prefix: string) {
    |prefix| <= |s| && s[..|prefix|] == prefix
  }

  /** Python's `sub in s`. */
  predicate Contains(s: string, sub: string)
    decreases |s|
  {
    StartsWith(s, sub) || (|s| > 0 && Contains(s[1..], sub))
  }

  lemma {:induction false} ContainsAt(s: string, sub: string, i: nat)
    requires i + |sub| <= |s| && s[i..i + |sub|] == sub
    ensures Contains(s, sub)
    decreases i
  {
    if i > 0 {
      assert s[1..][i - 1..i - 1 + |sub|] == s[i..i + |sub|];
      ContainsAt(s[1..], sub, i - 1);
    }
  }

  lemma {:induction false} ContainsWitness(s: string, sub: string) returns (i: nat)
    requires Contains(s, sub)
    ensures i + |sub| <= |s| && s[i..i + |sub|] == sub
    decreases |s|
  {
    if StartsWith(s, sub) {
      i := 0;
    } else {
      var j := ContainsWitness(s[1..], sub);
      i := j + 1;
      assert s[i..i + |sub|] == s[1..][j..j + |sub|];
    }
  }

  /** Python's `s.replace(pat, rep)` for a non-empty pattern: every
      non-overlapping occurrence, scanning left to right. */
  function ReplaceAll(s: string, pat: string, rep: string): string
    requires |pat| > 0
    decreases |s|
  {
    if |s| < |pat| then s
    else if s[..|pat|] == pat then rep + ReplaceAll(s[|pat|..], pat, rep)
    else [s[0]] + ReplaceAll(s[1..], pat, rep)
  }

  lemma {:induction false} ReplaceAbsent(s: string, pat: string, rep: string)
    requires |pat| > 0 && !Contains(s, pat)
    ensures ReplaceAll(s, pat, rep) == s
    decreases |s|
  {
    if |s| >= |pat| {
      ReplaceAbsent(s[1..], pat, rep);
      assert [s[0]] + s[1..] == s;
    }
  }

  lemma ReplaceWhole(pat: string, rep: string)
    requires |pat| > 0
    ensures ReplaceAll(pat, pat, rep) == rep
  {
    assert pat[..|pat|] == pat;
    assert pat[|pat|..] == [];
    assert rep + [] == rep;
  }

  /** Python's `sep.join(parts)`. */
  function Join(parts: seq<string>, sep: string): string
    decreases |parts|
  {
    if |parts| == 0 then ""
    else if |parts| == 1 then parts[0]
    else parts[0] + sep + Join(parts[1..], sep)
  }

  /** Python's `s[:n]`. */
  function Truncate(s: string, n: nat): (r: string)
    ensures |r| <= n && |r| <= |s|
    ensures r == s[..|r|]
    ensures |s| <= n ==> r == s
  {
    if |s| <= n then s else s[..n]
  }

  function DigitChar(d: nat): char
    requires d < 10
  {
    "0123456789"[d]
  }

  function NatToString(n: nat): (r: string)
    ensures |r| > 0
    decreases n
  {
    if n < 10 then [DigitChar(n)] else NatToString(n / 10) + [DigitChar(n % 10)]
  }

  /** Python's `str(n)` on an integer. */
  function IntToString(n: int): string {
    if n < 0 then "-" + NatToString(-n) else NatToString(n)
  }

  /** Python's `str` of a list of strings free of quotes and backslashes:
      each item in single quotes, separated by ", ", within brackets. */
  function ListRepr(xs: seq<string>): (r: string)
    ensures |r| >= 2 && r[0] == '[' && r[|r| - 1] == ']'
  {
    "[" + ItemsRepr(xs) + "]"
  }

  function ItemsRepr(xs: seq<string>): (r: string)
    ensures xs == [] <==> r == []
    decreases |xs|
  {
    if xs == [] then ""
    else if |xs| == 1 then "'" + xs[0] + "'"
    else ItemsRepr(xs[..|xs| - 1]) + ", '" + xs[|xs| - 1] + "'"
  }
}
