/** The relevance matcher: accent and case normalisation, synonym
    expansion, per-keyword whole-word search over title, description and
    organisation, the AND/OR decision, the relevance score and the title
    highlights. Scores are exact rationals. */
module Matcher {
  import opened Wrappers
  import opened Strings
  import opened WordMatch

  // ── Normalisation ─────────────────────────────────────────────────────────

  /** The replacement table of `_normalize`, in its iteration order. */
  function Replacements(): seq<(char, char)> {
    [ ('á', 'a'), ('é', 'e'), ('í', 'i'), ('ó', 'o'), ('ú', 'u'),
      ('Á', 'a'), ('É', 'e'), ('Í', 'i'), ('Ó', 'o'), ('Ú', 'u'),
      ('ü', 'u'), ('Ü', 'u'), ('ñ', 'n'), ('Ñ', 'n') ]
  }

  /** The characters the table removes. */
  predicate Accented(c: char) {
    c in {'á', 'é', 'í', 'ó', 'ú', 'Á', 'É', 'Í', 'Ó', 'Ú', 'ü', 'Ü', 'ñ', 'Ñ'}
  }

  /** One character pushed through the replacements from entry `k` on. */
  function FoldChar(c: char, reps: seq<(char, char)>, k: nat): char
    requires k <= |reps|
    decreases |reps| - k
  {
    if k == |reps| then c
    else FoldChar(if c == reps[k].0 then reps[k].1 else c, reps, k + 1)
  }

  /** The plain letter an accented one stands for. */
  function Unaccent(c: char): char {
    if c == 'á' || c == 'Á' then 'a'
    else if c == 'é' || c == 'É' then 'e'
    else if c == 'í' || c == 'Í' then 'i'
    else if c == 'ó' || c == 'Ó' then 'o'
    else if c == 'ú' || c == 'Ú' || c == 'ü' || c == 'Ü' then 'u'
    else if c == 'ñ' || c == 'Ñ' then 'n'
    else c
  }

  function NormalizeChar(c: char): (r: char)
    ensures !Accented(r)
    ensures LowerChar(r) == r
  {
    Unaccent(LowerChar(c))
  }

  /** `_normalize`: lower-case, then strip the accents of the table. */
  function Normalize(text: string): (r: string)
    ensures |r| == |text|
    ensures forall i :: 0 <= i < |r| ==> !Accented(r[i]) && LowerChar(r[i]) == r[i]
    ensures forall i :: 0 <= i < |r| ==> r[i] == Unaccent(LowerChar(text[i]))
  {
    seq(|text|, i requires 0 <= i < |text| => NormalizeChar(text[i]))
  }

  /** A character no remaining entry replaces passes through untouched. */
  lemma {:induction false} FoldUntouched(c: char, reps: seq<(char, char)>, k: nat)
    requires k <= |reps|
    requires forall i :: k <= i < |reps| ==> reps[i].0 != c
    ensures FoldChar(c, reps, k) == c
    decreases |reps| - k
  {
    if k < |reps| {
      FoldUntouched(c, reps, k + 1);
    }
  }

  /** Pushing a character through the whole table replaces it at most once,
      since no replacement yields an accented character. */
  lemma FoldIsUnaccent(c: char)
    ensures FoldChar(c, Replacements(), 0) == Unaccent(c)
  {
    var reps := Replacements();
    if !Accented(c) {
      FoldUntouched(c, reps, 0);
    } else {
      TableCoversAccented(c);
      TableKeysDistinct();
      TableValuesPlain();
      var j :| 0 <= j < |reps| && reps[j].0 == c;
      FoldFirst(c, reps, 0, j);
      FoldUntouched(reps[j].1, reps, j + 1);
    }
  }

  /** Every accented letter is a key of the table. */
  lemma TableCoversAccented(c: char)
    requires Accented(c)
    ensures exists j :: 0 <= j < |Replacements()| && Replacements()[j].0 == c
  {
    var reps := Replacements();
    var keys := seq(|reps|, j requires 0 <= j < |reps| => reps[j].0);
    assert keys == ['á', 'é', 'í', 'ó', 'ú', 'Á', 'É', 'Í', 'Ó', 'Ú', 'ü', 'Ü', 'ñ', 'Ñ'];
    assert c in keys;
  }

  /** The table's keys are distinct. */
  lemma TableKeysDistinct()
    ensures forall i, j :: 0 <= i < j < |Replacements()| ==> Replacements()[i].0 != Replacements()[j].0
  {
  }

  /** No plain letter of the table is one of its keys, and each key maps to its plain letter. */
  lemma TableValuesPlain()
    ensures forall i, j :: 0 <= i < |Replacements()| && 0 <= j < |Replacements()| ==>
      Replacements()[i].0 != Replacements()[j].1
    ensures forall j :: 0 <= j < |Replacements()| ==> Unaccent(Replacements()[j].0) == Replacements()[j].1
  {
  }

  /** Entries before the first one for `c` leave it alone; that entry replaces it. */
  lemma {:induction false} FoldFirst(c: char, reps: seq<(char, char)>, k: nat, j: nat)
    requires k <= j < |reps| && reps[j].0 == c
    requires forall i :: k <= i < j ==> reps[i].0 != c
    ensures FoldChar(c, reps, k) == FoldChar(reps[j].1, reps, j + 1)
    decreases j - k
  {
    if k < j {
      FoldFirst(c, reps, k + 1, j);
    }
  }

  /** `_normalize` as the code states it: `lower()` followed by one
      `replace` call per table entry. */
  function NormalizeAsWritten(text: string): string {
    ReplaceEach(Lower(text), Replacements(), 0)
  }

  /** The `replace` calls from table entry `k` on. */
  function ReplaceEach(s: string, reps: seq<(char, char)>, k: nat): string
    requires k <= |reps|
    decreases |reps| - k
  {
    if k == |reps| then s
    else ReplaceEach(ReplaceAll(s, [reps[k].0], [reps[k].1]), reps, k + 1)
  }

  /** Replacing a single character by a single character maps the string pointwise. */
  lemma {:induction false} ReplaceCharPointwise(s: string, a: char, b: char)
    ensures |ReplaceAll(s, [a], [b])| == |s|
    ensures forall i :: 0 <= i < |s| ==> ReplaceAll(s, [a], [b])[i] == if s[i] == a then b else s[i]
    decreases |s|
  {
    if |s| >= 1 {
      ReplaceCharPointwise(s[1..], a, b);
      if s[..1] == [a] {
        assert s[1..] == s[|[a]|..];
      }
    }
  }

  lemma {:induction false} ReplaceEachPointwise(s: string, reps: seq<(char, char)>, k: nat)
    requires k <= |reps|
    ensures |ReplaceEach(s, reps, k)| == |s|
    ensures forall i :: 0 <= i < |s| ==> ReplaceEach(s, reps, k)[i] == FoldChar(s[i], reps, k)
    decreases |reps| - k
  {
    if k < |reps| {
      var s' := ReplaceAll(s, [reps[k].0], [reps[k].1]);
      ReplaceCharPointwise(s, reps[k].0, reps[k].1);
      ReplaceEachPointwise(s', reps, k + 1);
    }
  }

  /** The chain of `replace` calls is the pointwise normalisation. */
  lemma NormalizeAsWrittenAgrees(text: string)
    ensures NormalizeAsWritten(text) == Normalize(text)
  {
    ReplaceEachPointwise(Lower(text), Replacements(), 0);
    forall i | 0 <= i < |text| ensures NormalizeAsWritten(text)[i] == Normalize(text)[i] {
      FoldIsUnaccent(Lower(text)[i]);
    }
  }

  lemma NormalizeIdempotent(text: string)
    ensures Normalize(Normalize(text)) == Normalize(text)
  {
    forall i | 0 <= i < |text| ensures NormalizeChar(NormalizeChar(text[i])) == NormalizeChar(text[i]) {
      var c := NormalizeChar(text[i]);
      assert LowerChar(c) == c && !Accented(c);
    }
  }

  // ── Synonyms ──────────────────────────────────────────────────────────────

  /** `SYNONYMS`, in its declaration order. */
  function SynonymTable(): seq<(string, seq<string>)> {
    [ ("forense", ["forense", "forenses", "pericia", "pericias", "criminalística"]),
      ("laboratorio", ["laboratorio", "laboratorios", "lab"]),
      ("dna", ["adn", "dna", "genético", "genómica"]),
      ("balística", ["balística", "balistica", "proyectil", "armas"]),
      ("software", ["software", "sistema", "aplicación", "plataforma", "programa"]),
      ("caligrafo", ["calígrafo", "caligrafo", "grafologo", "grafólogo", "grafología", "caligrafía"]),
      ("investigacion", ["investigación", "investigacion", "indagatoria"]) ]
  }

  /** A group applies when it lists the keyword or its key occurs inside the keyword. */
  predicate Applies(kw: string, g: (string, seq<string>)) {
    kw in g.1 || Contains(kw, g.0)
  }

  /** Position of the first applicable group of `table`. */
  function FirstGroup(kw: string, table: seq<(string, seq<string>)>): (r: Option<nat>)
    ensures r.Some? ==> r.value < |table| && Applies(kw, table[r.value])
    ensures r.Some? ==> forall j :: 0 <= j < r.value ==> !Applies(kw, table[j])
    ensures r.None? ==> forall j :: 0 <= j < |table| ==> !Applies(kw, table[j])
    decreases |table|
  {
    if table == [] then None
    else if Applies(kw, table[0]) then Some(0)
    else
      var rest := FirstGroup(kw, table[1..]);
      assert forall j :: 1 <= j < |table| ==> table[j] == table[1..][j - 1];
      if rest.None? then None else Some(rest.value + 1)
  }

  /** `[s for s in xs if s != x]`. */
  function Without(xs: seq<string>, x: string): (r: seq<string>)
    ensures |r| <= |xs|
    ensures forall y :: y in r <==> y in xs && y != x
    decreases |xs|
  {
    if xs == [] then []
    else if xs[0] == x then Without(xs[1..], x)
    else [xs[0]] + Without(xs[1..], x)
  }

  /** `_get_synonyms`: the members of the first applicable group other than
      the keyword itself, or nothing when no group applies. */
  function GetSynonyms(kw: string): (r: seq<string>)
    ensures kw !in r
    ensures FirstGroup(kw, SynonymTable()).None? ==> r == []
    ensures FirstGroup(kw, SynonymTable()).Some? ==>
      forall s :: s in r <==> s in SynonymTable()[FirstGroup(kw, SynonymTable()).value].1 && s != kw
  {
    match FirstGroup(kw, SynonymTable())
    case None => []
    case Some(j) => Without(SynonymTable()[j].1, kw)
  }

  /** The alternation compiled for one keyword: its normal form, then its synonyms. */
  function TermsFor(kw: string): (r: seq<string>)
    ensures |r| >= 1 && r[0] == Normalize(kw)
    ensures forall s :: s in r[1..] <==> s in GetSynonyms(Normalize(kw))
  {
    [Normalize(kw)] + GetSynonyms(Normalize(kw))
  }

  /** Synonyms are not normalised: a term with an accent never matches
      normalised text, wherever it occurs. */
  lemma AccentedTermNeverHits(text: string, t: string, i: nat)
    requires i < |t| && Accented(t[i])
    ensures forall p :: !WholeAt(Normalize(text), t, p)
  {
    AbsentCharNeverMatches(Normalize(text), t, t[i]);
  }

  /** So the keyword "forense" expands to "criminalística", which can never hit. */
  lemma CriminalisticaNeverHits(text: string)
    ensures "criminalística" in GetSynonyms(Normalize("forense"))
    ensures forall p :: !WholeAt(Normalize(text), "criminalística", p)
  {
    var n := Normalize("forense");
    assert n == "forense";
    assert Applies(n, SynonymTable()[0]);
    assert FirstGroup(n, SynonymTable()) == Some(0);
    assert "criminalística"[8] == 'í';
    AccentedTermNeverHits(text, "criminalística", 8);
  }

  // ── Compiled patterns ─────────────────────────────────────────────────────

  /** Position of the first occurrence of `y` in `xs`. */
  function FirstIndex(xs: seq<string>, y: string): (r: nat)
    requires y in xs
    ensures r < |xs| && xs[r] == y
    ensures forall i :: 0 <= i < r ==> xs[i] != y
  {
    FirstIndexFrom(xs, y, 0)
  }

  /** Position of the first occurrence of `y` in `xs` at or after `k`. */
  function FirstIndexFrom(xs: seq<string>, y: string, k: nat): (r: nat)
    requires k <= |xs| && exists i :: k <= i < |xs| && xs[i] == y
    ensures k <= r < |xs| && xs[r] == y
    ensures forall i :: k <= i < r ==> xs[i] != y
    decreases |xs| - k
  {
    if xs[k] == y then k else FirstIndexFrom(xs, y, k + 1)
  }

  /** `ys` lists members of `xs` in the order of their first occurrence. */
  predicate InFirstOccurrenceOrder(ys: seq<string>, xs: seq<string>) {
    && (forall i :: 0 <= i < |ys| ==> ys[i] in xs)
    && (forall i, j :: 0 <= i < j < |ys| ==> FirstIndex(xs, ys[i]) < FirstIndex(xs, ys[j]))
  }

  lemma FirstIndexPrefix(xs: seq<string>, n: nat, y: string)
    requires n <= |xs| && y in xs[..n]
    ensures FirstIndex(xs[..n], y) == FirstIndex(xs, y)
  {
    var a := FirstIndex(xs[..n], y);
    var b := FirstIndex(xs, y);
    assert xs[..n][a] == xs[a];
    if b < a { assert xs[..n][b] == xs[b]; }
  }

  /** The keys of a dict filled from `xs`: each distinct value once, in
      first-occurrence order. */
  function Distinct(xs: seq<string>): (r: seq<string>)
    ensures forall y :: y in r <==> y in xs
    ensures InFirstOccurrenceOrder(r, xs)
    decreases |xs|
  {
    if xs == [] then []
    else
      var init := xs[..|xs| - 1];
      var last := xs[|xs| - 1];
      var d := Distinct(init);
      assert xs == init + [last];
      forall y | y in init ensures FirstIndex(init, y) == FirstIndex(xs, y) {
        FirstIndexPrefix(xs, |xs| - 1, y);
      }
      if last in d then d
      else
        assert FirstIndex(xs, last) == |xs| - 1;
        d + [last]
  }

  lemma InOrderDistinct(ys: seq<string>, xs: seq<string>)
    requires InFirstOccurrenceOrder(ys, xs)
    ensures forall i, j :: 0 <= i < j < |ys| ==> ys[i] != ys[j]
  {
  }

  datatype Pattern = Pattern(keyword: string, terms: seq<string>)

  /** `_compile_patterns`: one pattern per distinct keyword, in first-occurrence order. */
  function CompilePatterns(keywords: seq<string>): (r: seq<Pattern>)
    ensures |r| == |Distinct(keywords)|
    ensures forall i :: 0 <= i < |r| ==> r[i] == Pattern(Distinct(keywords)[i], TermsFor(Distinct(keywords)[i]))
  {
    var ks := Distinct(keywords);
    seq(|ks|, i requires 0 <= i < |ks| => Pattern(ks[i], TermsFor(ks[i])))
  }

  // ── Score ─────────────────────────────────────────────────────────────────

  function Min(a: real, b: real): real {
    if a <= b then a else b
  }

  /** The frequency bonus: 0.02 per match, capped at 0.2. */
  function FreqBonus(totalMatches: nat): (r: real)
    ensures 0.0 <= r <= 0.2
    ensures totalMatches < 10 ==> r == 0.02 * totalMatches as real
    ensures totalMatches >= 10 ==> r == 0.2
  {
    Min(totalMatches as real * 0.02, 0.2)
  }

  /** `_compute_score` from its four inputs: the number of keywords found,
      the number configured, the found keywords hitting the title and the
      total number of matches. */
  function Score(found: nat, configured: nat, titleHits: nat, totalMatches: nat): (r: real)
    ensures 0.0 <= r <= 1.0
    ensures r == 0.0 <==> found == 0
    ensures found > 0 ==>
      var base := found as real / (if configured > 1 then configured else 1) as real;
      r == Min(base + 0.1 * titleHits as real + FreqBonus(totalMatches), 1.0)
  {
    if found == 0 then 0.0
    else
      var base := found as real / (if configured > 1 then configured else 1) as real;
      Min(base + 0.1 * titleHits as real + FreqBonus(totalMatches), 1.0)
  }

  /** Finding more keywords, more title hits or more matches never lowers the score. */
  lemma ScoreMonotone(f1: nat, f2: nat, n: nat, t1: nat, t2: nat, m1: nat, m2: nat)
    requires f1 <= f2 && t1 <= t2 && m1 <= m2
    ensures Score(f1, n, t1, m1) <= Score(f2, n, t2, m2)
  {
    if f1 > 0 {
      var d := (if n > 1 then n else 1) as real;
      assert f1 as real / d <= f2 as real / d;
      assert FreqBonus(m1) <= FreqBonus(m2);
    }
  }

  // ── Matching ──────────────────────────────────────────────────────────────

  /** `pattern.search(x)` succeeds. */
  predicate HitsIn(p: Pattern, x: string) {
    Search(x, p.terms).Some?
  }

  /** `_find_context`: the first match with up to 40 characters on each
      side, marked with "..." where the window cuts the text. */
  function FindContext(text: string, terms: seq<string>): (r: string)
    ensures Search(text, terms).None? ==> r == ""
    ensures Search(text, terms).Some? ==>
      var h := Search(text, terms).value;
      exists start: nat, end: nat ::
        && start <= h.start && h.start + h.len <= end <= |text|
        && h.start - start <= 40 && end - (h.start + h.len) <= 40
        && (start == 0 || h.start - start == 40)
        && (end == |text| || end - (h.start + h.len) == 40)
        && r == (if start > 0 then "..." else "") + text[start..end] + (if end < |text| then "..." else "")
  {
    match Search(text, terms)
    case None => ""
    case Some(h) =>
      var start := if h.start >= 40 then h.start - 40 else 0;
      var end := if h.start + h.len + 40 <= |text| then h.start + h.len + 40 else |text|;
      (if start > 0 then "..." else "") + text[start..end] + (if end < |text| then "..." else "")
  }

  function Highlight(titleNorm: string, p: Pattern): string {
    "título: '" + FindContext(titleNorm, p.terms) + "'"
  }

  /** What the loop over the patterns accumulates. */
  datatype Tally = Tally(found: seq<string>, highlights: seq<string>, titleHits: nat, totalMatches: nat)

  /** The loop of `match`, together with the title bonus count and the
      match total of `_compute_score`, over the normalised title `t`,
      description `d`, organisation `o` and their concatenation `all`. */
  function Scan(ps: seq<Pattern>, t: string, d: string, o: string, all: string): (r: Tally)
    ensures |r.found| <= |ps|
    ensures |r.highlights| == r.titleHits <= |r.found|
    decreases |ps|
  {
    if ps == [] then Tally([], [], 0, 0)
    else
      var p := ps[0];
      var rest := Scan(ps[1..], t, d, o, all);
      if PatternHits(p, t, d, o) then
        Tally([p.keyword] + rest.found,
              (if HitsIn(p, t) then [Highlight(t, p)] else []) + rest.highlights,
              (if HitsIn(p, t) then 1 else 0) + rest.titleHits,
              Count(all, p.terms) + rest.totalMatches)
      else rest
  }

  /** The pattern hits one of the three fields. */
  predicate PatternHits(p: Pattern, t: string, d: string, o: string) {
    HitsIn(p, t) || HitsIn(p, d) || HitsIn(p, o)
  }

  /** Some pattern of `ps` for keyword `kw` hits one of the fields. */
  predicate SomePatternHits(ps: seq<Pattern>, kw: string, t: string, d: string, o: string) {
    exists j :: 0 <= j < |ps| && ps[j].keyword == kw && PatternHits(ps[j], t, d, o)
  }

  /** The keywords of the patterns that hit, in pattern order. */
  function Found(ps: seq<Pattern>, t: string, d: string, o: string): seq<string>
    decreases |ps|
  {
    if ps == [] then []
    else (if PatternHits(ps[0], t, d, o) then [ps[0].keyword] else []) + Found(ps[1..], t, d, o)
  }

  /** The compiled pattern of keyword `kw`. */
  function PatternOf(kw: string): Pattern {
    Pattern(kw, TermsFor(kw))
  }

  /** How many of the keywords `found` have their pattern hit the title `t`:
      each of them earns the 0.1 title bonus of `_compute_score`. */
  function TitleHits(found: seq<string>, t: string): (r: nat)
    ensures r <= |found|
    decreases |found|
  {
    if found == [] then 0
    else (if HitsIn(PatternOf(found[0]), t) then 1 else 0) + TitleHits(found[1..], t)
  }

  /** The number of matches, summed over the keywords `found`, of each one's
      pattern in the text `all`: the frequency of `_compute_score`. */
  function TotalMatches(found: seq<string>, all: string): nat
    decreases |found|
  {
    if found == [] then 0
    else Count(all, TermsFor(found[0])) + TotalMatches(found[1..], all)
  }

  /** One title highlight per keyword of `found` whose pattern hits the title
      `t`, in the order of `found`. */
  function Highlights(found: seq<string>, t: string): (r: seq<string>)
    ensures |r| == TitleHits(found, t)
    decreases |found|
  {
    if found == [] then []
    else (if HitsIn(PatternOf(found[0]), t) then [Highlight(t, PatternOf(found[0]))] else [])
         + Highlights(found[1..], t)
  }

  /** Every found keyword earns the title bonus exactly when all of them hit the title. */
  lemma {:induction false} TitleHitsAll(found: seq<string>, t: string)
    ensures TitleHits(found, t) == |found| <==> forall i :: 0 <= i < |found| ==> HitsIn(PatternOf(found[i]), t)
    decreases |found|
  {
    if found != [] {
      var rest := found[1..];
      TitleHitsAll(rest, t);
      if HitsIn(PatternOf(found[0]), t) {
        if forall i :: 0 <= i < |rest| ==> HitsIn(PatternOf(rest[i]), t) {
          forall i | 0 <= i < |found| ensures HitsIn(PatternOf(found[i]), t) {
            if i > 0 { assert found[i] == rest[i - 1]; }
          }
        } else {
          var i :| 0 <= i < |rest| && !HitsIn(PatternOf(rest[i]), t);
          assert found[i + 1] == rest[i];
        }
      }
    }
  }

  /** Over compiled patterns, the loop's title count, match total and
      highlights are those of the keywords it found. */
  lemma {:induction false} ScanTallies(ps: seq<Pattern>, t: string, d: string, o: string, all: string)
    requires forall j :: 0 <= j < |ps| ==> ps[j] == PatternOf(ps[j].keyword)
    ensures Scan(ps, t, d, o, all).titleHits == TitleHits(Scan(ps, t, d, o, all).found, t)
    ensures Scan(ps, t, d, o, all).totalMatches == TotalMatches(Scan(ps, t, d, o, all).found, all)
    ensures Scan(ps, t, d, o, all).highlights == Highlights(Scan(ps, t, d, o, all).found, t)
    decreases |ps|
  {
    if ps != [] {
      assert forall j :: 0 <= j < |ps[1..]| ==> ps[1..][j] == ps[j + 1];
      ScanTallies(ps[1..], t, d, o, all);
      var rest := Scan(ps[1..], t, d, o, all);
      if PatternHits(ps[0], t, d, o) {
        var found := [ps[0].keyword] + rest.found;
        assert found[0] == ps[0].keyword && found[1..] == rest.found;
        assert ps[0] == PatternOf(ps[0].keyword);
      }
    }
  }

  /** The loop's found list is the keywords of the patterns that hit. */
  lemma {:induction false} ScanFoundIsFound(ps: seq<Pattern>, t: string, d: string, o: string, all: string)
    ensures Scan(ps, t, d, o, all).found == Found(ps, t, d, o)
    decreases |ps|
  {
    if ps != [] {
      ScanFoundIsFound(ps[1..], t, d, o, all);
    }
  }

  /** The loop keeps exactly the keywords whose pattern hits. */
  lemma ScanFound(ps: seq<Pattern>, t: string, d: string, o: string, all: string)
    ensures forall kw :: kw in Scan(ps, t, d, o, all).found <==> SomePatternHits(ps, kw, t, d, o)
  {
    ScanFoundIsFound(ps, t, d, o, all);
    FoundHits(ps, t, d, o);
  }

  /** A keyword is found exactly when one of its patterns hits. */
  lemma {:induction false} FoundHits(ps: seq<Pattern>, t: string, d: string, o: string)
    ensures forall kw :: kw in Found(ps, t, d, o) <==> SomePatternHits(ps, kw, t, d, o)
    decreases |ps|
  {
    if ps != [] {
      FoundHits(ps[1..], t, d, o);
      forall kw ensures SomePatternHits(ps[1..], kw, t, d, o) ==> SomePatternHits(ps, kw, t, d, o) {
        if SomePatternHits(ps[1..], kw, t, d, o) {
          var j :| 0 <= j < |ps[1..]| && ps[1..][j].keyword == kw && PatternHits(ps[1..][j], t, d, o);
          assert ps[j + 1] == ps[1..][j];
        }
      }
      forall kw ensures SomePatternHits(ps, kw, t, d, o) && kw != ps[0].keyword ==> SomePatternHits(ps[1..], kw, t, d, o) {
        if SomePatternHits(ps, kw, t, d, o) && kw != ps[0].keyword {
          var j :| 0 <= j < |ps| && ps[j].keyword == kw && PatternHits(ps[j], t, d, o);
          assert ps[1..][j - 1] == ps[j];
        }
      }
      if !PatternHits(ps[0], t, d, o) {
        forall kw | SomePatternHits(ps, kw, t, d, o) ensures SomePatternHits(ps[1..], kw, t, d, o) {
          var j :| 0 <= j < |ps| && ps[j].keyword == kw && PatternHits(ps[j], t, d, o);
          assert j != 0;
          assert ps[1..][j - 1] == ps[j];
        }
      }
    }
  }

  /** Patterns listed in first-occurrence order of `keywords` produce their
      found keywords in that order too. */
  lemma {:induction false} ScanKeepsOrder(ps: seq<Pattern>, keywords: seq<string>, t: string, d: string, o: string, all: string)
    requires forall j :: 0 <= j < |ps| ==> ps[j].keyword in keywords
    requires forall i, j :: 0 <= i < j < |ps| ==>
      FirstIndex(keywords, ps[i].keyword) < FirstIndex(keywords, ps[j].keyword)
    ensures InFirstOccurrenceOrder(Scan(ps, t, d, o, all).found, keywords)
    decreases |ps|
  {
    if ps != [] {
      assert forall j :: 1 <= j < |ps| ==> ps[j] == ps[1..][j - 1];
      ScanKeepsOrder(ps[1..], keywords, t, d, o, all);
      var rest := Scan(ps[1..], t, d, o, all);
      if PatternHits(ps[0], t, d, o) {
        FoundAfterFirst(ps, keywords, t, d, o, all);
        OrderCons(ps[0].keyword, rest.found, keywords);
        assert Scan(ps, t, d, o, all).found == [ps[0].keyword] + rest.found;
      } else {
        assert Scan(ps, t, d, o, all) == rest;
      }
    }
  }

  /** Every keyword the later patterns find comes after the first pattern's. */
  lemma FoundAfterFirst(ps: seq<Pattern>, keywords: seq<string>, t: string, d: string, o: string, all: string)
    requires ps != []
    requires forall j :: 0 <= j < |ps| ==> ps[j].keyword in keywords
    requires forall i, j :: 0 <= i < j < |ps| ==>
      FirstIndex(keywords, ps[i].keyword) < FirstIndex(keywords, ps[j].keyword)
    ensures forall i :: 0 <= i < |Scan(ps[1..], t, d, o, all).found| ==>
      && Scan(ps[1..], t, d, o, all).found[i] in keywords
      && FirstIndex(keywords, ps[0].keyword) < FirstIndex(keywords, Scan(ps[1..], t, d, o, all).found[i])
  {
    var rest := Scan(ps[1..], t, d, o, all);
    ScanFound(ps[1..], t, d, o, all);
    forall i | 0 <= i < |rest.found|
      ensures rest.found[i] in keywords && FirstIndex(keywords, ps[0].keyword) < FirstIndex(keywords, rest.found[i])
    {
      assert rest.found[i] in rest.found;
      var j :| 0 <= j < |ps[1..]| && ps[1..][j].keyword == rest.found[i] && PatternHits(ps[1..][j], t, d, o);
      assert ps[j + 1].keyword == rest.found[i];
    }
  }

  /** A keyword placed before a list in first-occurrence order, and occurring
      before all of it, keeps the order. */
  lemma OrderCons(k: string, rest: seq<string>, keywords: seq<string>)
    requires k in keywords && InFirstOccurrenceOrder(rest, keywords)
    requires forall i :: 0 <= i < |rest| ==> FirstIndex(keywords, k) < FirstIndex(keywords, rest[i])
    ensures InFirstOccurrenceOrder([k] + rest, keywords)
  {
    var r := [k] + rest;
    forall i | 0 <= i < |r| ensures r[i] in keywords {
      if i > 0 { assert r[i] == rest[i - 1]; }
    }
    forall i, j | 0 <= i < j < |r| ensures FirstIndex(keywords, r[i]) < FirstIndex(keywords, r[j]) {
      assert r[j] == rest[j - 1];
      if i > 0 { assert r[i] == rest[i - 1]; }
    }
  }

  /** The compiled patterns of `keywords` hit for exactly the keywords that hit. */
  lemma CompiledHits(keywords: seq<string>, kw: string, titulo: string,
                     descripcion: Option<string>, organismo: Option<string>)
    ensures SomePatternHits(CompilePatterns(keywords), kw, Normalize(titulo),
                            Normalize(descripcion.GetOr("")), Normalize(organismo.GetOr("")))
      <==> kw in keywords && KeywordHits(kw, titulo, descripcion, organismo)
  {
    var ps := CompilePatterns(keywords);
    var ks := Distinct(keywords);
    if kw in keywords && KeywordHits(kw, titulo, descripcion, organismo) {
      var j :| 0 <= j < |ks| && ks[j] == kw;
      assert ps[j] == Pattern(kw, TermsFor(kw));
    }
  }

  datatype MatchResult = MatchResult(matched: bool, keywordsFound: seq<string>, score: real, highlights: seq<string>)

  /** A configured keyword hits the record: one of its terms occurs as a
      whole word in the normalised title, description or organisation. */
  predicate KeywordHits(kw: string, titulo: string, descripcion: Option<string>, organismo: Option<string>) {
    var p := Pattern(kw, TermsFor(kw));
    HitsIn(p, Normalize(titulo)) || HitsIn(p, Normalize(descripcion.GetOr("")))
    || HitsIn(p, Normalize(organismo.GetOr("")))
  }

  /** The normalised title, description and organisation joined by spaces. */
  function AllText(titulo: string, descripcion: Option<string>, organismo: Option<string>): string {
    Normalize(titulo) + " " + Normalize(descripcion.GetOr("")) + " " + Normalize(organismo.GetOr(""))
  }

  /** `KeywordMatcher(keywords, operator).match(titulo, descripcion, organismo)`. */
  function Match(keywords: seq<string>, operator: string, titulo: string,
                 descripcion: Option<string>, organismo: Option<string>): (r: MatchResult)
    ensures forall kw :: kw in r.keywordsFound <==> kw in keywords && KeywordHits(kw, titulo, descripcion, organismo)
    ensures InFirstOccurrenceOrder(r.keywordsFound, keywords)
    ensures Upper(operator) == "AND" ==> (r.matched <==> |r.keywordsFound| == |keywords|)
    ensures Upper(operator) != "AND" ==> (r.matched <==> |r.keywordsFound| > 0)
    ensures 0.0 <= r.score <= 1.0
    ensures r.score == 0.0 <==> r.keywordsFound == []
    ensures |r.highlights| <= |r.keywordsFound|
  {
    var t := Normalize(titulo);
    var d := Normalize(descripcion.GetOr(""));
    var o := Normalize(organismo.GetOr(""));
    var all := AllText(titulo, descripcion, organismo);
    var ps := CompilePatterns(keywords);
    var tally := Scan(ps, t, d, o, all);
    ScanFound(ps, t, d, o, all);
    forall kw ensures SomePatternHits(ps, kw, t, d, o) <==> kw in keywords && KeywordHits(kw, titulo, descripcion, organismo) {
      CompiledHits(keywords, kw, titulo, descripcion, organismo);
    }
    ScanKeepsOrder(ps, keywords, t, d, o, all);
    var matched := if Upper(operator) == "AND" then |tally.found| == |keywords| else |tally.found| > 0;
    MatchResult(matched, tally.found, Score(|tally.found|, |keywords|, tally.titleHits, tally.totalMatches),
                tally.highlights)
  }

  /** The score is `_compute_score` of the keywords found: their number, the
      number configured, how many of them hit the title and how often they
      match the joined text; the highlights are one title context per found
      keyword that hits the title, in order. */
  lemma MatchScoreAndHighlights(keywords: seq<string>, operator: string, titulo: string,
                                descripcion: Option<string>, organismo: Option<string>)
    ensures var r := Match(keywords, operator, titulo, descripcion, organismo);
      && r.score == Score(|r.keywordsFound|, |keywords|, TitleHits(r.keywordsFound, Normalize(titulo)),
                          TotalMatches(r.keywordsFound, AllText(titulo, descripcion, organismo)))
      && r.highlights == Highlights(r.keywordsFound, Normalize(titulo))
  {
    var t := Normalize(titulo);
    var d := Normalize(descripcion.GetOr(""));
    var o := Normalize(organismo.GetOr(""));
    var ps := CompilePatterns(keywords);
    ScanTallies(ps, t, d, o, AllText(titulo, descripcion, organismo));
  }

  /** Under OR, a record matches iff some configured keyword hits it. */
  lemma OrMatchesIffSomeKeywordHits(keywords: seq<string>, titulo: string,
                                    descripcion: Option<string>, organismo: Option<string>)
    ensures Match(keywords, "OR", titulo, descripcion, organismo).matched <==>
      exists kw :: kw in keywords && KeywordHits(kw, titulo, descripcion, organismo)
  {
    var r := Match(keywords, "OR", titulo, descripcion, organismo);
    assert Upper("OR") == "OR";
    if r.matched {
      assert r.keywordsFound[0] in r.keywordsFound;
    }
  }

  /** Under AND, an empty keyword list matches every record. */
  lemma AndOverNoKeywordsMatches(titulo: string, descripcion: Option<string>, organismo: Option<string>)
    ensures Match([], "AND", titulo, descripcion, organismo).matched
  {
    assert Upper("AND") == "AND";
  }

  /** Under AND with distinct keywords, a record matches iff every keyword hits it. */
  lemma AndMatchesIffAllHit(keywords: seq<string>, titulo: string,
                            descripcion: Option<string>, organismo: Option<string>)
    requires forall i, j :: 0 <= i < j < |keywords| ==> keywords[i] != keywords[j]
    ensures Match(keywords, "AND", titulo, descripcion, organismo).matched <==>
      forall kw :: kw in keywords ==> KeywordHits(kw, titulo, descripcion, organismo)
  {
    var r := Match(keywords, "AND", titulo, descripcion, organismo);
    assert Upper("AND") == "AND";
    AllFoundIffAllHit(r.keywordsFound, keywords, r.matched, titulo, descripcion, organismo);
  }

  /** A match decided by finding every keyword, of a distinct keyword list,
      is a match exactly when every keyword hits. */
  lemma AllFoundIffAllHit(found: seq<string>, keywords: seq<string>, matched: bool, titulo: string,
                          descripcion: Option<string>, organismo: Option<string>)
    requires forall i, j :: 0 <= i < j < |keywords| ==> keywords[i] != keywords[j]
    requires InFirstOccurrenceOrder(found, keywords)
    requires matched <==> |found| == |keywords|
    requires forall kw :: kw in found <==> kw in keywords && KeywordHits(kw, titulo, descripcion, organismo)
    ensures matched <==> forall kw :: kw in keywords ==> KeywordHits(kw, titulo, descripcion, organismo)
  {
    FullIffCovers(found, keywords);
  }

  /** An ordered sub-list of a distinct list is as long as it exactly when it
      lists every member. */
  lemma FullIffCovers(found: seq<string>, keywords: seq<string>)
    requires InFirstOccurrenceOrder(found, keywords)
    requires forall i, j :: 0 <= i < j < |keywords| ==> keywords[i] != keywords[j]
    ensures |found| == |keywords| <==> forall kw :: kw in keywords ==> kw in found
  {
    InOrderDistinct(found, keywords);
    DistinctCard(found);
    DistinctCard(keywords);
    var a := set kw | kw in found;
    var b := set kw | kw in keywords;
    assert a <= b;
    if forall kw :: kw in keywords ==> kw in found {
      assert b <= a;
      assert a == b;
      assert |found| == |a| == |b| == |keywords|;
    }
    if |found| == |keywords| {
      SubsetEqualCard(a, b);
      forall kw | kw in keywords ensures kw in found {
        assert kw in b;
      }
    }
  }

  lemma {:induction false} DistinctCard(xs: seq<string>)
    requires forall i, j :: 0 <= i < j < |xs| ==> xs[i] != xs[j]
    ensures |set x | x in xs| == |xs|
    decreases |xs|
  {
    if xs != [] {
      DistinctCard(xs[1..]);
      assert (set x | x in xs) == (set x | x in xs[1..]) + {xs[0]};
      assert xs[0] !in (set x | x in xs[1..]);
    }
  }

  lemma SubsetEqualCard(a: set<string>, b: set<string>)
    requires a <= b && |a| == |b|
    ensures a == b
  {
    if a != b {
      assert !(b <= a);
      var x :| x in b && x !in a;
      SubsetCard(a, b - {x});
    }
  }

  lemma {:induction false} SubsetCard(a: set<string>, b: set<string>)
    requires a <= b
    ensures |a| <= |b|
    decreases |b|
  {
    if a != {} {
      var x :| x in a;
      SubsetCard(a - {x}, b - {x});
    }
  }
}
