/** The keyword routes: creation with its trimming and uniqueness check,
    partial update, deletion and the ordered listing. */
module KeywordsApi {
  import opened Wrappers
  import opened Strings
  import opened Models
  import opened Sorting
  import opened Http

  const DefaultPriority: int := 5
  const NotFoundText: string := "Keyword no encontrada"

  /** The body of `POST /api/keywords`. */
  datatype KeywordCreate = KeywordCreate(term: string, category: Option<string>, priority: int, isActive: bool)

  /** A body giving only the term: priority 5 and active. */
  function MinimalCreate(term: string): (r: KeywordCreate)
    ensures r.term == term && r.category.None?
    ensures r.priority == DefaultPriority && r.isActive
  {
    KeywordCreate(term, None, DefaultPriority, true)
  }

  /** The position of the keyword whose term is exactly `term`. */
  function FindTerm(ks: seq<Keyword>, term: string): (r: Option<nat>)
    ensures r.Some? ==> r.value < |ks| && ks[r.value].term == term
    ensures r.None? ==> forall i :: 0 <= i < |ks| ==> ks[i].term != term
  {
    FindBy(ks, KeywordTerm, term)
  }

  /** The key the store gives the next inserted keyword. */
  function NextKeywordId(ks: seq<Keyword>): (r: nat)
    ensures r >= 1
    ensures forall i :: 0 <= i < |ks| ==> ks[i].id < r
  {
    NextId(ks, KeywordId)
  }

  /** `create_keyword`: 409 when the stripped term is already stored;
      otherwise a new row holding the stripped term, appended to the store. */
  function CreateKeyword(db: Db, req: KeywordCreate): (r: Result<(Keyword, Db), HttpError>)
    ensures r.Err? <==> exists i :: 0 <= i < |db.keywords| && db.keywords[i].term == Strip(req.term)
    ensures r.Err? ==> r.error.code == Conflict
    ensures r.Ok? ==> var k := r.value.0;
      && r.value.1 == db.(keywords := db.keywords + [k])
      && (forall i :: 0 <= i < |db.keywords| ==> db.keywords[i].id != k.id)
      && k.term == Strip(req.term) && k.category == req.category
      && k.priority == req.priority && k.isActive == req.isActive
  {
    var term := Strip(req.term);
    if FindTerm(db.keywords, term).Some? then
      Err(HttpError(Conflict, "Keyword '" + req.term + "' ya existe"))
    else
      var k := Keyword(NextKeywordId(db.keywords), term, req.category, req.isActive, req.priority);
      Ok((k, db.(keywords := db.keywords + [k])))
  }

  /** Creation keeps terms and keys unique. */
  lemma CreateKeywordKeepsValid(db: Db, req: KeywordCreate)
    requires Valid(db) && CreateKeyword(db, req).Ok?
    ensures Valid(CreateKeyword(db, req).value.1)
  {
    var k := CreateKeyword(db, req).value.0;
    var ks := db.keywords + [k];
    assert forall i :: 0 <= i < |db.keywords| ==> ks[i] == db.keywords[i];
  }

  /** Once a term is stored, creating it again, whatever white space
      surrounds it, is refused with 409. */
  lemma {:induction false} CreateTwiceConflicts(db: Db, req: KeywordCreate, again: KeywordCreate, w1: string, w2: string)
    requires CreateKeyword(db, req).Ok?
    requires AllSpace(w1) && AllSpace(w2) && again.term == w1 + req.term + w2
    ensures CreateKeyword(CreateKeyword(db, req).value.1, again).Err?
    ensures CreateKeyword(CreateKeyword(db, req).value.1, again).error.code == Conflict
  {
    var db1 := CreateKeyword(db, req).value.1;
    var n := |db1.keywords| - 1;
    StripIgnoresPadding(w1, req.term, w2);
    assert db1.keywords[n].term == Strip(again.term);
  }

  // ── `update_keyword` ──────────────────────────────────────────────────────

  /** The body of `PATCH /api/keywords/{id}`: the term cannot be changed. */
  datatype KeywordUpdate = KeywordUpdate(isActive: Option<bool>, priority: Option<int>, category: Option<string>)

  /** The three assignments guarded by `is not None`. */
  function ApplyUpdate(k: Keyword, u: KeywordUpdate): (r: Keyword)
    ensures r.id == k.id && r.term == k.term
    ensures r.isActive == u.isActive.GetOr(k.isActive) && r.priority == u.priority.GetOr(k.priority)
    ensures r.category == (if u.category.Some? then u.category else k.category)
  {
    var k1 := if u.isActive.Some? then k.(isActive := u.isActive.value) else k;
    var k2 := if u.priority.Some? then k1.(priority := u.priority.value) else k1;
    if u.category.Some? then k2.(category := u.category) else k2
  }

  /** An empty body changes nothing, and the same body twice is the body once. */
  lemma ApplyUpdateIdempotent(k: Keyword, u: KeywordUpdate)
    ensures ApplyUpdate(k, KeywordUpdate(None, None, None)) == k
    ensures ApplyUpdate(ApplyUpdate(k, u), u) == ApplyUpdate(k, u)
  {
  }

  /** `update_keyword`: 404 for an unknown key; otherwise that row updated
      in place and every other row untouched. */
  function UpdateKeyword(db: Db, id: nat, u: KeywordUpdate): (r: Result<(Keyword, Db), HttpError>)
    ensures r.Err? <==> FindKeyword(db.keywords, id).None?
    ensures r.Err? ==> r.error == HttpError(NotFound, NotFoundText)
    ensures r.Ok? ==> var i := FindKeyword(db.keywords, id).value;
      && r.value.0 == ApplyUpdate(db.keywords[i], u)
      && r.value.1 == db.(keywords := db.keywords[i := r.value.0])
  {
    match FindKeyword(db.keywords, id)
    case None => Err(HttpError(NotFound, NotFoundText))
    case Some(i) =>
      var k := ApplyUpdate(db.keywords[i], u);
      Ok((k, db.(keywords := db.keywords[i := k])))
  }

  /** An update leaves every term and key in place, so the store stays valid. */
  lemma UpdateKeywordKeepsValid(db: Db, id: nat, u: KeywordUpdate)
    requires Valid(db) && UpdateKeyword(db, id, u).Ok?
    ensures Valid(UpdateKeyword(db, id, u).value.1)
    ensures forall j :: 0 <= j < |db.keywords| ==> UpdateKeyword(db, id, u).value.1.keywords[j].term == db.keywords[j].term
  {
    var ks := UpdateKeyword(db, id, u).value.1.keywords;
    assert forall j :: 0 <= j < |ks| ==> ks[j].term == db.keywords[j].term && ks[j].id == db.keywords[j].id;
  }

  /** `delete_keyword`: 404 for an unknown key; otherwise the row is removed
      (tenders keep their matched terms as text, so nothing points at it). */
  function DeleteKeyword(db: Db, id: nat): (r: Result<Db, HttpError>)
    ensures r.Err? <==> FindKeyword(db.keywords, id).None?
    ensures r.Err? ==> r.error == HttpError(NotFound, NotFoundText)
    ensures r.Ok? ==> var i := FindKeyword(db.keywords, id).value;
      && |r.value.keywords| == |db.keywords| - 1
      && r.value == db.(keywords := db.keywords[..i] + db.keywords[i + 1..])
  {
    match FindKeyword(db.keywords, id)
    case None => Err(HttpError(NotFound, NotFoundText))
    case Some(i) => Ok(db.(keywords := db.keywords[..i] + db.keywords[i + 1..]))
  }

  /** After a deletion the store is still valid and the key is gone. */
  lemma DeleteKeywordRemoves(db: Db, id: nat)
    requires Valid(db) && DeleteKeyword(db, id).Ok?
    ensures Valid(DeleteKeyword(db, id).value)
    ensures FindKeyword(DeleteKeyword(db, id).value.keywords, id).None?
  {
    var i := FindKeyword(db.keywords, id).value;
    var ks := DeleteKeyword(db, id).value.keywords;
    assert forall j :: 0 <= j < i ==> ks[j] == db.keywords[j];
    assert forall j :: i <= j < |ks| ==> ks[j] == db.keywords[j + 1];
    forall a, b | 0 <= a < b < |ks|
      ensures ks[a].term != ks[b].term && ks[a].id != ks[b].id
    {
      var a' := if a < i then a else a + 1;
      var b' := if b < i then b else b + 1;
      assert ks[a] == db.keywords[a'] && ks[b] == db.keywords[b'] && a' < b';
    }
    forall j | 0 <= j < |ks| ensures ks[j].id != id {
      var j' := if j < i then j else j + 1;
      assert ks[j] == db.keywords[j'] && j' != i;
    }
  }

  // ── `list_keywords` ───────────────────────────────────────────────────────

  /** `ORDER BY priority DESC, term`. */
  predicate ByPriorityThenTerm(a: Keyword, b: Keyword) {
    a.priority > b.priority || (a.priority == b.priority && StrLe(a.term, b.term))
  }

  lemma ByPriorityThenTermTotal()
    ensures TotalPreorder(ByPriorityThenTerm)
  {
    forall a: Keyword, b: Keyword ensures ByPriorityThenTerm(a, b) || ByPriorityThenTerm(b, a) {
      StrLeTotal(a.term, b.term);
    }
    forall a: Keyword, b: Keyword, c: Keyword | ByPriorityThenTerm(a, b) && ByPriorityThenTerm(b, c)
      ensures ByPriorityThenTerm(a, c)
    {
      if a.priority == b.priority == c.priority {
        StrLeTransitive(a.term, b.term, c.term);
      }
    }
  }

  /** `list_keywords`: every row once, by descending priority, then term. */
  function ListKeywords(db: Db): (r: seq<Keyword>)
    ensures multiset(r) == multiset(db.keywords)
    ensures forall i, j :: 0 <= i < j < |r| ==>
      r[i].priority > r[j].priority || (r[i].priority == r[j].priority && StrLe(r[i].term, r[j].term))
  {
    ByPriorityThenTermTotal();
    var r := Sort(db.keywords, ByPriorityThenTerm);
    assert SortedBy(r, ByPriorityThenTerm);
    r
  }

  /** With unique terms the listing is fully determined: two rows at the same
      priority appear in strictly increasing term order. */
  lemma ListKeywordsStrict(db: Db, i: nat, j: nat)
    requires UniqueTerms(db.keywords)
    requires i < j < |ListKeywords(db)|
    requires ListKeywords(db)[i].priority == ListKeywords(db)[j].priority
    ensures StrLe(ListKeywords(db)[i].term, ListKeywords(db)[j].term)
    ensures ListKeywords(db)[i].term != ListKeywords(db)[j].term
  {
    PermutedTermsDiffer(db.keywords, ListKeywords(db), i, j);
  }

  /** A reordering of rows with unique terms still has unique terms. */
  lemma PermutedTermsDiffer(ks: seq<Keyword>, r: seq<Keyword>, i: nat, j: nat)
    requires UniqueTerms(ks) && multiset(r) == multiset(ks) && i < j < |r|
    ensures r[i].term != r[j].term
  {
    assert r[i] in multiset(ks) && r[j] in multiset(ks);
    var a :| 0 <= a < |ks| && ks[a] == r[i];
    var b :| 0 <= b < |ks| && ks[b] == r[j];
    if a == b {
      TwiceCounted(r, i, j);
      CountOneWhenUniqueTerms(ks, a);
      assert false;
    }
  }

  /** A row at two positions is counted twice. */
  lemma TwiceCounted(r: seq<Keyword>, i: nat, j: nat)
    requires i < j < |r| && r[i] == r[j]
    ensures multiset(r)[r[i]] >= 2
  {
    assert multiset{r[i], r[j]} <= multiset(r) by {
      assert r == r[..i] + [r[i]] + r[i + 1..j] + [r[j]] + r[j + 1..];
    }
  }

  /** With unique terms every row occurs exactly once. */
  lemma {:induction false} CountOneWhenUniqueTerms(ks: seq<Keyword>, a: nat)
    requires UniqueTerms(ks) && a < |ks|
    ensures multiset(ks)[ks[a]] == 1
    decreases |ks|
  {
    var n := |ks| - 1;
    assert ks == ks[..n] + [ks[n]];
    if a == n {
      assert ks[n] !in ks[..n] by {
        forall j | 0 <= j < n ensures ks[..n][j] != ks[n] {
          assert ks[j].term != ks[n].term;
        }
      }
    } else {
      CountOneWhenUniqueTerms(ks[..n], a);
      assert ks[a].term != ks[n].term;
    }
  }
}
