/** The tender routes: the detail view that marks a tender as seen, the
    status update with its validation, and the pagination of the listing. */
module LicitacionesApi {
  import opened Wrappers
  import opened Models
  import opened Http
  import opened Strings

  /** The position of the tender with primary key `id`. */
  function FindLicitacion(ls: seq<Licitacion>, id: nat): (r: Option<nat>)
    ensures r.Some? ==> r.value < |ls| && ls[r.value].id == id
    ensures r.None? ==> forall i :: 0 <= i < |ls| ==> ls[i].id != id
  {
    FindBy(ls, LicitacionId, id)
  }

  const NotFoundText: string := "Licitación no encontrada"

  // ── `get_licitacion` ──────────────────────────────────────────────────────

  /** Marking as seen: a new tender stops being new, and a NUEVA one becomes
      VISTA; a tender already seen is left alone. */
  function MarkViewed(l: Licitacion): (r: Licitacion)
    ensures !r.isNew
    ensures l.isNew && l.status == Nueva ==> r.status == Vista
    ensures !(l.isNew && l.status == Nueva) ==> r.status == l.status
    ensures r.(isNew := l.isNew, status := l.status) == l
  {
    if l.isNew then l.(isNew := false, status := if l.status == Nueva then Vista else l.status) else l
  }

  /** Viewing a tender already seen changes nothing, so viewing twice is viewing once. */
  lemma MarkViewedIdempotent(l: Licitacion)
    ensures !l.isNew ==> MarkViewed(l) == l
    ensures MarkViewed(MarkViewed(l)) == MarkViewed(l)
  {
  }

  /** `get_licitacion(id)`: 404 for an unknown id; otherwise the tender,
      marked as seen in the store. */
  function GetLicitacion(db: Db, id: nat): (r: Result<(Licitacion, Db), HttpError>)
    ensures FindLicitacion(db.licitaciones, id).None? <==> r.Err?
    ensures r.Err? ==> r.error.code == NotFound
    ensures r.Ok? ==> var i := FindLicitacion(db.licitaciones, id).value;
      && r.value.0 == MarkViewed(db.licitaciones[i])
      && r.value.1 == db.(licitaciones := db.licitaciones[i := r.value.0])
  {
    match FindLicitacion(db.licitaciones, id)
    case None => Err(HttpError(NotFound, NotFoundText))
    case Some(i) =>
      var l := MarkViewed(db.licitaciones[i]);
      Ok((l, db.(licitaciones := db.licitaciones[i := l])))
  }

  /** Changing only status and the new flag keeps every stored constraint. */
  lemma GetLicitacionKeepsValid(db: Db, id: nat)
    requires Valid(db) && GetLicitacion(db, id).Ok?
    ensures Valid(GetLicitacion(db, id).value.1)
  {
    var i := FindLicitacion(db.licitaciones, id).value;
    var ls := GetLicitacion(db, id).value.1.licitaciones;
    assert forall j :: 0 <= j < |ls| ==> (ls[j].portalId, ls[j].contentHash) == (db.licitaciones[j].portalId, db.licitaciones[j].contentHash);
  }

  /** Viewing the same tender twice leaves the store as one view left it. */
  lemma {:induction false} GetLicitacionIdempotent(db: Db, id: nat)
    requires GetLicitacion(db, id).Ok?
    ensures GetLicitacion(GetLicitacion(db, id).value.1, id).Ok?
    ensures GetLicitacion(GetLicitacion(db, id).value.1, id).value.1 == GetLicitacion(db, id).value.1
  {
    var i := FindLicitacion(db.licitaciones, id).value;
    var db1 := GetLicitacion(db, id).value.1;
    FindLicitacionSameIds(db.licitaciones, db1.licitaciones, id);
    MarkViewedIdempotent(db.licitaciones[i]);
    assert db1.licitaciones[i := MarkViewed(db1.licitaciones[i])] == db1.licitaciones;
  }

  /** Lookup by id depends only on the ids. */
  lemma FindLicitacionSameIds(a: seq<Licitacion>, b: seq<Licitacion>, id: nat)
    requires |a| == |b| && forall i :: 0 <= i < |a| ==> a[i].id == b[i].id
    ensures FindLicitacion(a, id) == FindLicitacion(b, id)
  {
    FindBySameKeys(a, LicitacionId, b, LicitacionId, id);
  }

  // ── `update_status` ───────────────────────────────────────────────────────

  /** The accepted status values, in declaration order. */
  function StatusValues(): seq<string> {
    [LicitacionStatusValue(Nueva), LicitacionStatusValue(Vista),
     LicitacionStatusValue(Descartada), LicitacionStatusValue(Favorita)]
  }

  /** `update_status(id, status)`: 404 for an unknown id, checked first; 400
      for a value outside the four statuses; otherwise the status is set. */
  function UpdateStatus(db: Db, id: nat, status: string): (r: Result<Db, HttpError>)
    ensures FindLicitacion(db.licitaciones, id).None? ==> r == Err(HttpError(NotFound, NotFoundText))
    ensures FindLicitacion(db.licitaciones, id).Some? ==> (r.Err? <==> status !in StatusValues())
    ensures r.Err? && FindLicitacion(db.licitaciones, id).Some? ==>
      r.error == HttpError(BadRequest, "Estado inválido. Opciones: " + ListRepr(StatusValues()))
    ensures r.Ok? ==> var i := FindLicitacion(db.licitaciones, id).value;
      && |r.value.licitaciones| == |db.licitaciones|
      && LicitacionStatusValue(r.value.licitaciones[i].status) == status
      && r.value == db.(licitaciones := db.licitaciones[i := db.licitaciones[i].(status := r.value.licitaciones[i].status)])
  {
    match FindLicitacion(db.licitaciones, id)
    case None => Err(HttpError(NotFound, NotFoundText))
    case Some(i) =>
      match LicitacionStatusFromValue(status)
      case None => Err(HttpError(BadRequest, "Estado inválido. Opciones: " + ListRepr(StatusValues())))
      case Some(st) =>
        assert status in StatusValues() by {
          assert LicitacionStatusValue(st) == status;
        }
        Ok(db.(licitaciones := db.licitaciones[i := db.licitaciones[i].(status := st)]))
  }

  // ── Pagination of `list_licitaciones` ─────────────────────────────────────

  const MaxPageSize: nat := 100
  const DefaultPageSize: nat := 20

  /** `(total + size - 1) // size`: the number of pages. */
  function PageCount(total: nat, size: nat): (r: nat)
    requires size >= 1
  {
    (total + size - 1) / size
  }

  /** The page count is the ceiling of `total / size`. */
  lemma PageCountIsCeiling(total: nat, size: nat)
    requires size >= 1
    ensures PageCount(total, size) * size >= total
    ensures total > 0 ==> (PageCount(total, size) - 1) * size < total
    ensures total == 0 <==> PageCount(total, size) == 0
  {
    var n := total + size - 1;
    var q := n / size;
    var m := n % size;
    assert n == q * size + m && 0 <= m < size;
    assert q * size == total + size - 1 - m;
    assert (q - 1) * size == q * size - size;
  }

  /** `(page - 1) * size`: the rows skipped before a page. */
  function Offset(page: nat, size: nat): nat
    requires page >= 1
  {
    (page - 1) * size
  }

  /** The rows shown on one page: `OFFSET (page-1)*size LIMIT size`. */
  function PageRows<T>(rows: seq<T>, page: nat, size: nat): (r: seq<T>)
    requires page >= 1
    ensures |r| <= size
    ensures Offset(page, size) >= |rows| ==> r == []
    ensures Offset(page, size) < |rows| ==> r == rows[Offset(page, size)..if Offset(page, size) + size <= |rows| then Offset(page, size) + size else |rows|]
  {
    var o := Offset(page, size);
    if o >= |rows| then [] else rows[o..if o + size <= |rows| then o + size else |rows|]
  }

  /** One answered listing page. */
  datatype Listing<T> = Listing(total: nat, page: nat, size: nat, pages: nat, items: seq<T>)

  /** `list_licitaciones` on the rows its filters select, newest first:
      422 for a page below 1 or a size outside 1..100 (the query validation),
      otherwise the count, the page count and the page's rows. */
  function ListPage<T>(rows: seq<T>, page: int, size: int): (r: Result<Listing<T>, HttpError>)
    ensures r.Err? <==> page < 1 || size < 1 || size > MaxPageSize as int
    ensures r.Ok? ==> r.value.total == |rows| && r.value.page == page && r.value.size == size
    ensures r.Ok? ==> r.value.pages == PageCount(|rows|, size) && r.value.items == PageRows(rows, page, size)
  {
    if page < 1 || size < 1 || size > MaxPageSize as int then Err(HttpError(Unprocessable, "validation error"))
    else Ok(Listing(|rows|, page, size, PageCount(|rows|, size), PageRows(rows, page, size)))
  }

  lemma MulMonotone(a: nat, b: nat, c: nat)
    requires a <= b
    ensures a * c <= b * c
  {
  }

  lemma MulSucc(a: nat, c: nat)
    ensures (a + 1) * c == a * c + c
  {
  }

  /** A page holds rows exactly when it is one of the counted pages. */
  lemma PageNonEmptyIff<T>(rows: seq<T>, page: nat, size: nat)
    requires page >= 1 && size >= 1
    ensures PageRows(rows, page, size) != [] <==> page <= PageCount(|rows|, size)
  {
    PageCountIsCeiling(|rows|, size);
    var pages := PageCount(|rows|, size);
    if page <= pages {
      MulMonotone(page - 1, pages - 1, size);
    } else {
      MulMonotone(pages, page - 1, size);
    }
  }

  /** The rows of pages 1..k, one page after another. */
  function Pages<T>(rows: seq<T>, size: nat, k: nat): seq<T>
    requires size >= 1
  {
    if k == 0 then [] else Pages(rows, size, k - 1) + PageRows(rows, k, size)
  }

  /** The first k pages are the first k*size rows (or all of them). */
  lemma {:induction false} PagesPrefix<T>(rows: seq<T>, size: nat, k: nat)
    requires size >= 1
    ensures Pages(rows, size, k) == rows[..if k * size <= |rows| then k * size else |rows|]
  {
    if k > 0 {
      PagesPrefix(rows, size, k - 1);
      MulSucc(k - 1, size);
      PagesStep(rows, size, k, Offset(k, size));
    }
  }

  /** Page k continues the first k-1 pages, which end at its offset `o`. */
  lemma PagesStep<T>(rows: seq<T>, size: nat, k: nat, o: nat)
    requires size >= 1 && k >= 1 && o == Offset(k, size)
    requires Pages(rows, size, k - 1) == rows[..if o <= |rows| then o else |rows|]
    ensures Pages(rows, size, k) == rows[..if o + size <= |rows| then o + size else |rows|]
  {
    if o >= |rows| {
    } else if o + size <= |rows| {
      assert rows[..o] + rows[o..o + size] == rows[..o + size];
    } else {
      assert rows[..o] + rows[o..|rows|] == rows[..|rows|];
    }
  }

  /** The counted pages, read in order, are exactly the listed rows: no row
      is skipped or shown twice. */
  lemma PagesCoverRows<T>(rows: seq<T>, size: nat)
    requires size >= 1
    ensures Pages(rows, size, PageCount(|rows|, size)) == rows
  {
    PageCountIsCeiling(|rows|, size);
    PagesPrefix(rows, size, PageCount(|rows|, size));
  }
}
