/** The write sequence the blog, project, certificate, hero and about
    handlers share: with a truthy `id`, update that row under `.single()`;
    when that reports PGRST116 (no such row), fall back on a second write;
    without an id, make the second write only. The second write is a plain
    insert or a slug-keyed upsert, depending on the handler. Store calls are
    numbered within one request from `base` on, and the `k`-th one fails
    with `fault(k)` when that is given. */
module Upsert {
  import opened Wrappers
  import opened Json
  import opened Store
  import opened Envelope

  datatype Fallback = InsertFallback(fields: Object) | UpsertFallback(fields: Object)

  function FallbackWrite(db: Db, uniqueSlug: bool, fb: Fallback, fault: Option<StoreError>): Written {
    match fb
    case InsertFallback(f) => Insert(db, uniqueSlug, f, fault)
    case UpsertFallback(f) => UpsertOnSlug(db, f, fault)
  }

  /** `const { id, ...rest } = body`: the id, `undefined` (here `null`)
      when absent. */
  function GivenId(body: Object): Json { if "id" in body then body["id"] else Null }

  /** A request body read as an object; other JSON values have no fields. */
  function Fields(body: Json): Object { if body.Obj? then body.fields else map[] }

  datatype Saved = Saved(result: Result<Row, StoreError>, db: Db)

  function SaveById(db: Db, uniqueSlug: bool, id: Json, patch: Object, fb: Fallback,
                    fault: nat -> Option<StoreError>, base: nat): Saved
  {
    if Truthy(id) then
      var w := UpdateWhereId(db, uniqueSlug, id, patch, fault(base));
      var r := Single(w.result);
      if r.Err? && IsNoRows(r.error) then
        var w2 := FallbackWrite(w.db, uniqueSlug, fb, fault(base + 1));
        Saved(Single(w2.result), w2.db)
      else Saved(r, w.db)
    else
      var w := FallbackWrite(db, uniqueSlug, fb, fault(base));
      Saved(Single(w.result), w.db)
  }

  /** `if (result.error) return errorResponse(res, result.error)`, else
      `successResponse(res, result.data, message, status)`. */
  function Respond(result: Result<Row, StoreError>, nodeEnv: Option<string>, message: string, status: int): (r: Reply)
    ensures Succeeded(r) <==> result.Ok?
    ensures r.status == if result.Ok? then status else 400
    ensures result.Ok? ==> BodyField(r, "data") == Some(RowJson(result.value)) && BodyField(r, "message") == Some(Str(message))
    ensures result.Err? ==> BodyField(r, "error") == Some(Str(result.error.message)) && "stack" !in BodyKeys(r)
  {
    if result.Err? then ErrorResponse(nodeEnv, Failure(result.error.message, None))
    else SuccessResponse(RowJson(result.value), message, status)
  }

  /** The fallback runs only after the update reported PGRST116, and then
      on the store as it was before the request: an update that reports
      PGRST116 has changed nothing. Any other outcome of the update is the
      outcome of the save. */
  lemma {:induction false} FallbackOnlyOnNoRows(db: Db, uniqueSlug: bool, id: Json, patch: Object, fb: Fallback,
                                                fault: nat -> Option<StoreError>, base: nat)
    requires Truthy(id)
    ensures var w := UpdateWhereId(db, uniqueSlug, id, patch, fault(base));
            var s := SaveById(db, uniqueSlug, id, patch, fb, fault, base);
            var w2 := FallbackWrite(db, uniqueSlug, fb, fault(base + 1));
            if Single(w.result).Err? && IsNoRows(Single(w.result).error)
            then s == Saved(Single(w2.result), w2.db)
            else s == Saved(Single(w.result), w.db)
  {
    var w := UpdateWhereId(db, uniqueSlug, id, patch, fault(base));
    var r := Single(w.result);
    if r.Err? && IsNoRows(r.error) {
      assert w.db == db;
    }
  }

  /** With a known id and no store failure, the row with that id is updated
      in place: nothing is inserted, and no other row changes. */
  lemma KnownIdUpdatesInPlace(db: Db, uniqueSlug: bool, id: Json, patch: Object, fb: Fallback,
                              fault: nat -> Option<StoreError>, base: nat, k: nat)
    requires Consistent(db, uniqueSlug) && k < |db.rows| && HasId(db.rows[k], id) && fault(base).None?
    requires !(uniqueSlug && SlugClash(db.rows, Patch(db.rows[k], patch), k))
    ensures Truthy(id)
    ensures SaveById(db, uniqueSlug, id, patch, fb, fault, base) ==
            Saved(Ok(Patch(db.rows[k], patch)), Db(db.rows[k := Patch(db.rows[k], patch)], db.next))
  {
    var f := FindId(db.rows, id);
    OneRowPerId(db, uniqueSlug, id, f, k);
  }

  /** Without an id, or with one no row has, the save is the second write. */
  lemma UnknownIdFallsBack(db: Db, uniqueSlug: bool, id: Json, patch: Object, fb: Fallback,
                           fault: nat -> Option<StoreError>, base: nat)
    requires forall i :: 0 <= i < |db.rows| ==> !HasId(db.rows[i], id)
    requires Truthy(id) ==> fault(base).None?
    ensures var k := if Truthy(id) then base + 1 else base;
            var w := FallbackWrite(db, uniqueSlug, fb, fault(k));
            SaveById(db, uniqueSlug, id, patch, fb, fault, base) == Saved(Single(w.result), w.db)
  {
  }

  lemma SaveByIdKeepsConsistent(db: Db, uniqueSlug: bool, id: Json, patch: Object, fb: Fallback,
                                fault: nat -> Option<StoreError>, base: nat)
    requires Consistent(db, uniqueSlug) && (fb.UpsertFallback? ==> uniqueSlug)
    ensures Consistent(SaveById(db, uniqueSlug, id, patch, fb, fault, base).db, uniqueSlug)
  {
    var first := db;
    var k := base;
    if Truthy(id) {
      UpdateKeepsConsistent(db, uniqueSlug, id, patch, fault(base));
      first := UpdateWhereId(db, uniqueSlug, id, patch, fault(base)).db;
      k := base + 1;
    }
    match fb
    case InsertFallback(f) =>
      InsertKeepsConsistent(first, uniqueSlug, f, fault(k));
    case UpsertFallback(f) =>
      UpsertKeepsConsistent(first, f, fault(k));
  }

  /** The write sequence over a live table. */
  method SaveInto(t: Table, id: Json, patch: Object, fb: Fallback, fault: nat -> Option<StoreError>, base: nat)
    returns (result: Result<Row, StoreError>)
    requires t.Valid() && (fb.UpsertFallback? ==> t.uniqueSlug)
    modifies t
    ensures t.Valid()
    ensures Saved(result, t.db) == SaveById(old(t.db), t.uniqueSlug, id, patch, fb, fault, base)
  {
    var k := base;
    if Truthy(id) {
      var rows := t.UpdateById(id, patch, fault(base));
      result := Single(rows);
      if !(result.Err? && IsNoRows(result.error)) {
        return;
      }
      k := base + 1;
    }
    var rows;
    match fb {
      case InsertFallback(f) =>
        rows := t.InsertRow(f, fault(k));
      case UpsertFallback(f) =>
        rows := t.Upsert(f, fault(k));
    }
    result := Single(rows);
  }
}
