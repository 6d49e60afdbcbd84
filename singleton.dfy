/** What the hero and about endpoints share. Each table holds versions of
    one page section, and the section shown is the one row whose
    `is_active` is true. A save whose body is active first deactivates every
    other row (no uniqueness constraint backs this), then updates by id,
    inserting when the id is unknown or absent. The read serves the single
    active row, or `{}` when there is none, or more than one. */
module Singleton {
  import opened Wrappers
  import opened Json
  import opened Envelope
  import opened Store
  import opened Upsert
  import opened Gate

  /** `body.id || '00000000-0000-0000-0000-000000000000'`: the row the
      deactivation spares. */
  function SparedId(f: Object): Json {
    if Truthy(GivenId(f)) then GivenId(f) else Str(NilUuid)
  }

  /** The save after validation. Store call 0 is the deactivation when the
      body is active; the writes follow it. The outcome of the deactivation
      is not looked at. */
  function SaveSection(db: Db, f: Object, nodeEnv: Option<string>, message: string,
                       fault: nat -> Option<StoreError>): Handled
  {
    var active := Has(f, "is_active");
    var db1 := if active then DeactivateAllExcept(db, SparedId(f), fault(0)) else db;
    var s := SaveById(db1, false, GivenId(f), Without(f, "id"), InsertFallback(Without(f, "id")), fault,
                      if active then 1 else 0);
    Handled(Respond(s.result, nodeEnv, message, 200), s.db)
  }

  /** The read: `.eq('is_active', true).single()`, where PGRST116 (no row,
      or more than one) is not an error and the data is then `{}`. */
  function ActiveSection(db: Db, nodeEnv: Option<string>, fault: Option<StoreError>): Reply {
    var r := if fault.Some? then Err(fault.value) else Single(Ok(ActiveRows(db.rows)));
    if r.Err? && !IsNoRows(r.error) then ErrorResponse(nodeEnv, Failure(r.error.message, None))
    else SuccessResponse(if r.Ok? then RowJson(r.value) else Obj(map[]))
  }

  predicate IsActive(r: Row) { Column(r, "is_active") == Bool(true) }

  /** The read answers with the active row when there is exactly one, and
      with an empty object otherwise; only a store error other than
      PGRST116 makes it fail. */
  lemma ActiveSectionCases(db: Db, nodeEnv: Option<string>, fault: Option<StoreError>)
    ensures var reply := ActiveSection(db, nodeEnv, fault);
            var active := ActiveRows(db.rows);
            && (fault.None? ==>
                  && reply.status == 200 && Succeeded(reply)
                  && BodyField(reply, "data") == Some(if |active| == 1 then RowJson(active[0]) else Obj(map[])))
            && (fault.Some? ==> (Succeeded(reply) <==> IsNoRows(fault.value)))
  {
  }

  lemma {:induction false} ActiveRowsSingle(rows: seq<Row>, k: nat)
    requires k < |rows| && IsActive(rows[k])
    requires forall i :: 0 <= i < |rows| && i != k ==> !IsActive(rows[i])
    ensures ActiveRows(rows) == [rows[k]]
  {
    if k == 0 {
      ActiveRowsNone(rows[1..]);
    } else {
      ActiveRowsSingle(rows[1..], k - 1);
    }
  }

  lemma {:induction false} ActiveRowsNone(rows: seq<Row>)
    requires forall i :: 0 <= i < |rows| ==> !IsActive(rows[i])
    ensures ActiveRows(rows) == []
  {
    if rows != [] {
      ActiveRowsNone(rows[1..]);
    }
  }

  /** No stored row carries the nil UUID, so a body without an id spares
      none. */
  lemma NoRowIsNil(rows: seq<Row>)
    ensures forall i :: 0 <= i < |rows| ==> !HasId(rows[i], Str(NilUuid))
  {
    forall i | 0 <= i < |rows|
      ensures !HasId(rows[i], Str(NilUuid))
    {
      NilUuidNeverIssued(rows[i].serial);
    }
  }

  /** An active row inserted after every other row was deactivated is the
      only active one. */
  lemma InsertedAloneActive(db: Db, fields: Object) returns (r: Row)
    requires forall i :: 0 <= i < |db.rows| ==> !IsActive(db.rows[i])
    requires "is_active" in fields && fields["is_active"] == Bool(true)
    ensures var w := Insert(db, false, fields, None);
            w.result == Ok([r]) && ActiveRows(w.db.rows) == [r]
  {
    r := Row(db.next, Stamp(fields, db.next));
    var rows := db.rows + [r];
    assert rows[|db.rows|] == r;
    ActiveRowsSingle(rows, |db.rows|);
  }

  /** An active row updated in place, with every row of another id
      deactivated, is the only active one. */
  lemma UpdatedAloneActive(db: Db, id: Json, patch: Object) returns (r: Row)
    requires Consistent(db, false) && FindId(db.rows, id) < |db.rows|
    requires forall i :: 0 <= i < |db.rows| && !HasId(db.rows[i], id) ==> !IsActive(db.rows[i])
    requires "is_active" in patch && patch["is_active"] == Bool(true)
    ensures var w := UpdateWhereId(db, false, id, patch, None);
            w.result == Ok([r]) && ActiveRows(w.db.rows) == [r]
  {
    var k := FindId(db.rows, id);
    r := Patch(db.rows[k], patch);
    var rows := db.rows[k := r];
    forall i | 0 <= i < |rows| && i != k
      ensures !IsActive(rows[i])
    {
      if HasId(db.rows[i], id) {
        OneRowPerId(db, false, id, i, k);
      }
    }
    ActiveRowsSingle(rows, k);
  }

  /** An active save is the deactivation followed by the writes. */
  lemma ActiveSaveDeactivatesFirst(db: Db, f: Object, nodeEnv: Option<string>, message: string,
                                   fault: nat -> Option<StoreError>)
    requires Has(f, "is_active") && fault(0) == None
    ensures var s := SaveById(DeactivateAllExcept(db, SparedId(f), None), false, GivenId(f), Without(f, "id"),
                              InsertFallback(Without(f, "id")), fault, 1);
            SaveSection(db, f, nodeEnv, message, fault) == Handled(Respond(s.result, nodeEnv, message, 200), s.db)
  {
  }

  /** The writes after the deactivation, when the body is active and no
      store call fails, leave the saved row the only active one. */
  lemma WriteAfterDeactivation(db1: Db, f: Object, fault: nat -> Option<StoreError>) returns (r: Row)
    requires Consistent(db1, false)
    requires "is_active" in f && f["is_active"] == Bool(true)
    requires forall i :: 0 <= i < |db1.rows| && !HasId(db1.rows[i], SparedId(f)) ==> !IsActive(db1.rows[i])
    requires fault(1) == None && fault(2) == None
    ensures var s := SaveById(db1, false, GivenId(f), Without(f, "id"), InsertFallback(Without(f, "id")), fault, 1);
            s.result == Ok(r) && ActiveRows(s.db.rows) == [r]
  {
    var id := GivenId(f);
    var patch := Without(f, "id");
    if Truthy(id) && FindId(db1.rows, id) < |db1.rows| {
      r := UpdatedAloneActive(db1, id, patch);
    } else {
      if !Truthy(id) {
        NoRowIsNil(db1.rows);
      }
      UnknownIdFallsBack(db1, false, id, patch, InsertFallback(patch), fault, 1);
      r := InsertedAloneActive(db1, patch);
    }
  }

  /** The save of an active section when no store call fails: the reply's
      row is the only active row afterwards, and the read serves it. */
  lemma ActiveSaveIsServed(db: Db, f: Object, nodeEnv: Option<string>, message: string,
                           fault: nat -> Option<StoreError>) returns (r: Row)
    requires Consistent(db, false)
    requires "is_active" in f && f["is_active"] == Bool(true)
    requires forall n :: fault(n) == None
    ensures var h := SaveSection(db, f, nodeEnv, message, fault);
            && h.reply == SuccessResponse(RowJson(r), message, 200)
            && ActiveRows(h.db.rows) == [r]
            && ActiveSection(h.db, nodeEnv, None) == SuccessResponse(RowJson(r))
  {
    assert fault(0) == None && fault(1) == None && fault(2) == None;
    var db1 := DeactivateAllExcept(db, SparedId(f), None);
    DeactivationLeavesOnlyKept(db, SparedId(f));
    DeactivateKeepsConsistent(db, false, SparedId(f), None);
    ActiveSaveDeactivatesFirst(db, f, nodeEnv, message, fault);
    r := WriteAfterDeactivation(db1, f, fault);
  }

  /** A save whose body is not active touches no row but its own: with a
      known id and no store failure, that row alone takes the new columns. */
  lemma InactiveSaveTouchesOnlyItsRow(db: Db, f: Object, nodeEnv: Option<string>, message: string,
                                      fault: nat -> Option<StoreError>, k: nat)
    requires Consistent(db, false) && !Has(f, "is_active")
    requires k < |db.rows| && HasId(db.rows[k], GivenId(f)) && fault(0).None?
    ensures var h := SaveSection(db, f, nodeEnv, message, fault);
            && h.db.rows == db.rows[k := Patch(db.rows[k], Without(f, "id"))]
            && h.reply == SuccessResponse(RowJson(Patch(db.rows[k], Without(f, "id"))), message, 200)
  {
    KnownIdUpdatesInPlace(db, false, GivenId(f), Without(f, "id"), InsertFallback(Without(f, "id")), fault, 0, k);
  }

  /** The deactivation and the write are separate calls: when the write
      fails, the other rows stay deactivated and the reply is a 400. */
  lemma FailedWriteKeepsDeactivation(db: Db, f: Object, nodeEnv: Option<string>, message: string,
                                     fault: nat -> Option<StoreError>)
    requires Has(f, "is_active") && fault(0).None?
    requires fault(1).Some? && !IsNoRows(fault(1).value)
    ensures var h := SaveSection(db, f, nodeEnv, message, fault);
            && h.db == DeactivateAllExcept(db, SparedId(f), None)
            && h.reply.status == 400 && !Succeeded(h.reply)
  {
  }

  lemma SaveSectionKeepsIdsUnique(db: Db, f: Object, nodeEnv: Option<string>, message: string,
                                  fault: nat -> Option<StoreError>)
    requires Consistent(db, false)
    ensures Consistent(SaveSection(db, f, nodeEnv, message, fault).db, false)
  {
    var active := Has(f, "is_active");
    DeactivateKeepsConsistent(db, false, SparedId(f), fault(0));
    var db1 := if active then DeactivateAllExcept(db, SparedId(f), fault(0)) else db;
    SaveByIdKeepsConsistent(db1, false, GivenId(f), Without(f, "id"), InsertFallback(Without(f, "id")), fault,
                            if active then 1 else 0);
  }

  /** The save over a live table. */
  method SaveSectionInto(t: Table, f: Object, nodeEnv: Option<string>, message: string,
                         fault: nat -> Option<StoreError>) returns (reply: Reply)
    requires t.Valid() && !t.uniqueSlug
    modifies t
    ensures t.Valid()
    ensures Handled(reply, t.db) == SaveSection(old(t.db), f, nodeEnv, message, fault)
  {
    var base: nat := 0;
    if Has(f, "is_active") {
      t.Deactivate(SparedId(f), fault(0));
      base := 1;
    }
    var result := SaveInto(t, GivenId(f), Without(f, "id"), InsertFallback(Without(f, "id")), fault, base);
    reply := Respond(result, nodeEnv, message, 200);
  }
}
