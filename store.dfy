/** The backing store the server handlers write through
    (`supabaseAdmin.from(table)…`), as an in-memory table. Its behaviour is
    what the handlers rely on: `.update(patch).eq('id', id)` changes the
    rows with that id; `.insert([row])` adds a row under an id the store
    issues; `.upsert([row], { onConflict: 'slug' })` overwrites the row that
    has the same slug, or inserts; `.update({ is_active: false }).neq('id', x)`
    deactivates every other row; and `.single()` turns anything but exactly
    one row into the error PGRST116. A unique slug column makes a write that
    would repeat a slug fail with 23505. Every other store failure is an
    input: the `fault` of a call, which leaves the table as it was. */
module Store {
  import opened Wrappers
  import opened Text
  import opened Json

  /** A stored row: its columns, and the serial number of the insert that
      created it, from which its id is derived. */
  datatype Row = Row(serial: nat, fields: Object)

  /** The id the store issues with its `n`-th insert. */
  function IssuedId(n: nat): string { "row-" + NatToString(n) }

  lemma IssuedIdInjective(m: nat, n: nat)
    requires IssuedId(m) == IssuedId(n)
    ensures m == n
  {
    assert NatToString(m) == IssuedId(m)[4..];
    assert NatToString(n) == IssuedId(n)[4..];
    NatToStringInjective(m, n);
  }

  /** The sentinel the singleton handlers exclude when they have no id. */
  const NilUuid: string := "00000000-0000-0000-0000-000000000000"

  lemma NilUuidNeverIssued(n: nat)
    ensures IssuedId(n) != NilUuid
  {
    assert IssuedId(n)[0] == 'r';
  }

  function IdOf(r: Row): string { IssuedId(r.serial) }

  /** `.eq('id', id)` holds for the row. */
  predicate HasId(r: Row, id: Json) { id == Str(IdOf(r)) }

  /** The row as `.select()` returns it: its columns and its id. */
  function RowJson(r: Row): Json { Obj(r.fields["id" := Str(IdOf(r))]) }

  /** A column of a row; a missing column reads as `null`. */
  function Column(r: Row, c: string): Json { if c in r.fields then r.fields[c] else Null }

  datatype StoreError = StoreError(code: string, message: string)

  /** What `.single()` reports unless exactly one row came back. */
  const NoRows: StoreError := StoreError("PGRST116", "JSON object requested, multiple (or no) rows returned")

  /** A write that would give two rows the same slug. */
  const SlugTaken: StoreError := StoreError("23505", "duplicate key value violates unique constraint")

  predicate IsNoRows(e: StoreError) { e.code == "PGRST116" }

  datatype Db = Db(rows: seq<Row>, next: nat)

  /** A slug takes part in the unique constraint unless it is `null`. */
  predicate HasSlug(r: Row) { Column(r, "slug") != Null }

  predicate SameSlug(a: Row, b: Row) { HasSlug(a) && Column(a, "slug") == Column(b, "slug") }

  /** Ids are issued once each, and a table with a unique slug column never
      holds two rows with the same slug. */
  ghost predicate Consistent(db: Db, uniqueSlug: bool) {
    && (forall i :: 0 <= i < |db.rows| ==> db.rows[i].serial < db.next)
    && (forall i, j :: 0 <= i < j < |db.rows| ==> db.rows[i].serial != db.rows[j].serial)
    && (uniqueSlug ==> forall i, j :: 0 <= i < j < |db.rows| ==> !SameSlug(db.rows[i], db.rows[j]))
  }

  /** No two rows of a consistent table answer to the same id. */
  lemma OneRowPerId(db: Db, uniqueSlug: bool, id: Json, i: nat, j: nat)
    requires Consistent(db, uniqueSlug) && i < |db.rows| && j < |db.rows|
    requires HasId(db.rows[i], id) && HasId(db.rows[j], id)
    ensures i == j
  {
    IssuedIdInjective(db.rows[i].serial, db.rows[j].serial);
  }

  /** And no two rows of a unique-slug table share a slug. */
  lemma OneRowPerSlug(db: Db, i: nat, j: nat)
    requires Consistent(db, true) && i < |db.rows| && j < |db.rows|
    requires SameSlug(db.rows[i], db.rows[j])
    ensures i == j
  {
    if i < j {
    } else if j < i {
      assert SameSlug(db.rows[j], db.rows[i]);
    }
  }

  /** Index of the first row with the id, or |rows|. */
  function FindId(rows: seq<Row>, id: Json): (k: nat)
    ensures k <= |rows|
    ensures k < |rows| ==> HasId(rows[k], id)
    ensures forall i :: 0 <= i < k ==> !HasId(rows[i], id)
  {
    if rows == [] then 0 else if HasId(rows[0], id) then 0 else 1 + FindId(rows[1..], id)
  }

  /** Index of the first row with the same slug as `r`, or |rows|. */
  function FindSlug(rows: seq<Row>, r: Row): (k: nat)
    ensures k <= |rows|
    ensures k < |rows| ==> SameSlug(rows[k], r)
    ensures forall i :: 0 <= i < k ==> !SameSlug(rows[i], r)
  {
    if rows == [] then 0 else if SameSlug(rows[0], r) then 0 else 1 + FindSlug(rows[1..], r)
  }

  /** Some row other than the `except`-th already has `r`'s slug. */
  predicate SlugClash(rows: seq<Row>, r: Row, except: int) {
    exists j :: 0 <= j < |rows| && j != except && SameSlug(rows[j], r)
  }

  /** The columns of `patch` overwrite those of the row; the id stays. */
  function Patch(r: Row, patch: Object): Row { Row(r.serial, r.fields + patch) }

  /** The outcome of one write: the rows `.select()` returns, and the table
      after it. */
  datatype Written = Written(result: Result<seq<Row>, StoreError>, db: Db)

  /** `.update(patch).eq('id', id).select()` */
  function UpdateWhereId(db: Db, uniqueSlug: bool, id: Json, patch: Object, fault: Option<StoreError>): Written {
    if fault.Some? then Written(Err(fault.value), db)
    else
      var k := FindId(db.rows, id);
      if k == |db.rows| then Written(Ok([]), db)
      else
        var r := Patch(db.rows[k], patch);
        if uniqueSlug && SlugClash(db.rows, r, k) then Written(Err(SlugTaken), db)
        else Written(Ok([r]), Db(db.rows[k := r], db.next))
  }

  /** The `created_at` column defaults to the moment of the insert, here its
      serial number. */
  function Stamp(fields: Object, serial: nat): Object {
    if "created_at" in fields then fields else fields["created_at" := Num(serial)]
  }

  /** `.insert([fields]).select()`: the new row gets the next id. */
  function Insert(db: Db, uniqueSlug: bool, fields: Object, fault: Option<StoreError>): Written {
    if fault.Some? then Written(Err(fault.value), db)
    else
      var r := Row(db.next, Stamp(fields, db.next));
      if uniqueSlug && SlugClash(db.rows, r, -1) then Written(Err(SlugTaken), db)
      else Written(Ok([r]), Db(db.rows + [r], db.next + 1))
  }

  /** `.upsert([fields], { onConflict: 'slug' }).select()` on a unique-slug
      table: the row with the same slug takes the new columns and keeps its
      id; without one, the fields are inserted. */
  function UpsertOnSlug(db: Db, fields: Object, fault: Option<StoreError>): Written {
    if fault.Some? then Written(Err(fault.value), db)
    else
      var k := FindSlug(db.rows, Row(db.next, fields));
      if k < |db.rows| then
        var r := Patch(db.rows[k], fields);
        Written(Ok([r]), Db(db.rows[k := r], db.next))
      else Insert(db, true, fields, None)
  }

  function Deactivated(r: Row, keep: Json): Row {
    if HasId(r, keep) then r else Patch(r, map["is_active" := Bool(false)])
  }

  /** `.update({ is_active: false }).neq('id', keep)`; the handlers do not
      look at its outcome, so only the table after it is kept. */
  function DeactivateAllExcept(db: Db, keep: Json, fault: Option<StoreError>): (d: Db)
    ensures |d.rows| == |db.rows| && d.next == db.next
    ensures forall i :: 0 <= i < |db.rows| ==> d.rows[i] == if fault.Some? then db.rows[i] else Deactivated(db.rows[i], keep)
  {
    if fault.Some? then db
    else Db(seq(|db.rows|, i requires 0 <= i < |db.rows| => Deactivated(db.rows[i], keep)), db.next)
  }

  /** `.single()` */
  function Single(res: Result<seq<Row>, StoreError>): Result<Row, StoreError> {
    match res
    case Err(e) => Err(e)
    case Ok(rows) => if |rows| == 1 then Ok(rows[0]) else Err(NoRows)
  }

  /** The rows `.eq('is_active', true)` selects. */
  function ActiveRows(rows: seq<Row>): (r: seq<Row>)
    ensures forall x :: x in r <==> x in rows && Column(x, "is_active") == Bool(true)
  {
    if rows == [] then []
    else (if Column(rows[0], "is_active") == Bool(true) then [rows[0]] else []) + ActiveRows(rows[1..])
  }

  // -------------------------------------------------------------------
  // What the writes promise.

  /** With the id, update-by-id under `.single()` fails with PGRST116
      exactly when no row has that id. */
  lemma NoRowsIffIdUnknown(db: Db, uniqueSlug: bool, id: Json, patch: Object)
    ensures var r := Single(UpdateWhereId(db, uniqueSlug, id, patch, None).result);
            r == Err(NoRows) <==> forall i :: 0 <= i < |db.rows| ==> !HasId(db.rows[i], id)
  {
  }

  /** An insert adds one row at the end, under an id no row had. */
  lemma InsertIssuesFreshId(db: Db, uniqueSlug: bool, fields: Object)
    requires Consistent(db, uniqueSlug)
    requires Insert(db, uniqueSlug, fields, None).result.Ok?
    ensures var w := Insert(db, uniqueSlug, fields, None);
            && w.db.rows == db.rows + w.result.value && |w.result.value| == 1
            && forall i :: 0 <= i < |db.rows| ==> IdOf(db.rows[i]) != IdOf(w.result.value[0])
  {
    var r := Row(db.next, Stamp(fields, db.next));
    forall i | 0 <= i < |db.rows|
      ensures IdOf(db.rows[i]) != IdOf(r)
    {
      if IdOf(db.rows[i]) == IdOf(r) {
        IssuedIdInjective(db.rows[i].serial, db.next);
      }
    }
  }

  /** Upserting a slug that is already stored overwrites that row: the table
      keeps its size and the row keeps its id. */
  lemma UpsertOverwritesSlugRow(db: Db, fields: Object, j: nat)
    requires Consistent(db, true) && j < |db.rows| && SameSlug(db.rows[j], Row(db.next, fields))
    ensures var w := UpsertOnSlug(db, fields, None);
            && w.result == Ok([Patch(db.rows[j], fields)])
            && |w.db.rows| == |db.rows| && w.db.rows == db.rows[j := Patch(db.rows[j], fields)]
  {
    var k := FindSlug(db.rows, Row(db.next, fields));
    assert SameSlug(db.rows[k], db.rows[j]);
    OneRowPerSlug(db, k, j);
  }

  /** After a successful upsert of a non-null slug exactly one row holds it:
      the row returned. */
  lemma UpsertLeavesOneRowWithSlug(db: Db, fields: Object)
    requires Consistent(db, true) && "slug" in fields && fields["slug"] != Null
    requires UpsertOnSlug(db, fields, None).result.Ok?
    ensures var w := UpsertOnSlug(db, fields, None);
            && |w.result.value| == 1 && w.result.value[0] in w.db.rows
            && Column(w.result.value[0], "slug") == fields["slug"]
            && forall x :: x in w.db.rows && Column(x, "slug") == fields["slug"] ==> x == w.result.value[0]
  {
    var w := UpsertOnSlug(db, fields, None);
    UpsertKeepsConsistent(db, fields, None);
    var r := w.result.value[0];
    var f := FindSlug(db.rows, Row(db.next, fields));
    var k := if f < |db.rows| then f else |db.rows|;
    assert k < |w.db.rows| && w.db.rows[k] == r && Column(r, "slug") == fields["slug"];
    forall x | x in w.db.rows && Column(x, "slug") == fields["slug"]
      ensures x == r
    {
      var i :| 0 <= i < |w.db.rows| && w.db.rows[i] == x;
      assert SameSlug(w.db.rows[i], w.db.rows[k]);
      OneRowPerSlug(w.db, i, k);
    }
  }

  /** The row a successful insert or upsert returns carries every column
      it was given, and is in the table afterwards. */
  lemma WrittenRowCarriesFields(db: Db, uniqueSlug: bool, fields: Object, upsert: bool, fault: Option<StoreError>)
    requires var w := if upsert then UpsertOnSlug(db, fields, fault) else Insert(db, uniqueSlug, fields, fault);
             w.result.Ok?
    ensures var w := if upsert then UpsertOnSlug(db, fields, fault) else Insert(db, uniqueSlug, fields, fault);
            && |w.result.value| == 1 && w.result.value[0] in w.db.rows
            && forall k :: k in fields ==> Column(w.result.value[0], k) == fields[k]
  {
    var w := if upsert then UpsertOnSlug(db, fields, fault) else Insert(db, uniqueSlug, fields, fault);
    if upsert {
      var k := FindSlug(db.rows, Row(db.next, fields));
      if k < |db.rows| {
        assert w.db.rows[k] == w.result.value[0];
      } else {
        assert w.db.rows[|db.rows|] == w.result.value[0];
      }
    } else {
      assert w.db.rows[|db.rows|] == w.result.value[0];
    }
  }

  /** After the deactivation only the row with the kept id can be active. */
  lemma DeactivationLeavesOnlyKept(db: Db, keep: Json)
    ensures var d := DeactivateAllExcept(db, keep, None);
            forall i :: 0 <= i < |d.rows| && !HasId(d.rows[i], keep) ==> Column(d.rows[i], "is_active") == Bool(false)
  {
  }

  // -------------------------------------------------------------------
  // The writes keep the table consistent.

  lemma PatchKeepsSerials(db: Db, uniqueSlug: bool, k: nat, r: Row)
    requires Consistent(db, uniqueSlug) && k < |db.rows| && r.serial == db.rows[k].serial
    requires uniqueSlug ==> !SlugClash(db.rows, r, k)
    ensures Consistent(Db(db.rows[k := r], db.next), uniqueSlug)
  {
    var rows := db.rows[k := r];
    if uniqueSlug {
      forall i, j | 0 <= i < j < |rows|
        ensures !SameSlug(rows[i], rows[j])
      {
        if i == k {
          assert !SameSlug(db.rows[j], r);
        } else if j == k {
          assert !SameSlug(db.rows[i], r);
        }
      }
    }
  }

  lemma UpdateKeepsConsistent(db: Db, uniqueSlug: bool, id: Json, patch: Object, fault: Option<StoreError>)
    requires Consistent(db, uniqueSlug)
    ensures Consistent(UpdateWhereId(db, uniqueSlug, id, patch, fault).db, uniqueSlug)
  {
    var k := FindId(db.rows, id);
    if fault.None? && k < |db.rows| {
      var r := Patch(db.rows[k], patch);
      if !(uniqueSlug && SlugClash(db.rows, r, k)) {
        PatchKeepsSerials(db, uniqueSlug, k, r);
      }
    }
  }

  lemma InsertKeepsConsistent(db: Db, uniqueSlug: bool, fields: Object, fault: Option<StoreError>)
    requires Consistent(db, uniqueSlug)
    ensures Consistent(Insert(db, uniqueSlug, fields, fault).db, uniqueSlug)
  {
    var r := Row(db.next, Stamp(fields, db.next));
    if fault.None? && !(uniqueSlug && SlugClash(db.rows, r, -1)) {
      var rows := db.rows + [r];
      if uniqueSlug {
        forall i, j | 0 <= i < j < |rows|
          ensures !SameSlug(rows[i], rows[j])
        {
          if j == |db.rows| {
            assert !SameSlug(db.rows[i], r);
          }
        }
      }
    }
  }

  lemma UpsertKeepsConsistent(db: Db, fields: Object, fault: Option<StoreError>)
    requires Consistent(db, true)
    ensures Consistent(UpsertOnSlug(db, fields, fault).db, true)
  {
    var k := FindSlug(db.rows, Row(db.next, fields));
    if fault.None? {
      if k < |db.rows| {
        var r := Patch(db.rows[k], fields);
        assert SameSlug(db.rows[k], r);
        forall j | 0 <= j < |db.rows| && j != k
          ensures !SameSlug(db.rows[j], r)
        {
          if SameSlug(db.rows[j], r) {
            assert SameSlug(db.rows[j], db.rows[k]);
            OneRowPerSlug(db, j, k);
          }
        }
        PatchKeepsSerials(db, true, k, r);
      } else {
        InsertKeepsConsistent(db, true, fields, None);
      }
    }
  }

  lemma DeactivateKeepsConsistent(db: Db, uniqueSlug: bool, keep: Json, fault: Option<StoreError>)
    requires Consistent(db, uniqueSlug)
    ensures Consistent(DeactivateAllExcept(db, keep, fault), uniqueSlug)
  {
    var d := DeactivateAllExcept(db, keep, fault);
    assert forall i :: 0 <= i < |d.rows| ==> d.rows[i].serial == db.rows[i].serial && Column(d.rows[i], "slug") == Column(db.rows[i], "slug");
  }

  /** One table of the store. */
  class Table {
    const uniqueSlug: bool
    var db: Db

    ghost predicate Valid()
      reads this
    {
      Consistent(db, uniqueSlug)
    }

    constructor (uniqueSlug: bool)
      ensures this.uniqueSlug == uniqueSlug && db == Db([], 0) && Valid()
    {
      this.uniqueSlug := uniqueSlug;
      db := Db([], 0);
    }

    method UpdateById(id: Json, patch: Object, fault: Option<StoreError>) returns (result: Result<seq<Row>, StoreError>)
      requires Valid()
      modifies this
      ensures Valid()
      ensures var w := UpdateWhereId(old(db), uniqueSlug, id, patch, fault); result == w.result && db == w.db
    {
      UpdateKeepsConsistent(db, uniqueSlug, id, patch, fault);
      var w := UpdateWhereId(db, uniqueSlug, id, patch, fault);
      result, db := w.result, w.db;
    }

    method InsertRow(fields: Object, fault: Option<StoreError>) returns (result: Result<seq<Row>, StoreError>)
      requires Valid()
      modifies this
      ensures Valid()
      ensures var w := Insert(old(db), uniqueSlug, fields, fault); result == w.result && db == w.db
    {
      InsertKeepsConsistent(db, uniqueSlug, fields, fault);
      var w := Insert(db, uniqueSlug, fields, fault);
      result, db := w.result, w.db;
    }

    method Upsert(fields: Object, fault: Option<StoreError>) returns (result: Result<seq<Row>, StoreError>)
      requires Valid() && uniqueSlug
      modifies this
      ensures Valid()
      ensures var w := UpsertOnSlug(old(db), fields, fault); result == w.result && db == w.db
    {
      UpsertKeepsConsistent(db, fields, fault);
      var w := UpsertOnSlug(db, fields, fault);
      result, db := w.result, w.db;
    }

    method Deactivate(keep: Json, fault: Option<StoreError>)
      requires Valid()
      modifies this
      ensures Valid()
      ensures db == DeactivateAllExcept(old(db), keep, fault)
    {
      DeactivateKeepsConsistent(db, uniqueSlug, keep, fault);
      db := DeactivateAllExcept(db, keep, fault);
    }
  }
}
