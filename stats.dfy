/** The stats endpoint: `GET` lists every stat in display order; an
    authenticated `POST` takes an array of stats and writes them one by one,
    updating those with an id and inserting the others. A write that fails
    does not stop the loop: its error is collected, and the reply reports
    the first one while every other write stays done. */
module Stats {
  import opened Wrappers
  import opened Json
  import opened Text
  import opened Envelope
  import opened Store
  import opened Query
  import opened Http
  import opened Cors
  import opened Auth
  import opened Upsert
  import opened Gate

  const NotAnArray: string := "Input must be an array of stats"
  const UpdatedMessage: string := "Stats updated successfully"

  /** The TypeError `const { id, ...payload } = item` throws on a `null`
      item, as V8 words it. */
  const NullItem: string := "Cannot destructure property 'id' of 'item' as it is null."

  const DisplayOrder: seq<OrderKey> := [OrderKey("display_order", Ascending)]

  /** `getStats`: every row, published or not. */
  function ListStats(db: Db, nodeEnv: Option<string>, fault: Option<StoreError>): Reply {
    if fault.Some? then ErrorResponse(nodeEnv, Failure(fault.value.message, None))
    else SuccessResponse(Arr(RowsJson(Select(db.rows, [], DisplayOrder))))
  }

  /** The object `{ "0": xs[0], "1": xs[1], ... }`. */
  function Indexed(xs: seq<Json>): Object
    decreases |xs|
  {
    if xs == [] then map[] else Indexed(xs[..|xs| - 1])[NatToString(|xs| - 1) := xs[|xs| - 1]]
  }

  /** Each element of the sequence sits under its decimal index, and no
      other key is present. */
  lemma IndexedAt(xs: seq<Json>)
    ensures forall i :: 0 <= i < |xs| ==> NatToString(i) in Indexed(xs) && Indexed(xs)[NatToString(i)] == xs[i]
    ensures forall k :: k in Indexed(xs) ==> exists i :: 0 <= i < |xs| && k == NatToString(i)
  {
    forall i | 0 <= i < |xs|
      ensures NatToString(i) in Indexed(xs) && Indexed(xs)[NatToString(i)] == xs[i]
    {
      IndexedHas(xs, i);
    }
    forall k | k in Indexed(xs)
      ensures exists i :: 0 <= i < |xs| && k == NatToString(i)
    {
      IndexedKey(xs, k);
    }
  }

  lemma {:induction false} IndexedHas(xs: seq<Json>, i: nat)
    requires i < |xs|
    ensures NatToString(i) in Indexed(xs) && Indexed(xs)[NatToString(i)] == xs[i]
    decreases |xs|
  {
    var n := |xs| - 1;
    if i < n {
      IndexedHas(xs[..n], i);
      if NatToString(i) == NatToString(n) {
        NatToStringInjective(i, n);
      }
      assert xs[..n][i] == xs[i];
    }
  }

  lemma {:induction false} IndexedKey(xs: seq<Json>, k: string)
    requires k in Indexed(xs)
    ensures exists i :: 0 <= i < |xs| && k == NatToString(i)
    decreases |xs|
  {
    var n := |xs| - 1;
    if k != NatToString(n) {
      IndexedKey(xs[..n], k);
    }
  }

  /** `id` in `const { id, ...payload } = item`. */
  function ItemId(item: Json): Json { if item.Obj? then GivenId(item.fields) else Null }

  /** `payload` in `const { id, ...payload } = item`: an object without its
      id; a string or an array spreads its elements under their indices; a
      number or a boolean has no own properties. */
  function ItemPayload(item: Json): Object {
    match item
    case Obj(f) => Without(f, "id")
    case Str(s) => Indexed(seq(|s|, i requires 0 <= i < |s| => Str([s[i]])))
    case Arr(xs) => Indexed(xs)
    case _ => map[]
  }

  /** Where the loop stands: the table, the errors and the results so far,
      and whether a `null` item threw. */
  datatype Run = Run(db: Db, errors: seq<StoreError>, results: seq<Json>, threw: bool)

  /** The write for one item that is not `null`: update by a truthy id,
      insert otherwise. */
  function ItemWrite(db: Db, item: Json, fault: Option<StoreError>): Written {
    var id := ItemId(item);
    if Truthy(id) then UpdateWhereId(db, false, id, ItemPayload(item), fault)
    else Insert(db, false, ItemPayload(item), fault)
  }

  /** The bookkeeping after a write. `result.data[0]` of a write that
      matched no row is `undefined`, which the reply's array shows as
      `null`. */
  function Absorb(run: Run, w: Written): Run {
    match w.result
    case Err(e) => Run(w.db, run.errors + [e], run.results, false)
    case Ok(rows) => Run(w.db, run.errors, run.results + [if |rows| > 0 then RowJson(rows[0]) else Null], false)
  }

  /** One turn of the loop. */
  function Step(run: Run, item: Json, fault: Option<StoreError>): Run {
    if item == Null then run.(threw := true) else Absorb(run, ItemWrite(run.db, item, fault))
  }

  /** The loop over `items`; the `i`-th item's write is store call `i`. */
  function RunAll(db: Db, items: seq<Json>, fault: nat -> Option<StoreError>): Run
    decreases |items|
  {
    if items == [] then Run(db, [], [], false)
    else
      var run := RunAll(db, items[..|items| - 1], fault);
      if run.threw then run else Step(run, items[|items| - 1], fault(|items| - 1))
  }

  /** `updateStats`: a thrown TypeError reaches the handler's `catch`,
      which answers 500. */
  function SaveStats(db: Db, body: Json, nodeEnv: Option<string>, fault: nat -> Option<StoreError>): Handled {
    if !body.Arr? then Handled(ErrorResponse(nodeEnv, Text(NotAnArray), 422), db)
    else
      var run := RunAll(db, body.items, fault);
      if run.threw then Handled(ErrorResponse(nodeEnv, Failure(NullItem, None), 500), run.db)
      else if |run.errors| > 0 then Handled(ErrorResponse(nodeEnv, Failure(run.errors[0].message, None)), run.db)
      else Handled(SuccessResponse(Arr(run.results), UpdatedMessage), run.db)
  }

  function Answer(db: Db, req: Request, verify: string -> Verification, nodeEnv: Option<string>,
                  fault: nat -> Option<StoreError>): Handled
  {
    Dispatch(db, req, verify, {"POST"},
             Handled(ListStats(db, nodeEnv, fault(0)), db),
             SaveStats(db, req.body, nodeEnv, fault))
  }

  /** The loop throws exactly when some item is `null`. */
  lemma {:induction false} ThrowsIffNullItem(db: Db, items: seq<Json>, fault: nat -> Option<StoreError>)
    ensures RunAll(db, items, fault).threw <==> exists i :: 0 <= i < |items| && items[i] == Null
    decreases |items|
  {
    if items != [] {
      var n := |items| - 1;
      ThrowsIffNullItem(db, items[..n], fault);
      if exists i :: 0 <= i < n && items[..n][i] == Null {
        var i :| 0 <= i < n && items[..n][i] == Null;
        assert items[i] == Null;
      }
      if exists i :: 0 <= i < |items| && items[i] == Null {
        var i :| 0 <= i < |items| && items[i] == Null;
        if i < n {
          assert items[..n][i] == Null;
        }
      }
    }
  }

  /** Every item that is handled gives one error or one result. */
  lemma {:induction false} EveryItemAccounted(db: Db, items: seq<Json>, fault: nat -> Option<StoreError>)
    ensures var run := RunAll(db, items, fault);
            !run.threw ==> |run.errors| + |run.results| == |items|
    decreases |items|
  {
    if items != [] {
      EveryItemAccounted(db, items[..|items| - 1], fault);
    }
  }

  /** A throw ends the loop: what the items before it did is what stays. */
  lemma {:induction false} ThrowEndsLoop(db: Db, items: seq<Json>, fault: nat -> Option<StoreError>, i: nat)
    requires i < |items| && items[i] == Null && !RunAll(db, items[..i], fault).threw
    ensures RunAll(db, items, fault) == RunAll(db, items[..i], fault).(threw := true)
    decreases |items|
  {
    var n := |items| - 1;
    var before := RunAll(db, items[..n], fault);
    assert RunAll(db, items, fault) == if before.threw then before else Step(before, items[n], fault(n));
    if n == i {
      assert items[..n] == items[..i];
      assert Step(before, items[n], fault(n)) == before.(threw := true);
    } else {
      assert items[..n][..i] == items[..i];
      ThrowEndsLoop(db, items[..n], fault, i);
      assert before.threw;
    }
  }

  /** One more item that is not `null` is one more write. */
  lemma TurnOfLoop(db: Db, items: seq<Json>, fault: nat -> Option<StoreError>, i: nat, run: Run, w: Written)
    requires i < |items| && items[i] != Null
    requires RunAll(db, items[..i], fault) == run && !run.threw
    requires w == ItemWrite(run.db, items[i], fault(i))
    ensures RunAll(db, items[..i + 1], fault) == Absorb(run, w)
  {
    assert items[..i + 1][..i] == items[..i];
  }

  /** With no store failure no error is collected. */
  lemma {:induction false} NoFaultNoErrors(db: Db, items: seq<Json>, fault: nat -> Option<StoreError>)
    requires forall n :: fault(n) == None
    ensures RunAll(db, items, fault).errors == []
    decreases |items|
  {
    if items != [] {
      NoFaultNoErrors(db, items[..|items| - 1], fault);
      assert fault(|items| - 1) == None;
    }
  }

  /** The writes keep ids unique, whatever the items. */
  lemma {:induction false} RunKeepsIdsUnique(db: Db, items: seq<Json>, fault: nat -> Option<StoreError>)
    requires Consistent(db, false)
    ensures Consistent(RunAll(db, items, fault).db, false)
    decreases |items|
  {
    if items != [] {
      var n := |items| - 1;
      RunKeepsIdsUnique(db, items[..n], fault);
      var run := RunAll(db, items[..n], fault);
      var item := items[n];
      UpdateKeepsConsistent(run.db, false, ItemId(item), ItemPayload(item), fault(n));
      InsertKeepsConsistent(run.db, false, ItemPayload(item), fault(n));
    }
  }

  /** Stats without ids, none failing, are appended in order, and the
      reply lists each new row in the order of the items. */
  lemma {:induction false} NewStatsAppended(db: Db, items: seq<Json>, fault: nat -> Option<StoreError>)
    requires forall i :: 0 <= i < |items| ==> items[i] != Null && !Truthy(ItemId(items[i]))
    requires forall n :: fault(n) == None
    ensures var run := RunAll(db, items, fault);
            && !run.threw && run.errors == []
            && |run.db.rows| == |db.rows| + |items| && run.db.rows[..|db.rows|] == db.rows
            && |run.results| == |items|
            && forall i :: 0 <= i < |items| ==> run.results[i] == RowJson(run.db.rows[|db.rows| + i])
    decreases |items|
  {
    if items != [] {
      var n := |items| - 1;
      NewStatsAppended(db, items[..n], fault);
      var run := RunAll(db, items[..n], fault);
      assert fault(n) == None;
      var r := Row(run.db.next, Stamp(ItemPayload(items[n]), run.db.next));
      var after := RunAll(db, items, fault);
      assert after.db.rows == run.db.rows + [r];
      assert after.results == run.results + [RowJson(r)];
      assert after.db.rows[..|db.rows|] == run.db.rows[..|db.rows|];
    }
  }

  /** A save succeeds only for an array with no `null` item and no failed
      write; otherwise it answers 422, 500, or 400 with the first error. */
  lemma SaveStatsOutcome(db: Db, body: Json, nodeEnv: Option<string>, fault: nat -> Option<StoreError>)
    ensures var h := SaveStats(db, body, nodeEnv, fault);
            && (!body.Arr? ==>
                  h.reply.status == 422 && h.db == db && BodyField(h.reply, "error") == Some(Str(NotAnArray)))
            && (body.Arr? ==>
                  var run := RunAll(db, body.items, fault);
                  && h.db == run.db
                  && (run.threw ==> h.reply.status == 500)
                  && (!run.threw && run.errors != [] ==>
                       h.reply.status == 400 && BodyField(h.reply, "error") == Some(Str(run.errors[0].message)))
                  && (Succeeded(h.reply) <==> !run.threw && run.errors == []))
  {
  }

  lemma AnswerRead(db: Db, req: Request, verify: string -> Verification, nodeEnv: Option<string>,
                   fault: nat -> Option<StoreError>)
    requires req.verb == "GET"
    ensures Answer(db, req, verify, nodeEnv, fault) == Handled(ListStats(db, nodeEnv, fault(0)), db)
  {
  }

  lemma AnswerWrite(db: Db, req: Request, verify: string -> Verification, nodeEnv: Option<string>,
                    fault: nat -> Option<StoreError>)
    requires req.verb == "POST"
    ensures Answer(db, req, verify, nodeEnv, fault) ==
            if Authenticate(req.authorization, verify).Refuse? then Handled(Authenticate(req.authorization, verify).reply, db)
            else SaveStats(db, req.body, nodeEnv, fault)
  {
  }

  /** `PUT` is refused here, unlike on the other tables. */
  lemma AnswerOther(db: Db, req: Request, verify: string -> Verification, nodeEnv: Option<string>,
                    fault: nat -> Option<StoreError>)
    requires req.verb !in {"GET", "POST"}
    ensures Answer(db, req, verify, nodeEnv, fault) == Handled(MethodNotAllowed, db)
  {
  }

  /** One item's write on the live table. */
  method WriteItem(t: Table, item: Json, fault: Option<StoreError>) returns (written: Result<seq<Row>, StoreError>)
    requires t.Valid() && !t.uniqueSlug
    modifies t
    ensures t.Valid()
    ensures Written(written, t.db) == ItemWrite(old(t.db), item, fault)
  {
    var id := ItemId(item);
    if Truthy(id) {
      written := t.UpdateById(id, ItemPayload(item), fault);
    } else {
      written := t.InsertRow(ItemPayload(item), fault);
    }
  }

  /** The bookkeeping of one write: its error joins `errors`, or its first
      row (`null` when none) joins `results`. */
  method Collect(errors: seq<StoreError>, results: seq<Json>, written: Result<seq<Row>, StoreError>)
    returns (errors': seq<StoreError>, results': seq<Json>)
    ensures written.Err? ==> errors' == errors + [written.error] && results' == results
    ensures written.Ok? ==> errors' == errors &&
                            results' == results + [if |written.value| > 0 then RowJson(written.value[0]) else Null]
  {
    errors', results' := errors, results;
    match written {
      case Err(e) =>
        errors' := errors + [e];
      case Ok(rows) =>
        results' := results + [if |rows| > 0 then RowJson(rows[0]) else Null];
    }
  }

  lemma AbsorbCollects(run: Run, w: Written)
    ensures w.result.Err? ==> Absorb(run, w) == Run(w.db, run.errors + [w.result.error], run.results, false)
    ensures w.result.Ok? ==>
              Absorb(run, w) ==
              Run(w.db, run.errors,
                  run.results + [if |w.result.value| > 0 then RowJson(w.result.value[0]) else Null], false)
  {
  }

  /** `updateStats` over the live table. */
  method UpdateStats(t: Table, body: Json, nodeEnv: Option<string>, fault: nat -> Option<StoreError>)
    returns (reply: Reply)
    requires t.Valid() && !t.uniqueSlug
    modifies t
    ensures t.Valid()
    ensures Handled(reply, t.db) == SaveStats(old(t.db), body, nodeEnv, fault)
  {
    if !body.Arr? {
      return ErrorResponse(nodeEnv, Text(NotAnArray), 422);
    }
    var items := body.items;
    ghost var db0 := t.db;
    var errors: seq<StoreError> := [];
    var results: seq<Json> := [];
    var i := 0;
    while i < |items|
      invariant 0 <= i <= |items|
      invariant t.Valid() && !t.uniqueSlug
      invariant RunAll(db0, items[..i], fault) == Run(t.db, errors, results, false)
    {
      var item := items[i];
      if item == Null {
        ThrowEndsLoop(db0, items, fault, i);
        return ErrorResponse(nodeEnv, Failure(NullItem, None), 500);
      }
      ghost var run := Run(t.db, errors, results, false);
      var written := WriteItem(t, item, fault(i));
      TurnOfLoop(db0, items, fault, i, run, Written(written, t.db));
      errors, results := Collect(errors, results, written);
      AbsorbCollects(run, Written(written, t.db));
      i := i + 1;
    }
    assert items[..|items|] == items;
    if |errors| > 0 {
      return ErrorResponse(nodeEnv, Failure(errors[0].message, None));
    }
    return SuccessResponse(Arr(results), UpdatedMessage);
  }

  method Handle(t: Table, res: ServerResponse, req: Request, verify: string -> Verification, nodeEnv: Option<string>,
                fault: nat -> Option<StoreError>)
    requires t.Valid() && !t.uniqueSlug
    modifies t, res
    ensures t.Valid()
    ensures res.headers == WithCorsHeaders(old(res.headers), req.origin, nodeEnv)
    ensures Served(res, req, Answer(old(t.db), req, verify, nodeEnv, fault), t.db, old(t.db))
  {
    ghost var db0 := t.db;
    var preflight := SetCorsHeaders(req, res, nodeEnv);
    if preflight {
      return;
    }
    var reply;
    if req.verb == "GET" {
      AnswerRead(db0, req, verify, nodeEnv, fault);
      reply := ListStats(t.db, nodeEnv, fault(0));
    } else if req.verb == "POST" {
      AnswerWrite(db0, req, verify, nodeEnv, fault);
      var auth := Authenticate(req.authorization, verify);
      if auth.Refuse? {
        reply := auth.reply;
      } else {
        reply := UpdateStats(t, req.body, nodeEnv, fault);
      }
    } else {
      AnswerOther(db0, req, verify, nodeEnv, fault);
      reply := MethodNotAllowed;
    }
    res.Send(reply);
  }
}
