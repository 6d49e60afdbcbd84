/** The certificates endpoint: the full list of published certificates in
    display order, newest issue first within one position, and an
    authenticated save that updates by id and otherwise inserts a new row
    with defaults. The table has no slug. */
module Certificates {
  import opened Wrappers
  import opened Json
  import opened Envelope
  import opened Store
  import opened Query
  import opened Http
  import opened Cors
  import opened Auth
  import opened Upsert
  import opened Gate

  const MissingFields: string := "Missing required fields: title, issuer, issue_date"

  /** `.order('display_order', { ascending: true }).order('issue_date', { ascending: false })` */
  const DisplayOrder: seq<OrderKey> := [OrderKey("display_order", Ascending), OrderKey("issue_date", Descending)]

  const Published: seq<Condition> := [Equals("is_published", Bool(true))]

  predicate Complete(cert: Object) { Has(cert, "title") && Has(cert, "issuer") && Has(cert, "issue_date") }

  /** The columns of an insert: the body without its id, not featured,
      display order 0 and published unless the body says otherwise. */
  function InsertColumns(cert: Object): Object {
    Without(cert, "id")["is_featured" := OrElse(cert, "is_featured", Bool(false))]
                       ["display_order" := OrElse(cert, "display_order", Num(0))]
                       ["is_published" := IfDefined(cert, "is_published", Bool(true))]
  }

  /** `upsertCertificate`: store calls 0 (the update or the insert) and 1
      (the insert after PGRST116) fail as `fault` says. */
  function SaveCertificate(db: Db, body: Json, nodeEnv: Option<string>, fault: nat -> Option<StoreError>): Handled {
    var cert := Fields(body);
    if !Complete(cert) then Handled(ErrorResponse(nodeEnv, Text(MissingFields), 422), db)
    else
      var id := GivenId(cert);
      var s := SaveById(db, false, id, Without(cert, "id"), InsertFallback(InsertColumns(cert)), fault, 0);
      Handled(Respond(s.result, nodeEnv, if Truthy(id) then "Certificate updated" else "Certificate added",
                      if Truthy(id) then 200 else 201), s.db)
  }

  /** `getCertificates`: no filters from the query, no range. */
  function ListCertificates(db: Db, nodeEnv: Option<string>, fault: Option<StoreError>): Reply {
    if fault.Some? then ErrorResponse(nodeEnv, Failure(fault.value.message, None))
    else SuccessResponse(Arr(RowsJson(Select(db.rows, Published, DisplayOrder))))
  }

  function Answer(db: Db, req: Request, verify: string -> Verification, nodeEnv: Option<string>,
                  fault: nat -> Option<StoreError>): Handled
  {
    Dispatch(db, req, verify, {"POST", "PUT"},
             Handled(ListCertificates(db, nodeEnv, fault(0)), db),
             SaveCertificate(db, req.body, nodeEnv, fault))
  }

  lemma IncompleteCertificateRejected(db: Db, body: Json, nodeEnv: Option<string>, fault: nat -> Option<StoreError>)
    requires !Complete(Fields(body))
    ensures var h := SaveCertificate(db, body, nodeEnv, fault);
            h.db == db && h.reply.status == 422 && !Succeeded(h.reply)
            && BodyField(h.reply, "error") == Some(Str(MissingFields))
  {
  }

  lemma SaveCertificateKeepsIdsUnique(db: Db, body: Json, nodeEnv: Option<string>, fault: nat -> Option<StoreError>)
    requires Consistent(db, false)
    ensures Consistent(SaveCertificate(db, body, nodeEnv, fault).db, false)
  {
    var cert := Fields(body);
    if Complete(cert) {
      SaveByIdKeepsConsistent(db, false, GivenId(cert), Without(cert, "id"), InsertFallback(InsertColumns(cert)), fault, 0);
    }
  }

  lemma SaveCertificateStatus(db: Db, body: Json, nodeEnv: Option<string>, fault: nat -> Option<StoreError>)
    ensures var h := SaveCertificate(db, body, nodeEnv, fault);
            var id := GivenId(Fields(body));
            Succeeded(h.reply) ==>
              && Complete(Fields(body))
              && h.reply.status == (if Truthy(id) then 200 else 201)
              && BodyField(h.reply, "message") == Some(Str(if Truthy(id) then "Certificate updated" else "Certificate added"))
    ensures var h := SaveCertificate(db, body, nodeEnv, fault);
            !Succeeded(h.reply) ==> h.reply.status == 400 || h.reply.status == 422
  {
  }

  lemma InsertColumnsDefaults(cert: Object)
    ensures var c := InsertColumns(cert);
            && "id" !in c
            && c["is_featured"] == OrElse(cert, "is_featured", Bool(false))
            && c["display_order"] == OrElse(cert, "display_order", Num(0))
            && c["is_published"] == IfDefined(cert, "is_published", Bool(true))
  {
  }

  /** A save whose id no row has (or that has none) inserts. */
  lemma UnknownIdInserts(db: Db, body: Json, nodeEnv: Option<string>, fault: nat -> Option<StoreError>)
    requires Complete(Fields(body))
    requires forall i :: 0 <= i < |db.rows| ==> !HasId(db.rows[i], GivenId(Fields(body)))
    requires Truthy(GivenId(Fields(body))) ==> fault(0).None?
    ensures var id := GivenId(Fields(body));
            var w := Insert(db, false, InsertColumns(Fields(body)), fault(if Truthy(id) then 1 else 0));
            SaveCertificate(db, body, nodeEnv, fault) ==
              Handled(Respond(Single(w.result), nodeEnv, if Truthy(id) then "Certificate updated" else "Certificate added",
                              if Truthy(id) then 200 else 201), w.db)
  {
    var cert := Fields(body);
    UnknownIdFallsBack(db, false, GivenId(cert), Without(cert, "id"), InsertFallback(InsertColumns(cert)), fault, 0);
  }

  /** A certificate saved under an id no row has is added as a new row at
      the end of the table, under an id of the table's own, and is listed
      unless its body unpublishes it; the reply still says 'Certificate
      updated'. */
  lemma UnknownIdAddsListedRow(db: Db, body: Json, nodeEnv: Option<string>, fault: nat -> Option<StoreError>)
    requires Consistent(db, false) && Complete(Fields(body)) && "is_published" !in Fields(body)
    requires forall i :: 0 <= i < |db.rows| ==> !HasId(db.rows[i], GivenId(Fields(body)))
    requires fault(0).None? && fault(1).None?
    ensures var h := SaveCertificate(db, body, nodeEnv, fault);
            && |h.db.rows| == |db.rows| + 1 && h.db.rows[..|db.rows|] == db.rows
            && (forall i :: 0 <= i < |db.rows| ==> IdOf(db.rows[i]) != IdOf(h.db.rows[|db.rows|]))
            && h.db.rows[|db.rows|] in Select(h.db.rows, Published, DisplayOrder)
            && BodyField(h.reply, "data") == Some(RowJson(h.db.rows[|db.rows|]))
            && (Truthy(GivenId(Fields(body))) ==> BodyField(h.reply, "message") == Some(Str("Certificate updated")))
  {
    var cert := Fields(body);
    var id := GivenId(cert);
    var cols := InsertColumns(cert);
    UnknownIdInserts(db, body, nodeEnv, fault);
    var k: nat := if Truthy(id) then 1 else 0;
    InsertIssuesFreshId(db, false, cols);
    var w := Insert(db, false, cols, fault(k));
    WrittenRowCarriesFields(db, false, cols, false, fault(k));
    InsertColumnsDefaults(cert);
    var r := w.result.value[0];
    assert w.db.rows == db.rows + [r];
    assert w.db.rows[|db.rows|] == r;
    assert Satisfies(r, Published) by {
      assert Published[0] == Equals("is_published", Bool(true));
    }
  }

  lemma AnswerRead(db: Db, req: Request, verify: string -> Verification, nodeEnv: Option<string>,
                   fault: nat -> Option<StoreError>)
    requires req.verb == "GET"
    ensures Answer(db, req, verify, nodeEnv, fault) == Handled(ListCertificates(db, nodeEnv, fault(0)), db)
  {
  }

  lemma AnswerWrite(db: Db, req: Request, verify: string -> Verification, nodeEnv: Option<string>,
                    fault: nat -> Option<StoreError>)
    requires req.verb == "POST" || req.verb == "PUT"
    ensures Answer(db, req, verify, nodeEnv, fault) ==
            if Authenticate(req.authorization, verify).Refuse? then Handled(Authenticate(req.authorization, verify).reply, db)
            else SaveCertificate(db, req.body, nodeEnv, fault)
  {
  }

  lemma AnswerOther(db: Db, req: Request, verify: string -> Verification, nodeEnv: Option<string>,
                    fault: nat -> Option<StoreError>)
    requires req.verb !in {"GET", "POST", "PUT"}
    ensures Answer(db, req, verify, nodeEnv, fault) == Handled(MethodNotAllowed, db)
  {
  }

  /** `upsertCertificate` over the live table. */
  method UpsertCertificate(t: Table, body: Json, nodeEnv: Option<string>, fault: nat -> Option<StoreError>)
    returns (reply: Reply)
    requires t.Valid() && !t.uniqueSlug
    modifies t
    ensures t.Valid()
    ensures Handled(reply, t.db) == SaveCertificate(old(t.db), body, nodeEnv, fault)
  {
    var cert := Fields(body);
    if !Complete(cert) {
      return ErrorResponse(nodeEnv, Text(MissingFields), 422);
    }
    var id := GivenId(cert);
    var result := SaveInto(t, id, Without(cert, "id"), InsertFallback(InsertColumns(cert)), fault, 0);
    if Truthy(id) {
      reply := Respond(result, nodeEnv, "Certificate updated", 200);
    } else {
      reply := Respond(result, nodeEnv, "Certificate added", 201);
    }
  }

  method Handle(t: Table, res: ServerResponse, req: Request, verify: string -> Verification, nodeEnv: Option<string>,
                fault: nat -> Option<StoreError>)
    requires t.Valid() && !t.uniqueSlug
    modifies t, res
    ensures t.Valid()
    ensures res.headers == WithCorsHeaders(old(res.headers), req.origin, nodeEnv)
    ensures Served(res, req, Answer(old(t.db), req, verify, nodeEnv, fault), t.db, old(t.db))
  {
    ghost var db0 := t.db;
    var preflight := SetCorsHeaders(req, res, nodeEnv);
    if preflight {
      return;
    }
    var reply;
    if req.verb == "GET" {
      AnswerRead(db0, req, verify, nodeEnv, fault);
      reply := ListCertificates(t.db, nodeEnv, fault(0));
    } else if req.verb == "POST" || req.verb == "PUT" {
      AnswerWrite(db0, req, verify, nodeEnv, fault);
      var auth := Authenticate(req.authorization, verify);
      if auth.Refuse? {
        reply := auth.reply;
      } else {
        reply := UpsertCertificate(t, req.body, nodeEnv, fault);
      }
    } else {
      AnswerOther(db0, req, verify, nodeEnv, fault);
      reply := MethodNotAllowed;
    }
    res.Send(reply);
  }
}
