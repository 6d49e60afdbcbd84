/** The hero endpoint: `GET` serves the active hero section, and an
    authenticated `POST` or `PUT` saves one, which needs a title. */
module Hero {
  import opened Wrappers
  import opened Json
  import opened Envelope
  import opened Store
  import opened Http
  import opened Cors
  import opened Auth
  import opened Upsert
  import opened Gate
  import opened Singleton

  const Required: string := "Title is required"
  const SavedMessage: string := "Hero section updated successfully"

  predicate Complete(f: Object) { Has(f, "title") }

  /** `updateHero` */
  function SaveHero(db: Db, body: Json, nodeEnv: Option<string>, fault: nat -> Option<StoreError>): Handled {
    var f := Fields(body);
    if !Complete(f) then Handled(ErrorResponse(nodeEnv, Text(Required), 422), db)
    else SaveSection(db, f, nodeEnv, SavedMessage, fault)
  }

  function Answer(db: Db, req: Request, verify: string -> Verification, nodeEnv: Option<string>,
                  fault: nat -> Option<StoreError>): Handled
  {
    Dispatch(db, req, verify, {"POST", "PUT"},
             Handled(ActiveSection(db, nodeEnv, fault(0)), db),
             SaveHero(db, req.body, nodeEnv, fault))
  }

  /** A hero without a title is refused before any store call. */
  lemma IncompleteHeroRejected(db: Db, body: Json, nodeEnv: Option<string>, fault: nat -> Option<StoreError>)
    requires !Complete(Fields(body))
    ensures var h := SaveHero(db, body, nodeEnv, fault);
            h.db == db && h.reply.status == 422 && BodyField(h.reply, "error") == Some(Str(Required))
  {
  }

  /** An active hero saved without store failures is what the next
      read serves, and it is the only active row. */
  lemma ActiveHeroIsServed(db: Db, body: Json, nodeEnv: Option<string>, fault: nat -> Option<StoreError>)
    returns (r: Row)
    requires Consistent(db, false) && Complete(Fields(body))
    requires "is_active" in Fields(body) && Fields(body)["is_active"] == Bool(true)
    requires forall n :: fault(n) == None
    ensures var h := SaveHero(db, body, nodeEnv, fault);
            && h.reply == SuccessResponse(RowJson(r), SavedMessage, 200)
            && ActiveRows(h.db.rows) == [r]
            && ActiveSection(h.db, nodeEnv, None) == SuccessResponse(RowJson(r))
  {
    r := ActiveSaveIsServed(db, Fields(body), nodeEnv, SavedMessage, fault);
  }

  lemma SaveHeroKeepsIdsUnique(db: Db, body: Json, nodeEnv: Option<string>, fault: nat -> Option<StoreError>)
    requires Consistent(db, false)
    ensures Consistent(SaveHero(db, body, nodeEnv, fault).db, false)
  {
    SaveSectionKeepsIdsUnique(db, Fields(body), nodeEnv, SavedMessage, fault);
  }

  lemma AnswerRead(db: Db, req: Request, verify: string -> Verification, nodeEnv: Option<string>,
                   fault: nat -> Option<StoreError>)
    requires req.verb == "GET"
    ensures Answer(db, req, verify, nodeEnv, fault) == Handled(ActiveSection(db, nodeEnv, fault(0)), db)
  {
  }

  lemma AnswerWrite(db: Db, req: Request, verify: string -> Verification, nodeEnv: Option<string>,
                    fault: nat -> Option<StoreError>)
    requires req.verb == "POST" || req.verb == "PUT"
    ensures Answer(db, req, verify, nodeEnv, fault) ==
            if Authenticate(req.authorization, verify).Refuse? then Handled(Authenticate(req.authorization, verify).reply, db)
            else SaveHero(db, req.body, nodeEnv, fault)
  {
  }

  lemma AnswerOther(db: Db, req: Request, verify: string -> Verification, nodeEnv: Option<string>,
                    fault: nat -> Option<StoreError>)
    requires req.verb !in {"GET", "POST", "PUT"}
    ensures Answer(db, req, verify, nodeEnv, fault) == Handled(MethodNotAllowed, db)
  {
  }

  /** `updateHero` over the live table. */
  method UpdateHero(t: Table, body: Json, nodeEnv: Option<string>, fault: nat -> Option<StoreError>)
    returns (reply: Reply)
    requires t.Valid() && !t.uniqueSlug
    modifies t
    ensures t.Valid()
    ensures Handled(reply, t.db) == SaveHero(old(t.db), body, nodeEnv, fault)
  {
    var f := Fields(body);
    if !Complete(f) {
      return ErrorResponse(nodeEnv, Text(Required), 422);
    }
    reply := SaveSectionInto(t, f, nodeEnv, SavedMessage, fault);
  }

  method Handle(t: Table, res: ServerResponse, req: Request, verify: string -> Verification, nodeEnv: Option<string>,
                fault: nat -> Option<StoreError>)
    requires t.Valid() && !t.uniqueSlug
    modifies t, res
    ensures t.Valid()
    ensures res.headers == WithCorsHeaders(old(res.headers), req.origin, nodeEnv)
    ensures Served(res, req, Answer(old(t.db), req, verify, nodeEnv, fault), t.db, old(t.db))
  {
    ghost var db0 := t.db;
    var preflight := SetCorsHeaders(req, res, nodeEnv);
    if preflight {
      return;
    }
    var reply;
    if req.verb == "GET" {
      AnswerRead(db0, req, verify, nodeEnv, fault);
      reply := ActiveSection(t.db, nodeEnv, fault(0));
    } else if req.verb == "POST" || req.verb == "PUT" {
      AnswerWrite(db0, req, verify, nodeEnv, fault);
      var auth := Authenticate(req.authorization, verify);
      if auth.Refuse? {
        reply := auth.reply;
      } else {
        reply := UpdateHero(t, req.body, nodeEnv, fault);
      }
    } else {
      AnswerOther(db0, req, verify, nodeEnv, fault);
      reply := MethodNotAllowed;
    }
    res.Send(reply);
  }
}
