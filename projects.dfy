/** The projects endpoint: a public, paginated listing of published
    projects in display order, and an authenticated save that fills in
    defaults, updates by id, and upserts on the slug when the id is unknown
    or absent. */
module Projects {
  import opened Wrappers
  import opened Json
  import opened Envelope
  import opened Store
  import opened Query
  import opened Http
  import opened Cors
  import opened Auth
  import opened Upsert
  import opened Gate

  const MissingFields: string := "Missing required fields: title, slug"

  /** `.order('display_order', { ascending: true }).order('created_at', { ascending: false })` */
  const DisplayOrder: seq<OrderKey> := [OrderKey("display_order", Ascending), OrderKey("created_at", Descending)]

  /** `GET /api/projects` without parameters. */
  const FirstPage: ListQuery := ListQuery(None, None, 50, 0)

  predicate Complete(project: Object) { Has(project, "title") && Has(project, "slug") }

  /** The body with its defaults filled in, without the id: status
      'completed', not featured, display order 0, and published unless the
      body says otherwise. */
  function Payload(project: Object): Object {
    var merged := project["status" := OrElse(project, "status", Str("completed"))]
                         ["featured" := OrElse(project, "featured", Bool(false))]
                         ["display_order" := OrElse(project, "display_order", Num(0))]
                         ["is_published" := IfDefined(project, "is_published", Bool(true))];
    Without(merged, "id")
  }

  /** `{ ...payload, slug: payload.slug || projectData.slug }`; a slug that
      is `undefined` is left out of the JSON. */
  function FallbackColumns(payload: Object, project: Object): Object {
    if Has(payload, "slug") then payload
    else if "slug" in project then payload["slug" := project["slug"]]
    else payload - {"slug"}
  }

  /** The defaults a stored project gets. */
  lemma PayloadDefaults(project: Object)
    ensures var p := Payload(project);
            && "id" !in p
            && p["status"] == OrElse(project, "status", Str("completed"))
            && p["featured"] == OrElse(project, "featured", Bool(false))
            && p["display_order"] == OrElse(project, "display_order", Num(0))
            && p["is_published"] == IfDefined(project, "is_published", Bool(true))
            && forall k :: k in project && k !in {"id", "status", "featured", "display_order", "is_published"} ==>
                 k in p && p[k] == project[k]
  {
  }

  /** The fallback's slug is the payload's own: the body's slug passes into
      the payload unchanged and, being required, is never falsy. */
  lemma FallbackIsPayload(project: Object)
    requires Complete(project)
    ensures FallbackColumns(Payload(project), project) == Payload(project)
  {
    assert Payload(project)["slug"] == project["slug"];
  }

  /** `upsertProject`: store calls 0 (the update or the upsert) and 1 (the
      upsert after PGRST116) fail as `fault` says. */
  function SaveProject(db: Db, body: Json, nodeEnv: Option<string>, fault: nat -> Option<StoreError>): Handled {
    var project := Fields(body);
    if !Complete(project) then Handled(ErrorResponse(nodeEnv, Text(MissingFields), 422), db)
    else
      var id := GivenId(project);
      var payload := Payload(project);
      var fb := if Truthy(id) then FallbackColumns(payload, project) else payload;
      var s := SaveById(db, true, id, payload, UpsertFallback(fb), fault, 0);
      Handled(Respond(s.result, nodeEnv, if Truthy(id) then "Project saved" else "Project created", 200), s.db)
  }

  /** `getProjects` */
  function ListProjects(db: Db, q: ListQuery, nodeEnv: Option<string>, fault: Option<StoreError>): Reply {
    if fault.Some? then ErrorResponse(nodeEnv, Failure(fault.value.message, None))
    else SuccessResponse(Paginated("projects", Select(db.rows, CatalogFilter(q, "featured"), DisplayOrder), q))
  }

  function Answer(db: Db, req: Request, verify: string -> Verification, nodeEnv: Option<string>,
                  fault: nat -> Option<StoreError>): Handled
  {
    Dispatch(db, req, verify, {"POST", "PUT"},
             Handled(ListProjects(db, ListQueryOf(req.query), nodeEnv, fault(0)), db),
             SaveProject(db, req.body, nodeEnv, fault))
  }

  lemma IncompleteProjectRejected(db: Db, body: Json, nodeEnv: Option<string>, fault: nat -> Option<StoreError>)
    requires !Complete(Fields(body))
    ensures var h := SaveProject(db, body, nodeEnv, fault);
            h.db == db && h.reply.status == 422 && !Succeeded(h.reply)
            && BodyField(h.reply, "error") == Some(Str(MissingFields))
  {
  }

  lemma SaveProjectKeepsSlugsUnique(db: Db, body: Json, nodeEnv: Option<string>, fault: nat -> Option<StoreError>)
    requires Consistent(db, true)
    ensures Consistent(SaveProject(db, body, nodeEnv, fault).db, true)
  {
    var project := Fields(body);
    if Complete(project) {
      var id := GivenId(project);
      var payload := Payload(project);
      var fb := if Truthy(id) then FallbackColumns(payload, project) else payload;
      SaveByIdKeepsConsistent(db, true, id, payload, UpsertFallback(fb), fault, 0);
    }
  }

  /** Every successful save answers 200, whether it created the project or
      not; only the message tells a body with an id from one without. */
  lemma SaveProjectStatus(db: Db, body: Json, nodeEnv: Option<string>, fault: nat -> Option<StoreError>)
    ensures var h := SaveProject(db, body, nodeEnv, fault);
            var id := GivenId(Fields(body));
            Succeeded(h.reply) ==>
              && Complete(Fields(body)) && h.reply.status == 200
              && BodyField(h.reply, "message") == Some(Str(if Truthy(id) then "Project saved" else "Project created"))
    ensures var h := SaveProject(db, body, nodeEnv, fault);
            !Succeeded(h.reply) ==> h.reply.status == 400 || h.reply.status == 422
  {
  }

  lemma SaveWithoutIdUpserts(db: Db, body: Json, nodeEnv: Option<string>, fault: nat -> Option<StoreError>)
    requires Complete(Fields(body)) && !Truthy(GivenId(Fields(body)))
    ensures var w := UpsertOnSlug(db, Payload(Fields(body)), fault(0));
            SaveProject(db, body, nodeEnv, fault) == Handled(Respond(Single(w.result), nodeEnv, "Project created", 200), w.db)
  {
  }

  lemma SucceededSaveIsComplete(db: Db, body: Json, nodeEnv: Option<string>, fault: nat -> Option<StoreError>)
    requires Succeeded(SaveProject(db, body, nodeEnv, fault).reply)
    ensures Complete(Fields(body))
  {
  }

  /** The row a save without an id stores: the one the reply carries, with
      the payload's status and publication flag. */
  lemma CreatedProjectRow(db: Db, body: Json, nodeEnv: Option<string>, fault: nat -> Option<StoreError>)
    returns (r: Row)
    requires !Truthy(GivenId(Fields(body)))
    requires Succeeded(SaveProject(db, body, nodeEnv, fault).reply)
    ensures var h := SaveProject(db, body, nodeEnv, fault);
            && r in h.db.rows && BodyField(h.reply, "data") == Some(RowJson(r))
            && Column(r, "status") == OrElse(Fields(body), "status", Str("completed"))
            && Column(r, "is_published") == IfDefined(Fields(body), "is_published", Bool(true))
  {
    var payload := Payload(Fields(body));
    PayloadDefaults(Fields(body));
    SucceededSaveIsComplete(db, body, nodeEnv, fault);
    SaveWithoutIdUpserts(db, body, nodeEnv, fault);
    var w := UpsertOnSlug(db, payload, fault(0));
    assert Single(w.result).Ok?;
    WrittenRowCarriesFields(db, true, payload, true, fault(0));
    r := w.result.value[0];
  }

  /** A new project that was stored is public unless its body says
      `is_published`: the default is to publish, unlike a blog post. */
  lemma NewProjectPublishedByDefault(db: Db, body: Json, nodeEnv: Option<string>, fault: nat -> Option<StoreError>)
    requires !Truthy(GivenId(Fields(body)))
    requires Succeeded(SaveProject(db, body, nodeEnv, fault).reply)
    ensures var h := SaveProject(db, body, nodeEnv, fault);
            var project := Fields(body);
            var listed := Select(h.db.rows, CatalogFilter(FirstPage, "featured"), DisplayOrder);
            exists r :: && r in h.db.rows && BodyField(h.reply, "data") == Some(RowJson(r))
                        && Column(r, "status") == OrElse(project, "status", Str("completed"))
                        && ("is_published" !in project ==> r in listed)
                        && ("is_published" in project ==> (r in listed <==> project["is_published"] == Bool(true)))
  {
    var h := SaveProject(db, body, nodeEnv, fault);
    var r := CreatedProjectRow(db, body, nodeEnv, fault);
    PayloadDefaults(Fields(body));
    ListedIffPublished(h.db.rows, r, FirstPage, "featured", DisplayOrder);
  }

  lemma AnswerRead(db: Db, req: Request, verify: string -> Verification, nodeEnv: Option<string>, fault: nat -> Option<StoreError>)
    requires req.verb == "GET"
    ensures Answer(db, req, verify, nodeEnv, fault) == Handled(ListProjects(db, ListQueryOf(req.query), nodeEnv, fault(0)), db)
  {
  }

  lemma AnswerWrite(db: Db, req: Request, verify: string -> Verification, nodeEnv: Option<string>, fault: nat -> Option<StoreError>)
    requires req.verb == "POST" || req.verb == "PUT"
    ensures Answer(db, req, verify, nodeEnv, fault) ==
            if Authenticate(req.authorization, verify).Refuse? then Handled(Authenticate(req.authorization, verify).reply, db)
            else SaveProject(db, req.body, nodeEnv, fault)
  {
  }

  lemma AnswerOther(db: Db, req: Request, verify: string -> Verification, nodeEnv: Option<string>, fault: nat -> Option<StoreError>)
    requires req.verb !in {"GET", "POST", "PUT"}
    ensures Answer(db, req, verify, nodeEnv, fault) == Handled(MethodNotAllowed, db)
  {
  }

  /** `upsertProject` over the live table. */
  method UpsertProject(t: Table, body: Json, nodeEnv: Option<string>, fault: nat -> Option<StoreError>)
    returns (reply: Reply)
    requires t.Valid() && t.uniqueSlug
    modifies t
    ensures t.Valid()
    ensures Handled(reply, t.db) == SaveProject(old(t.db), body, nodeEnv, fault)
  {
    var project := Fields(body);
    if !Complete(project) {
      return ErrorResponse(nodeEnv, Text(MissingFields), 422);
    }
    var id := GivenId(project);
    var payload := Payload(project);
    var result;
    if Truthy(id) {
      result := SaveInto(t, id, payload, UpsertFallback(FallbackColumns(payload, project)), fault, 0);
      reply := Respond(result, nodeEnv, "Project saved", 200);
    } else {
      result := SaveInto(t, id, payload, UpsertFallback(payload), fault, 0);
      reply := Respond(result, nodeEnv, "Project created", 200);
    }
  }

  method Handle(t: Table, res: ServerResponse, req: Request, verify: string -> Verification, nodeEnv: Option<string>,
                fault: nat -> Option<StoreError>)
    requires t.Valid() && t.uniqueSlug
    modifies t, res
    ensures t.Valid()
    ensures res.headers == WithCorsHeaders(old(res.headers), req.origin, nodeEnv)
    ensures Served(res, req, Answer(old(t.db), req, verify, nodeEnv, fault), t.db, old(t.db))
  {
    ghost var db0 := t.db;
    var preflight := SetCorsHeaders(req, res, nodeEnv);
    if preflight {
      return;
    }
    var reply;
    if req.verb == "GET" {
      AnswerRead(db0, req, verify, nodeEnv, fault);
      reply := ListProjects(t.db, ListQueryOf(req.query), nodeEnv, fault(0));
    } else if req.verb == "POST" || req.verb == "PUT" {
      AnswerWrite(db0, req, verify, nodeEnv, fault);
      var auth := Authenticate(req.authorization, verify);
      if auth.Refuse? {
        reply := auth.reply;
      } else {
        reply := UpsertProject(t, req.body, nodeEnv, fault);
      }
    } else {
      AnswerOther(db0, req, verify, nodeEnv, fault);
      reply := MethodNotAllowed;
    }
    res.Send(reply);
  }
}
