/** The blogs endpoint: a public, paginated listing of published posts,
    newest first, and an authenticated save that updates a post by id or
    upserts it on its slug. */
module Blogs {
  import opened Wrappers
  import opened Json
  import opened Envelope
  import opened Store
  import opened Query
  import opened Http
  import opened Cors
  import opened Auth
  import opened Upsert
  import opened Gate

  const MissingFields: string := "Missing required fields: title, slug, content"

  /** `.order('published_at', { ascending: false })` */
  const NewestFirst: seq<OrderKey> := [OrderKey("published_at", Descending)]

  /** `GET /api/blogs` without parameters. */
  const FirstPage: ListQuery := ListQuery(None, None, 50, 0)

  predicate Complete(post: Object) { Has(post, "title") && Has(post, "slug") && Has(post, "content") }

  /** The columns of the slug upsert: the post without its id, the flags
      defaulting to false, and a post published without a date stamped with
      the current time. */
  function UpsertColumns(post: Object, nowIso: string): Object {
    var rest := Without(post, "id");
    rest["is_featured" := OrElse(post, "is_featured", Bool(false))]
        ["is_published" := OrElse(post, "is_published", Bool(false))]
        ["published_at" := if Has(rest, "published_at") then rest["published_at"]
                           else if Has(post, "is_published") then Str(nowIso) else Null]
  }

  /** `upsertBlog`: store calls 0 (the update or the upsert) and 1 (the
      upsert after PGRST116) fail as `fault` says. */
  function SaveBlog(db: Db, body: Json, nodeEnv: Option<string>, nowIso: string, fault: nat -> Option<StoreError>): Handled {
    var post := Fields(body);
    if !Complete(post) then Handled(ErrorResponse(nodeEnv, Text(MissingFields), 422), db)
    else
      var id := GivenId(post);
      var s := SaveById(db, true, id, Without(post, "id"), UpsertFallback(UpsertColumns(post, nowIso)), fault, 0);
      Handled(Respond(s.result, nodeEnv, if Truthy(id) then "Blog post updated" else "Blog post created",
                      if Truthy(id) then 200 else 201), s.db)
  }

  /** `getBlogs` */
  function ListBlogs(db: Db, q: ListQuery, nodeEnv: Option<string>, fault: Option<StoreError>): Reply {
    if fault.Some? then ErrorResponse(nodeEnv, Failure(fault.value.message, None))
    else SuccessResponse(Paginated("blogs", Select(db.rows, CatalogFilter(q, "is_featured"), NewestFirst), q))
  }

  function Answer(db: Db, req: Request, verify: string -> Verification, nodeEnv: Option<string>, nowIso: string,
                  fault: nat -> Option<StoreError>): Handled
  {
    Dispatch(db, req, verify, {"POST", "PUT"},
             Handled(ListBlogs(db, ListQueryOf(req.query), nodeEnv, fault(0)), db),
             SaveBlog(db, req.body, nodeEnv, nowIso, fault))
  }

  /** A post without a title, slug or content is refused with 422 before
      anything is written. */
  lemma IncompletePostRejected(db: Db, body: Json, nodeEnv: Option<string>, nowIso: string, fault: nat -> Option<StoreError>)
    requires !Complete(Fields(body))
    ensures var h := SaveBlog(db, body, nodeEnv, nowIso, fault);
            h.db == db && h.reply.status == 422 && !Succeeded(h.reply)
            && BodyField(h.reply, "error") == Some(Str(MissingFields))
  {
  }

  /** Saving never leaves two posts with one slug, nor two rows with one id. */
  lemma SaveBlogKeepsSlugsUnique(db: Db, body: Json, nodeEnv: Option<string>, nowIso: string, fault: nat -> Option<StoreError>)
    requires Consistent(db, true)
    ensures Consistent(SaveBlog(db, body, nodeEnv, nowIso, fault).db, true)
  {
    var post := Fields(body);
    if Complete(post) {
      SaveByIdKeepsConsistent(db, true, GivenId(post), Without(post, "id"), UpsertFallback(UpsertColumns(post, nowIso)), fault, 0);
    }
  }

  /** A successful save answers 200 'Blog post updated' when the body had an
      id and 201 'Blog post created' when it had none, with the stored row;
      a failed one leaves a failure envelope. */
  lemma SaveBlogStatus(db: Db, body: Json, nodeEnv: Option<string>, nowIso: string, fault: nat -> Option<StoreError>)
    ensures var h := SaveBlog(db, body, nodeEnv, nowIso, fault);
            var id := GivenId(Fields(body));
            Succeeded(h.reply) ==>
              && Complete(Fields(body))
              && h.reply.status == (if Truthy(id) then 200 else 201)
              && BodyField(h.reply, "message") == Some(Str(if Truthy(id) then "Blog post updated" else "Blog post created"))
    ensures var h := SaveBlog(db, body, nodeEnv, nowIso, fault);
            !Succeeded(h.reply) ==> h.reply.status == 400 || h.reply.status == 422
  {
  }

  /** The flags the upsert writes. */
  lemma UpsertColumnsFlags(post: Object, nowIso: string)
    ensures var cols := UpsertColumns(post, nowIso);
            && "id" !in cols
            && cols["is_published"] == OrElse(post, "is_published", Bool(false))
            && cols["is_featured"] == OrElse(post, "is_featured", Bool(false))
            && cols["published_at"] == if Has(post, "published_at") then post["published_at"]
                                       else if Has(post, "is_published") then Str(nowIso) else Null
  {
  }

  /** A save without an id is the slug upsert of the post's columns. */
  lemma SaveWithoutIdUpserts(db: Db, body: Json, nodeEnv: Option<string>, nowIso: string, fault: nat -> Option<StoreError>)
    requires Complete(Fields(body)) && !Truthy(GivenId(Fields(body)))
    ensures var w := UpsertOnSlug(db, UpsertColumns(Fields(body), nowIso), fault(0));
            SaveBlog(db, body, nodeEnv, nowIso, fault) == Handled(Respond(Single(w.result), nodeEnv, "Blog post created", 201), w.db)
  {
  }

  /** Only a complete post whose write went through is answered with success. */
  lemma SucceededSaveIsComplete(db: Db, body: Json, nodeEnv: Option<string>, nowIso: string, fault: nat -> Option<StoreError>)
    requires Succeeded(SaveBlog(db, body, nodeEnv, nowIso, fault).reply)
    ensures Complete(Fields(body))
  {
  }

  /** The row a save without an id stores: the one the reply carries, with
      the upsert's columns. */
  lemma CreatedPostRow(db: Db, body: Json, nodeEnv: Option<string>, nowIso: string, fault: nat -> Option<StoreError>)
    returns (r: Row)
    requires !Truthy(GivenId(Fields(body)))
    requires Succeeded(SaveBlog(db, body, nodeEnv, nowIso, fault).reply)
    ensures var h := SaveBlog(db, body, nodeEnv, nowIso, fault);
            && r in h.db.rows && BodyField(h.reply, "data") == Some(RowJson(r))
            && Column(r, "is_published") == OrElse(Fields(body), "is_published", Bool(false))
            && Column(r, "published_at") == UpsertColumns(Fields(body), nowIso)["published_at"]
  {
    var post := Fields(body);
    var cols := UpsertColumns(post, nowIso);
    SucceededSaveIsComplete(db, body, nodeEnv, nowIso, fault);
    SaveWithoutIdUpserts(db, body, nodeEnv, nowIso, fault);
    var w := UpsertOnSlug(db, cols, fault(0));
    assert Single(w.result).Ok?;
    WrittenRowCarriesFields(db, true, cols, true, fault(0));
    UpsertColumnsFlags(post, nowIso);
    r := w.result.value[0];
  }

  /** A new post (no id) that was stored is among the posts the public
      listing selects, before paging, exactly as its `is_published` flag
      says: `true` lists it, a missing or falsy flag keeps it a draft. A post
      published without a date carries the time of the save. */
  lemma NewPostListedIffPublished(db: Db, body: Json, nodeEnv: Option<string>, nowIso: string, fault: nat -> Option<StoreError>)
    requires !Truthy(GivenId(Fields(body)))
    requires Succeeded(SaveBlog(db, body, nodeEnv, nowIso, fault).reply)
    ensures var h := SaveBlog(db, body, nodeEnv, nowIso, fault);
            var post := Fields(body);
            var listed := Select(h.db.rows, CatalogFilter(FirstPage, "is_featured"), NewestFirst);
            exists r :: && r in h.db.rows && BodyField(h.reply, "data") == Some(RowJson(r))
                        && ("is_published" in post && post["is_published"] == Bool(true) ==> r in listed)
                        && (!Has(post, "is_published") ==> r !in listed)
                        && (Has(post, "is_published") && !Has(post, "published_at") ==> Column(r, "published_at") == Str(nowIso))
  {
    var h := SaveBlog(db, body, nodeEnv, nowIso, fault);
    var r := CreatedPostRow(db, body, nodeEnv, nowIso, fault);
    ListedIffPublished(h.db.rows, r, FirstPage, "is_featured", NewestFirst);
  }

  /** The listing holds exactly the published posts that pass the filters,
      newest first, one page of them, and counts them all. */
  lemma ListingIsPublishedPosts(db: Db, q: ListQuery, nodeEnv: Option<string>)
    ensures var all := Select(db.rows, CatalogFilter(q, "is_featured"), NewestFirst);
            && ListBlogs(db, q, nodeEnv, None) == SuccessResponse(Paginated("blogs", all, q))
            && SortedBy(all, NewestFirst)
            && (forall r :: r in all ==> r in db.rows && Column(r, "is_published") == Bool(true))
            && |Page(all, q.offset, q.limit)| <= q.limit
  {
  }

  /** `upsertBlog` over the live table. */
  method UpsertBlog(t: Table, body: Json, nodeEnv: Option<string>, nowIso: string, fault: nat -> Option<StoreError>)
    returns (reply: Reply)
    requires t.Valid() && t.uniqueSlug
    modifies t
    ensures t.Valid()
    ensures Handled(reply, t.db) == SaveBlog(old(t.db), body, nodeEnv, nowIso, fault)
  {
    var post := Fields(body);
    if !Complete(post) {
      return ErrorResponse(nodeEnv, Text(MissingFields), 422);
    }
    var id := GivenId(post);
    var result := SaveInto(t, id, Without(post, "id"), UpsertFallback(UpsertColumns(post, nowIso)), fault, 0);
    if Truthy(id) {
      reply := Respond(result, nodeEnv, "Blog post updated", 200);
    } else {
      reply := Respond(result, nodeEnv, "Blog post created", 201);
    }
  }

  lemma AnswerRead(db: Db, req: Request, verify: string -> Verification, nodeEnv: Option<string>, nowIso: string, fault: nat -> Option<StoreError>)
    requires req.verb == "GET"
    ensures Answer(db, req, verify, nodeEnv, nowIso, fault) == Handled(ListBlogs(db, ListQueryOf(req.query), nodeEnv, fault(0)), db)
  {
  }

  lemma AnswerWrite(db: Db, req: Request, verify: string -> Verification, nodeEnv: Option<string>, nowIso: string, fault: nat -> Option<StoreError>)
    requires req.verb == "POST" || req.verb == "PUT"
    ensures Answer(db, req, verify, nodeEnv, nowIso, fault) ==
            if Authenticate(req.authorization, verify).Refuse? then Handled(Authenticate(req.authorization, verify).reply, db)
            else SaveBlog(db, req.body, nodeEnv, nowIso, fault)
  {
  }

  lemma AnswerOther(db: Db, req: Request, verify: string -> Verification, nodeEnv: Option<string>, nowIso: string, fault: nat -> Option<StoreError>)
    requires req.verb !in {"GET", "POST", "PUT"}
    ensures Answer(db, req, verify, nodeEnv, nowIso, fault) == Handled(MethodNotAllowed, db)
  {
  }

  /** The handler: CORS, then the dispatch. */
  method Handle(t: Table, res: ServerResponse, req: Request, verify: string -> Verification, nodeEnv: Option<string>,
                nowIso: string, fault: nat -> Option<StoreError>)
    requires t.Valid() && t.uniqueSlug
    modifies t, res
    ensures t.Valid()
    ensures res.headers == WithCorsHeaders(old(res.headers), req.origin, nodeEnv)
    ensures Served(res, req, Answer(old(t.db), req, verify, nodeEnv, nowIso, fault), t.db, old(t.db))
  {
    ghost var db0 := t.db;
    var preflight := SetCorsHeaders(req, res, nodeEnv);
    if preflight {
      return;
    }
    var reply;
    if req.verb == "GET" {
      AnswerRead(db0, req, verify, nodeEnv, nowIso, fault);
      reply := ListBlogs(t.db, ListQueryOf(req.query), nodeEnv, fault(0));
    } else if req.verb == "POST" || req.verb == "PUT" {
      AnswerWrite(db0, req, verify, nodeEnv, nowIso, fault);
      var auth := Authenticate(req.authorization, verify);
      if auth.Refuse? {
        reply := auth.reply;
      } else {
        reply := UpsertBlog(t, req.body, nodeEnv, nowIso, fault);
      }
    } else {
      AnswerOther(db0, req, verify, nodeEnv, nowIso, fault);
      reply := MethodNotAllowed;
    }
    res.Send(reply);
  }
}
