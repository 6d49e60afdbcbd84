/** The dispatch every table handler opens with: after the CORS headers,
    `GET` reads, the write verbs go through `authenticateUser` first, and
    any other verb is refused with 405. A handler's answer is the reply it
    sends and the table after it. */
module Gate {
  import opened Wrappers
  import opened Envelope
  import opened Store
  import opened Http
  import opened Auth

  datatype Handled = Handled(reply: Reply, db: Db)

  /** `read` is what the `GET` branch answers and `write` what the write
      branch answers once the caller is authenticated. */
  function Dispatch(db: Db, req: Request, verify: string -> Verification, writeVerbs: set<string>,
                    read: Handled, write: Handled): Handled
  {
    if req.verb == "GET" then read
    else if req.verb in writeVerbs then
      match Authenticate(req.authorization, verify)
      case Refuse(reply) => Handled(reply, db)
      case Proceed(_) => write
    else Handled(MethodNotAllowed, db)
  }

  /** The table changes only through a write verb from an authenticated
      caller; every other request is answered without touching it, and an
      unknown verb gets 405. */
  lemma OnlyAuthenticatedWritesChangeTable(db: Db, req: Request, verify: string -> Verification,
                                           writeVerbs: set<string>, read: Handled, write: Handled)
    requires read.db == db && "GET" !in writeVerbs
    ensures var h := Dispatch(db, req, verify, writeVerbs, read, write);
            h.db != db ==> req.verb in writeVerbs && Authenticate(req.authorization, verify).Proceed?
    ensures req.verb != "GET" && req.verb !in writeVerbs ==>
            Dispatch(db, req, verify, writeVerbs, read, write) == Handled(MethodNotAllowed, db)
    ensures req.verb in writeVerbs && Authenticate(req.authorization, verify).Refuse? ==>
            Dispatch(db, req, verify, writeVerbs, read, write) == Handled(Authenticate(req.authorization, verify).reply, db)
  {
  }

  /** What a request leaves on the response: for a preflight, an empty 200
      and no change; otherwise the dispatched reply and table. */
  ghost predicate Served(res: ServerResponse, req: Request, answer: Handled, db: Db, db0: Db)
    reads res
  {
    if req.verb == "OPTIONS" then db == db0 && res.status == 200 && res.ended
    else res.Sent() == Some(answer.reply) && db == answer.db
  }
}
