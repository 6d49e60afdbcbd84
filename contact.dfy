/** The contact form: only `POST`, which first passes the five-per-hour
    rate limiter and then checks the fields and the email's shape before the
    message is stored with status 'new'. No authentication is asked for. */
module Contact {
  import opened Wrappers
  import opened Json
  import opened Text
  import opened Envelope
  import opened Store
  import opened Http
  import opened Cors
  import opened Upsert
  import opened Gate
  import opened RateLimit

  const Required: string := "Missing required fields: name, email, message"
  const InvalidEmail: string := "Invalid email format"
  const SentMessage: string := "Message sent successfully"

  /** The TypeError the destructuring of a `null` body throws, as V8 words it. */
  const NullBody: string := "Cannot destructure property 'name' of 'req.body' as it is null."

  /** The columns the handler picks from the body. */
  const FormFields: set<string> := {"name", "email", "subject", "message", "phone", "company"}

  // -------------------------------------------------------------------
  // The email pattern `/^[^\s@]+@[^\s@]+\.[^\s@]+$/`.

  /** A character of the class `[^\s@]`. */
  predicate PlainChar(c: char) { !IsJsWhitespace(c) && c != '@' }

  predicate Plain(s: string) { |s| > 0 && forall i :: 0 <= i < |s| ==> PlainChar(s[i]) }

  /** What the pattern matches: three runs of plain characters joined by an
      `@` and a `.`. */
  ghost predicate MatchesPattern(s: string) {
    exists a, b, c :: Plain(a) && Plain(b) && Plain(c) && s == a + "@" + b + "." + c
  }

  /** The same, character by character: one `@`, not first, every other
      character plain, and a `.` in the domain that is neither its first
      nor its last character. */
  predicate ValidEmail(s: string) {
    exists at :: 0 < at < |s| && s[at] == '@'
      && (forall i :: 0 <= i < |s| && i != at ==> PlainChar(s[i]))
      && (exists p :: at + 1 < p < |s| - 1 && s[p] == '.')
  }

  lemma ValidEmailMatches(s: string)
    requires ValidEmail(s)
    ensures MatchesPattern(s)
  {
    var at :| 0 < at < |s| && s[at] == '@'
      && (forall i :: 0 <= i < |s| && i != at ==> PlainChar(s[i]))
      && (exists p :: at + 1 < p < |s| - 1 && s[p] == '.');
    var p :| at + 1 < p < |s| - 1 && s[p] == '.';
    var a, b, c := s[..at], s[at + 1..p], s[p + 1..];
    assert Plain(a) by {
      forall i | 0 <= i < |a|
        ensures PlainChar(a[i])
      {
        assert a[i] == s[i];
      }
    }
    assert Plain(b) by {
      forall i | 0 <= i < |b|
        ensures PlainChar(b[i])
      {
        assert b[i] == s[at + 1 + i];
      }
    }
    assert Plain(c) by {
      forall i | 0 <= i < |c|
        ensures PlainChar(c[i])
      {
        assert c[i] == s[p + 1 + i];
      }
    }
    assert s == a + "@" + b + "." + c;
  }

  lemma MatchIsValidEmail(s: string)
    requires MatchesPattern(s)
    ensures ValidEmail(s)
  {
    var a, b, c :| Plain(a) && Plain(b) && Plain(c) && s == a + "@" + b + "." + c;
    var at, p := |a|, |a| + 1 + |b|;
    assert s[at] == '@' && s[p] == '.';
    forall i | 0 <= i < |s| && i != at
      ensures PlainChar(s[i])
    {
      if i < at {
        assert s[i] == a[i];
      } else if i < p {
        assert s[i] == b[i - at - 1];
      } else if i > p {
        assert s[i] == c[i - p - 1];
      }
    }
  }

  lemma ValidEmailIffPattern(s: string)
    ensures ValidEmail(s) <==> MatchesPattern(s)
  {
    if ValidEmail(s) {
      ValidEmailMatches(s);
    }
    if MatchesPattern(s) {
      MatchIsValidEmail(s);
    }
  }

  lemma EmailAccepted()
    ensures ValidEmail("ann@example.com")
  {
    var s := "ann@example.com";
    assert s[3] == '@' && s[11] == '.';
  }

  /** The domain needs a dot with something on each side of it. */
  lemma EmailWithoutInnerDotRefused()
    ensures !ValidEmail("a@b") && !ValidEmail("a@.b") && !ValidEmail("a@b.")
  {
    var s, u := "a@.b", "a@b.";
    forall at | 0 < at < |s| && s[at] == '@'
      ensures !(exists p :: at + 1 < p < |s| - 1 && s[p] == '.')
    {
      assert at == 1;
    }
    forall at | 0 < at < |u| && u[at] == '@'
      ensures !(exists p :: at + 1 < p < |u| - 1 && u[p] == '.')
    {
      assert at == 1;
    }
  }

  /** A second `@`, white space, or an empty local part is refused. */
  lemma EmailWithBadLocalPartRefused()
    ensures !ValidEmail("a@@b.c") && !ValidEmail("a b@c.d") && !ValidEmail("@b.c")
  {
    var s, t := "a@@b.c", "a b@c.d";
    forall at | 0 < at < |s| && s[at] == '@'
      ensures !(forall i :: 0 <= i < |s| && i != at ==> PlainChar(s[i]))
    {
      if at == 1 {
        assert !PlainChar(s[2]);
      } else {
        assert !PlainChar(s[1]);
      }
    }
    forall at | 0 < at < |t| && t[at] == '@'
      ensures !(forall i :: 0 <= i < |t| && i != at ==> PlainChar(t[i]))
    {
      assert at == 3 && !PlainChar(t[1]);
    }
  }

  /** `regex.test(email)` converts the email to a string first. */
  function JsString(v: Json): string
    decreases v
  {
    match v
    case Null => "null"
    case Bool(b) => if b then "true" else "false"
    case Num(n) => if n < 0 then "-" + NatToString(-n) else NatToString(n)
    case Str(s) => s
    case Arr(xs) => Join(seq(|xs|, i requires 0 <= i < |xs| => if xs[i] == Null then "" else JsString(xs[i])), ",")
    case Obj(_) => "[object Object]"
  }

  /** A string email is tested as it is; of the other values only an array
      can pass, through its comma-joined elements. */
  lemma EmailStrings(s: string, n: int, b: bool, o: Object)
    ensures JsString(Str(s)) == s
    ensures ValidEmail(JsString(Arr([Str(s)]))) <==> ValidEmail(s)
    ensures !ValidEmail(JsString(Num(n))) && !ValidEmail(JsString(Bool(b))) && !ValidEmail(JsString(Obj(o)))
  {
    assert seq(1, i requires 0 <= i < 1 => if [Str(s)][i] == Null then "" else JsString([Str(s)][i])) == [s];
    var t := JsString(Num(n));
    assert forall i :: 0 <= i < |t| ==> t[i] != '@' by {
      if n >= 0 {
        assert AllDigits(NatToString(n));
      } else {
        assert AllDigits(NatToString(-n));
        assert forall i :: 1 <= i < |t| ==> t[i] == NatToString(-n)[i - 1];
      }
    }
    var ob := "[object Object]";
    assert forall i :: 0 <= i < |ob| ==> ob[i] != '@';
  }

  // -------------------------------------------------------------------
  // The submission.

  /** `{ name, email, subject, message, phone, company, status: 'new' }`;
      a field that is `undefined` is left out of the JSON. */
  function Submission(f: Object): (row: Object)
    ensures "status" in row && row["status"] == Str("new")
    ensures forall k :: k in FormFields ==> (k in row <==> k in f) && (k in f ==> row[k] == f[k])
    ensures forall k :: k in row ==> k in FormFields || k == "status"
  {
    (map k | k in f && k in FormFields :: f[k])["status" := Str("new")]
  }

  function EmailOf(f: Object): Json { if "email" in f then f["email"] else Null }

  /** `submitContactForm`, once the rate limiter has let the request
      through. */
  function Submit(db: Db, body: Json, nodeEnv: Option<string>, fault: Option<StoreError>): Handled {
    if body == Null then Handled(ErrorResponse(nodeEnv, Failure(NullBody, None), 500), db)
    else
      var f := Fields(body);
      if !Has(f, "name") || !Has(f, "email") || !Has(f, "message") then
        Handled(ErrorResponse(nodeEnv, Text(Required), 422), db)
      else if !ValidEmail(JsString(EmailOf(f))) then
        Handled(ErrorResponse(nodeEnv, Text(InvalidEmail), 422), db)
      else
        var w := Insert(db, false, Submission(f), fault);
        Handled(Respond(Single(w.result), nodeEnv, SentMessage, 201), w.db)
  }

  /** What one request leaves: the reply, the table and the rate limiter's
      record. */
  datatype Outcome = Outcome(reply: Reply, db: Db, counts: map<Identifier, seq<int>>)

  /** The handler after the CORS headers, at time `now`. */
  function Answer(db: Db, counts: map<Identifier, seq<int>>, req: Request, nodeEnv: Option<string>, now: int,
                  fault: Option<StoreError>): Outcome
  {
    if req.verb != "POST" then Outcome(MethodNotAllowed, db, counts)
    else
      var d := Admit(counts, ContactLimiter, IdentifierOf(req.forwardedFor, req.remoteAddress), now);
      if !d.allowed then Outcome(TooManyRequests, db, d.counts)
      else
        var h := Submit(db, req.body, nodeEnv, fault);
        Outcome(h.reply, h.db, d.counts)
  }

  /** The limiter runs before the fields are looked at: every `POST` is
      counted, even one that is then refused as invalid, and a refused one
      leaves the table alone. Other verbs are counted nowhere. */
  lemma LimiterBeforeValidation(db: Db, counts: map<Identifier, seq<int>>, req: Request, nodeEnv: Option<string>,
                                now: int, fault: Option<StoreError>)
    ensures var o := Answer(db, counts, req, nodeEnv, now, fault);
            var d := Admit(counts, ContactLimiter, IdentifierOf(req.forwardedFor, req.remoteAddress), now);
            && (req.verb != "POST" ==> o == Outcome(MethodNotAllowed, db, counts))
            && (req.verb == "POST" ==> o.counts == d.counts)
            && (req.verb == "POST" && !d.allowed ==> o.reply.status == 429 && o.db == db)
            && (req.verb == "POST" && d.allowed ==> o.reply == Submit(db, req.body, nodeEnv, fault).reply)
  {
  }

  /** The required fields are checked before the email: an empty name is
      reported as missing whatever the email is. */
  lemma MissingFieldsFirst(db: Db, body: Json, nodeEnv: Option<string>, fault: Option<StoreError>)
    requires body != Null
    requires !Has(Fields(body), "name") || !Has(Fields(body), "email") || !Has(Fields(body), "message")
    ensures var h := Submit(db, body, nodeEnv, fault);
            h.db == db && h.reply.status == 422 && BodyField(h.reply, "error") == Some(Str(Required))
  {
  }

  /** A submission is refused for its email exactly when the email does not
      match the pattern. */
  lemma EmailChecked(db: Db, body: Json, nodeEnv: Option<string>, fault: Option<StoreError>)
    requires body.Obj? && Has(body.fields, "name") && Has(body.fields, "email") && Has(body.fields, "message")
    ensures var h := Submit(db, body, nodeEnv, fault);
            h.reply == ErrorResponse(nodeEnv, Text(InvalidEmail), 422) <==> !MatchesPattern(JsString(body.fields["email"]))
  {
    ValidEmailIffPattern(JsString(body.fields["email"]));
  }

  /** A valid submission with the store up is added as a new row with
      status 'new' and the picked fields, and answered 201 with that row. */
  lemma ValidSubmissionStored(db: Db, body: Json, nodeEnv: Option<string>) returns (r: Row)
    requires body.Obj? && Has(body.fields, "name") && Has(body.fields, "email") && Has(body.fields, "message")
    requires ValidEmail(JsString(body.fields["email"]))
    ensures var h := Submit(db, body, nodeEnv, None);
            && h.db.rows == db.rows + [r]
            && h.reply == SuccessResponse(RowJson(r), SentMessage, 201)
            && Column(r, "status") == Str("new")
            && forall k :: k in FormFields && k in body.fields ==> Column(r, k) == body.fields[k]
  {
    var row := Submission(body.fields);
    WrittenRowCarriesFields(db, false, row, false, None);
    r := Row(db.next, Stamp(row, db.next));
  }

  // -------------------------------------------------------------------
  // The handler over the live table and limiter.

  method SubmitInto(t: Table, body: Json, nodeEnv: Option<string>, fault: Option<StoreError>) returns (reply: Reply)
    requires t.Valid() && !t.uniqueSlug
    modifies t
    ensures t.Valid()
    ensures Handled(reply, t.db) == Submit(old(t.db), body, nodeEnv, fault)
  {
    if body == Null {
      return ErrorResponse(nodeEnv, Failure(NullBody, None), 500);
    }
    var f := Fields(body);
    if !Has(f, "name") || !Has(f, "email") || !Has(f, "message") {
      return ErrorResponse(nodeEnv, Text(Required), 422);
    }
    if !ValidEmail(JsString(EmailOf(f))) {
      return ErrorResponse(nodeEnv, Text(InvalidEmail), 422);
    }
    var rows := t.InsertRow(Submission(f), fault);
    reply := Respond(Single(rows), nodeEnv, SentMessage, 201);
  }

  method Handle(t: Table, limiter: RequestCounts, res: ServerResponse, req: Request, nodeEnv: Option<string>,
                now: int, fault: Option<StoreError>)
    requires t.Valid() && !t.uniqueSlug
    modifies t, limiter, res
    ensures t.Valid()
    ensures res.headers == WithCorsHeaders(old(res.headers), req.origin, nodeEnv)
    ensures req.verb == "OPTIONS" ==>
              t.db == old(t.db) && limiter.counts == old(limiter.counts) && res.status == 200 && res.ended
    ensures req.verb != "OPTIONS" ==>
              var o := Answer(old(t.db), old(limiter.counts), req, nodeEnv, now, fault);
              res.Sent() == Some(o.reply) && t.db == o.db && limiter.counts == o.counts
  {
    var preflight := SetCorsHeaders(req, res, nodeEnv);
    if preflight {
      return;
    }
    var reply;
    if req.verb == "POST" {
      var allowed := limiter.Check(ContactLimiter, IdentifierOf(req.forwardedFor, req.remoteAddress), now);
      if !allowed {
        reply := TooManyRequests;
      } else {
        reply := SubmitInto(t, req.body, nodeEnv, fault);
      }
    } else {
      reply := MethodNotAllowed;
    }
    res.Send(reply);
  }
}
