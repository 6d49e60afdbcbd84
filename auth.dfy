/** `authenticateUser`: writes need a `Bearer` token that the identity
    service accepts for some user. The service is a parameter: it answers a
    token with the user it belongs to (`null` when none) and whether it
    reported an error, or it throws. */
module Auth {
  import opened Wrappers
  import opened Text
  import opened Json
  import opened Envelope

  datatype Verification = Answer(user: Json, failed: bool) | Threw

  datatype AuthOutcome = Proceed(user: Json) | Refuse(reply: Reply)

  /** The bare `{ success: false, error }` replies of the middleware. */
  function Refusal(status: int, message: string): Reply {
    Reply(status, Obj(map["success" := Bool(false), "error" := Str(message)]))
  }

  const BearerPrefix: string := "Bearer "

  function Authenticate(header: Option<string>, verify: string -> Verification): AuthOutcome {
    if header.None? || header.value == "" || !StartsWith(header.value, BearerPrefix) then
      Refuse(Refusal(401, "Missing or invalid authorization header"))
    else
      var token := ReplaceFirst(header.value, BearerPrefix, "");
      match verify(token)
      case Threw => Refuse(Refusal(500, "Authentication failed"))
      case Answer(user, failed) =>
        if failed || !Truthy(user) then Refuse(Refusal(401, "Invalid or expired token"))
        else Proceed(user)
  }

  /** A request proceeds exactly when its header is `Bearer ` followed by a
      token the service accepts without error for a user; the token checked
      is the header without its prefix. */
  lemma ProceedIffVerified(header: Option<string>, verify: string -> Verification)
    ensures Authenticate(header, verify).Proceed? <==>
            && header.Some? && StartsWith(header.value, BearerPrefix)
            && verify(header.value[|BearerPrefix|..]).Answer?
            && !verify(header.value[|BearerPrefix|..]).failed
            && Truthy(verify(header.value[|BearerPrefix|..]).user)
    ensures Authenticate(header, verify).Proceed? ==>
            Authenticate(header, verify).user == verify(header.value[|BearerPrefix|..]).user
  {
    if header.Some? && StartsWith(header.value, BearerPrefix) {
      ReplacePrefix(header.value, BearerPrefix);
    }
  }

  /** Every refusal is a failure envelope: 401 for a bad or missing token,
      500 when the check itself broke down. */
  lemma RefusalsFail(header: Option<string>, verify: string -> Verification)
    requires Authenticate(header, verify).Refuse?
    ensures var r := Authenticate(header, verify).reply;
            !Succeeded(r) && (r.status == 401 || r.status == 500)
    ensures var r := Authenticate(header, verify).reply;
            r.status == 500 <==> header.Some? && StartsWith(header.value, BearerPrefix) && verify(header.value[|BearerPrefix|..]).Threw?
  {
    if header.Some? && StartsWith(header.value, BearerPrefix) {
      ReplacePrefix(header.value, BearerPrefix);
    }
  }

  /** A header that does not start with the prefix is refused before the
      service is asked, whatever it would answer. */
  lemma MalformedHeaderNeverVerified(header: string, verify: string -> Verification, other: string -> Verification)
    requires !StartsWith(header, BearerPrefix)
    ensures Authenticate(Some(header), verify) == Authenticate(Some(header), other)
    ensures Authenticate(Some(header), verify).Refuse? && Authenticate(Some(header), verify).reply.status == 401
  {
  }
}
