/** The uniform response envelopes of utils/response.js, and the bare replies
    the handlers build themselves (`res.status(405).json({ error: … })`). A
    reply is what `res.status(s).json(body)` sends: the status and the JSON
    body. Keys the source sets to `undefined` are absent from the body, as
    `JSON.stringify` leaves them out. */
module Envelope {
  import opened Wrappers
  import opened Json

  datatype Reply = Reply(status: int, body: Json)

  /** What an error argument can be: a message string, or an error object
      with a `message` and possibly a `stack`. */
  datatype ErrorValue = Text(text: string) | Failure(message: string, stack: Option<string>)

  /** `typeof error === 'string' ? error : error.message` */
  function ErrorText(e: ErrorValue): string {
    match e
    case Text(s) => s
    case Failure(m, _) => m
  }

  /** A top-level key of a reply's body, as a client reads it. */
  function BodyField(r: Reply, k: string): Option<Json> {
    if r.body.Obj? && k in r.body.fields then Some(r.body.fields[k]) else None
  }

  function BodyKeys(r: Reply): set<string> {
    if r.body.Obj? then r.body.fields.Keys else {}
  }

  /** `successResponse(res, data, message = 'Success', statusCode = 200)` */
  function SuccessResponse(data: Json, message: string := "Success", status: int := 200): (r: Reply)
    ensures r.status == status && BodyKeys(r) == {"success", "message", "data"}
    ensures BodyField(r, "success") == Some(Bool(true))
    ensures BodyField(r, "message") == Some(Str(message)) && BodyField(r, "data") == Some(data)
  {
    Reply(status, Obj(map["success" := Bool(true), "message" := Str(message), "data" := data]))
  }

  predicate IsDevelopment(nodeEnv: Option<string>) { nodeEnv == Some("development") }

  /** `errorResponse(res, error, statusCode = 400)`: the stack is spread in
      only under NODE_ENV 'development', and only an error object has one. */
  function ErrorResponse(nodeEnv: Option<string>, error: ErrorValue, status: int := 400): (r: Reply)
    ensures r.status == status
    ensures BodyField(r, "success") == Some(Bool(false)) && BodyField(r, "error") == Some(Str(ErrorText(error)))
    ensures BodyKeys(r) <= {"success", "error", "stack"}
  {
    var base := map["success" := Bool(false), "error" := Str(ErrorText(error))];
    if IsDevelopment(nodeEnv) && error.Failure? && error.stack.Some? then
      Reply(status, Obj(base["stack" := Str(error.stack.value)]))
    else Reply(status, Obj(base))
  }

  /** `validationErrorResponse(res, errors)`: always 422, and `errors` passes
      through unchanged. */
  function ValidationErrorResponse(errors: Json): (r: Reply)
    ensures r.status == 422 && BodyKeys(r) == {"success", "error", "errors"}
    ensures BodyField(r, "success") == Some(Bool(false)) && BodyField(r, "error") == Some(Str("Validation failed"))
    ensures BodyField(r, "errors") == Some(errors)
  {
    Reply(422, Obj(map["success" := Bool(false), "error" := Str("Validation failed"), "errors" := errors]))
  }

  /** `res.status(405).json({ error: 'Method not allowed' })` */
  const MethodNotAllowed: Reply := Reply(405, Obj(map["error" := Str("Method not allowed")]))

  /** The success flag a client reads tells the two envelopes apart. */
  predicate Succeeded(r: Reply) { BodyField(r, "success") == Some(Bool(true)) }

  lemma EnvelopesDiffer(data: Json, message: string, status: int, nodeEnv: Option<string>, error: ErrorValue, errStatus: int)
    ensures Succeeded(SuccessResponse(data, message, status))
    ensures !Succeeded(ErrorResponse(nodeEnv, error, errStatus))
    ensures !Succeeded(ValidationErrorResponse(data))
  {
  }

  /** The stack is in the body exactly in development, for an error object
      that has one. */
  lemma StackOnlyInDevelopment(nodeEnv: Option<string>, error: ErrorValue, status: int)
    ensures "stack" in BodyKeys(ErrorResponse(nodeEnv, error, status)) <==>
            IsDevelopment(nodeEnv) && error.Failure? && error.stack.Some?
  {
  }

  lemma DefaultsOfEnvelopes(data: Json, nodeEnv: Option<string>, error: ErrorValue)
    ensures SuccessResponse(data).status == 200 && BodyField(SuccessResponse(data), "message") == Some(Str("Success"))
    ensures ErrorResponse(nodeEnv, error).status == 400
  {
  }
}
