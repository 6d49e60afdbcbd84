/** What a serverless handler sees of a request, and the response object it
    writes to. Header values are strings as Node delivers them, `None` when
    the header is absent; the body is the parsed JSON. */
module Http {
  import opened Wrappers
  import opened Json
  import opened Envelope

  datatype Request = Request(
    verb: string,
    origin: Option<string>,
    authorization: Option<string>,
    forwardedFor: Option<string>,
    remoteAddress: Option<string>,
    query: map<string, string>,
    body: Json)

  /** `res`: the headers set so far, the status, the JSON body once sent,
      and whether the response has been finished. */
  class ServerResponse {
    var headers: map<string, string>
    var status: int
    var body: Option<Json>
    var ended: bool

    /** Node starts every response with status 200, no headers and no body. */
    constructor ()
      ensures headers == map[] && status == 200 && body == None && !ended
    {
      headers := map[];
      status := 200;
      body := None;
      ended := false;
    }

    /** `res.setHeader(name, value)` */
    method SetHeader(name: string, value: string)
      modifies this
      ensures headers == old(headers)[name := value]
      ensures status == old(status) && body == old(body) && ended == old(ended)
    {
      headers := headers[name := value];
    }

    /** `res.status(s).end()` */
    method EndWith(s: int)
      modifies this
      ensures status == s && ended && headers == old(headers) && body == old(body)
    {
      status := s;
      ended := true;
    }

    /** `res.status(r.status).json(r.body)` */
    method Send(r: Reply)
      modifies this
      ensures status == r.status && body == Some(r.body) && ended && headers == old(headers)
    {
      status := r.status;
      body := Some(r.body);
      ended := true;
    }

    /** The reply this response carries, once one was sent. */
    function Sent(): Option<Reply>
      reads this
    {
      if body.Some? then Some(Reply(status, body.value)) else None
    }
  }
}
