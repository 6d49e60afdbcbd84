/** `setCorsHeaders`: every response gets the allowed methods and headers,
    credentials and the preflight cache age; the request's origin is echoed
    back only when it is on the list for the environment; an OPTIONS
    preflight is answered 200 with no body and ends the request. */
module Cors {
  import opened Wrappers
  import opened Text
  import opened Http

  predicate IsProduction(nodeEnv: Option<string>) { nodeEnv == Some("production") }

  function AllowedOrigins(nodeEnv: Option<string>): seq<string> {
    if IsProduction(nodeEnv) then ["https://your-portfolio-domain.com", "https://www.your-portfolio-domain.com"]
    else ["http://localhost:3000", "http://localhost:5173", "http://localhost:5174"]
  }

  const Methods: seq<string> := ["GET", "POST", "PUT", "PATCH", "DELETE", "OPTIONS"]
  const AllowedHeaders: seq<string> := ["Content-Type", "Authorization"]
  /** Preflight results are cached for 24 hours. */
  const MaxAgeSeconds: nat := 86400

  /** `corsConfig.origin.includes(origin)`; an absent origin is never listed. */
  predicate OriginAllowed(origin: Option<string>, nodeEnv: Option<string>) {
    origin.Some? && origin.value in AllowedOrigins(nodeEnv)
  }

  /** `headers` after the call's `setHeader`s, in the order it makes them. */
  function WithCorsHeaders(headers: map<string, string>, origin: Option<string>, nodeEnv: Option<string>): map<string, string> {
    var h := if OriginAllowed(origin, nodeEnv) then headers["Access-Control-Allow-Origin" := origin.value] else headers;
    h["Access-Control-Allow-Methods" := Join(Methods, ", ")]
     ["Access-Control-Allow-Headers" := Join(AllowedHeaders, ", ")]
     ["Access-Control-Allow-Credentials" := "true"]
     ["Access-Control-Max-Age" := NatToString(MaxAgeSeconds)]
  }

  /** The headers the call sets, by name. */
  function CorsHeaders(origin: Option<string>, nodeEnv: Option<string>): map<string, string> {
    WithCorsHeaders(map[], origin, nodeEnv)
  }

  lemma JoinPair(a: string, b: string, sep: string)
    ensures Join([a, b], sep) == a + sep + b
  {
    assert [a, b][1..] == [b];
  }

  lemma JoinCons(a: string, rest: seq<string>, sep: string)
    requires |rest| >= 1
    ensures Join([a] + rest, sep) == a + sep + Join(rest, sep)
  {
    assert ([a] + rest)[1..] == rest;
  }

  // The header value, one list element at a time: each step joins an
  // element onto the text of the rest, and the literal it gives is checked
  // on its own.

  lemma MethodsFromPatch()
    ensures Join(Methods[3..], ", ") == "PATCH, DELETE, OPTIONS"
  {
    assert Methods[3..] == ["PATCH"] + ["DELETE", "OPTIONS"];
    JoinPair("DELETE", "OPTIONS", ", ");
    JoinCons("PATCH", ["DELETE", "OPTIONS"], ", ");
  }

  lemma PutJoined()
    ensures "PUT" + ", " + "PATCH, DELETE, OPTIONS" == "PUT, PATCH, DELETE, OPTIONS"
  {
  }

  lemma PostJoined()
    ensures "POST" + ", " + "PUT, PATCH, DELETE, OPTIONS" == "POST, PUT, PATCH, DELETE, OPTIONS"
  {
  }

  lemma GetJoined()
    ensures "GET" + ", " + "POST, PUT, PATCH, DELETE, OPTIONS" == "GET, POST, PUT, PATCH, DELETE, OPTIONS"
  {
  }

  lemma MethodsFromPut()
    ensures Join(Methods[2..], ", ") == "PUT, PATCH, DELETE, OPTIONS"
  {
    assert Methods[2..] == ["PUT"] + Methods[3..];
    MethodsFromPatch();
    JoinCons("PUT", Methods[3..], ", ");
    PutJoined();
  }

  lemma MethodsFromPost()
    ensures Join(Methods[1..], ", ") == "POST, PUT, PATCH, DELETE, OPTIONS"
  {
    assert Methods[1..] == ["POST"] + Methods[2..];
    MethodsFromPut();
    JoinCons("POST", Methods[2..], ", ");
    PostJoined();
  }

  lemma MethodsHeaderValue()
    ensures Join(Methods, ", ") == "GET, POST, PUT, PATCH, DELETE, OPTIONS"
  {
    assert Methods == ["GET"] + Methods[1..];
    MethodsFromPost();
    JoinCons("GET", Methods[1..], ", ");
    GetJoined();
  }

  lemma MaxAgeHeaderValue()
    ensures NatToString(MaxAgeSeconds) == "86400"
  {
    assert NatToString(8) == "8";
    assert NatToString(86) == "86";
    assert NatToString(864) == "864";
    assert NatToString(8640) == "8640";
  }

  /** The header values as a browser reads them. */
  lemma CorsHeaderValues(origin: Option<string>, nodeEnv: Option<string>)
    ensures var h := CorsHeaders(origin, nodeEnv);
            && h["Access-Control-Allow-Methods"] == "GET, POST, PUT, PATCH, DELETE, OPTIONS"
            && h["Access-Control-Allow-Headers"] == "Content-Type, Authorization"
            && h["Access-Control-Allow-Credentials"] == "true"
            && h["Access-Control-Max-Age"] == "86400"
  {
    MethodsHeaderValue();
    MaxAgeHeaderValue();
    HeadersHeaderValue();
    DistinctHeaderNames();
  }

  lemma HeadersJoined()
    ensures "Content-Type" + ", " + "Authorization" == "Content-Type, Authorization"
  {
  }

  lemma HeadersHeaderValue()
    ensures Join(AllowedHeaders, ", ") == "Content-Type, Authorization"
  {
    JoinPair("Content-Type", "Authorization", ", ");
    HeadersJoined();
  }

  /** The names the call sets differ from each other, so no `setHeader`
      overwrites another. */
  lemma DistinctHeaderNames()
    ensures "Access-Control-Allow-Methods" != "Access-Control-Allow-Headers"
    ensures "Access-Control-Allow-Methods" != "Access-Control-Allow-Credentials"
    ensures "Access-Control-Allow-Methods" != "Access-Control-Max-Age"
    ensures "Access-Control-Allow-Headers" != "Access-Control-Allow-Credentials"
    ensures "Access-Control-Allow-Headers" != "Access-Control-Max-Age"
    ensures "Access-Control-Allow-Credentials" != "Access-Control-Max-Age"
  {
    assert "Access-Control-Allow-Methods"[21] != "Access-Control-Allow-Headers"[21];
    assert |"Access-Control-Allow-Methods"| != |"Access-Control-Allow-Credentials"|;
    assert |"Access-Control-Allow-Methods"| != |"Access-Control-Max-Age"|;
    assert |"Access-Control-Allow-Headers"| != |"Access-Control-Allow-Credentials"|;
    assert |"Access-Control-Allow-Headers"| != |"Access-Control-Max-Age"|;
    assert |"Access-Control-Allow-Credentials"| != |"Access-Control-Max-Age"|;
  }

  /** The origin is echoed exactly when it is listed, and then unchanged; a
      production deployment never admits a localhost origin. */
  lemma AllowOriginOnlyWhenListed(origin: Option<string>, nodeEnv: Option<string>)
    ensures "Access-Control-Allow-Origin" in CorsHeaders(origin, nodeEnv) <==> OriginAllowed(origin, nodeEnv)
    ensures OriginAllowed(origin, nodeEnv) ==> CorsHeaders(origin, nodeEnv)["Access-Control-Allow-Origin"] == origin.value
    ensures IsProduction(nodeEnv) ==> !OriginAllowed(Some("http://localhost:5173"), nodeEnv)
  {
  }

  /** Sets the headers on `res`; true, with the response ended at 200, for
      a preflight, when the handler returns at once. */
  method SetCorsHeaders(req: Request, res: ServerResponse, nodeEnv: Option<string>) returns (handled: bool)
    modifies res
    ensures handled <==> req.verb == "OPTIONS"
    ensures res.headers == WithCorsHeaders(old(res.headers), req.origin, nodeEnv)
    ensures res.body == old(res.body)
    ensures handled ==> res.status == 200 && res.ended
    ensures !handled ==> res.status == old(res.status) && res.ended == old(res.ended)
  {
    if OriginAllowed(req.origin, nodeEnv) {
      res.SetHeader("Access-Control-Allow-Origin", req.origin.value);
    }
    res.SetHeader("Access-Control-Allow-Methods", Join(Methods, ", "));
    res.SetHeader("Access-Control-Allow-Headers", Join(AllowedHeaders, ", "));
    res.SetHeader("Access-Control-Allow-Credentials", "true");
    res.SetHeader("Access-Control-Max-Age", NatToString(MaxAgeSeconds));
    if req.verb == "OPTIONS" {
      res.EndWith(200);
      return true;
    }
    return false;
  }
}
