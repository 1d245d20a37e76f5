/**
 * What a resource function sends and what it gets back. The transport (an
 * axios client) is not modelled: each call's outcome is an input. A call
 * either completes, giving the axios response object (`data` is the body,
 * plus `status`, `statusText` and `headers`), or fails, giving the thrown
 * value (for axios, an error object whose `response` holds the server's reply
 * when there was one). Failed calls have already passed the client's response
 * interceptor, which re-throws the same value (see Api.Session.OnResponseError).
 */
module Http {
  import opened Js

  datatype Verb = GET | POST | PUT | DELETE

  /** One request: verb, path, query parameters (`params`) and JSON body; JUndef for none. */
  datatype Request = Request(verb: Verb, path: string, params: Value, body: Value)

  datatype Outcome = Completed(response: Value) | Failed(thrown: Value)

  /** A resource function's run: the request it sent, if it got that far, and how it settled. */
  datatype Call = Call(request: Option<Request>, result: Completion<Value>)

  /** The axios response object for a reply with the given status, content type and body. */
  function Response(status: int, contentType: string, body: Value): Value
  {
    JObj(["data", "status", "statusText", "headers"],
         map["data" := body, "status" := JNum(status), "statusText" := JStr(""),
             "headers" := JObj(["content-type"], map["content-type" := JStr(contentType)])])
  }

  /** The error axios throws: `message`, and `response` (JUndef when nothing came back). */
  function AxiosError(message: string, response: Value): Value
  {
    JObj([], map["name" := JStr("AxiosError"), "message" := JStr(message), "response" := response])
  }

  /** `request?.data`: the body of a completed call. */
  function Body(response: Value): Value
  {
    Get(response, "data")
  }

  /** `error?.response?.data?.message` */
  function ServerMessage(e: Value): Value
  {
    Get(Get(Get(e, "response"), "data"), "message")
  }

  /** `error?.response?.data?.errors`: the server's field-level validation errors. */
  function ServerErrors(e: Value): Value
  {
    Get(Get(Get(e, "response"), "data"), "errors")
  }

  /** `error?.response?.status` */
  function Status(e: Value): Value
  {
    Get(Get(e, "response"), "status")
  }

  /** The request was sent with this verb, path and exactly these query parameters. */
  ghost predicate SendsQuery(c: Call, verb: Verb, path: string, ks: seq<string>, vs: seq<Value>)
  {
    && c.request.Some?
    && c.request.value.verb == verb
    && c.request.value.path == path
    && ObjectIs(c.request.value.params, ks, vs)
  }

  /** The query parameters `{ k1: v1, ..., kn: vn }` of a GET request, as an object literal. */
  function Query(ks: seq<string>, vs: seq<Value>): (q: Value)
    requires |ks| == |vs| && DistinctKeys(ks)
    ensures ObjectIs(q, ks, vs)
  {
    JObj(ks, map i | 0 <= i < |ks| :: ks[i] := vs[i])
  }

  /** The request was sent with this verb and path, and with neither query parameters nor a body. */
  ghost predicate SendsOnly(c: Call, verb: Verb, path: string)
  {
    c.request == Some(Request(verb, path, JUndef, JUndef))
  }

  /** The request was sent with this verb, path and body, and no query parameters. */
  ghost predicate SendsBody(c: Call, verb: Verb, path: string, body: Value)
  {
    && c.request.Some?
    && c.request.value.verb == verb
    && c.request.value.path == path
    && c.request.value.params == JUndef
    && c.request.value.body == body
  }
}
