/**
 * The calling conventions that the resource modules repeat. Each convention is
 * written once, as the function a module's exported function applies to the
 * outcome of its call, and its ensures clause ties the result to a declarative
 * description (`Is...`) of what the convention promises.
 *
 * Every module file repeats the same try/catch shapes; the differences between
 * them (which key set the result has, whether `?.` or `.` is used, what the
 * fallback chain is) are what separates the conventions below.
 */
module Envelopes {
  import opened Js
  import opened Http

  const ENVELOPE_KEYS: seq<string> := ["success", "message", "data", "meta"]

  /** `r` has exactly the enumerable keys `ks`, in that order, each copied from `body`. */
  ghost predicate Copies(r: Value, body: Value, ks: seq<string>)
  {
    && r.JObj?
    && r.keys == ks
    && (forall k :: k in r.fields <==> k in ks)
    && (forall k :: k in ks ==> Get(r, k) == Get(body, k))
  }

  /** The message is the server's, else the thrown value itself, else the fallback. */
  ghost predicate ServerThenThrown(e: Value, fallback: string, m: Value)
  {
    && (Truthy(ServerMessage(e)) ==> m == ServerMessage(e))
    && (!Truthy(ServerMessage(e)) && Truthy(e) ==> m == e)
    && (!Truthy(ServerMessage(e)) && !Truthy(e) ==> m == JStr(fallback))
  }

  /** The message is the server's, else the thrown value's `message`, else the fallback. */
  ghost predicate ServerThenErrorMessage(e: Value, fallback: string, m: Value)
  {
    && (Truthy(ServerMessage(e)) ==> m == ServerMessage(e))
    && (!Truthy(ServerMessage(e)) && Truthy(Get(e, "message")) ==> m == Get(e, "message"))
    && (!Truthy(ServerMessage(e)) && !Truthy(Get(e, "message")) ==> m == JStr(fallback))
  }

  /** The message is the server's, else the fallback. */
  ghost predicate ServerThenFallback(e: Value, fallback: string, m: Value)
  {
    && (Truthy(ServerMessage(e)) ==> m == ServerMessage(e))
    && (!Truthy(ServerMessage(e)) ==> m == JStr(fallback))
  }

  // ---------------------------------------------------------------------------
  // List envelope: `{ success, message, data, meta }`, never throws.

  ghost predicate IsListEnvelope(o: Outcome, fallback: string, r: Value)
  {
    match o
    case Completed(resp) => Copies(r, Body(resp), ENVELOPE_KEYS)
    case Failed(e) =>
      && ObjectIs(r, ENVELOPE_KEYS, [JBool(false), Get(r, "message"), JNull, JNull])
      && ServerThenThrown(e, fallback, Get(r, "message"))
  }

  /**
   * The collection fetchers: on completion the four body fields are copied
   * (a missing one reads as undefined); on failure `success` is false, `data`
   * and `meta` keep their initial null, and the message falls back from the
   * server's to the thrown value itself, reaching the literal only when the
   * thrown value is falsy.
   */
  function ListEnvelope(o: Outcome, fallback: string): (r: Value)
    ensures IsListEnvelope(o, fallback, r)
  {
    match o
    case Completed(resp) =>
      var body := Body(resp);
      JObj(ENVELOPE_KEYS, map["success" := Get(body, "success"), "message" := Get(body, "message"),
                             "data" := Get(body, "data"), "meta" := Get(body, "meta")])
    case Failed(e) =>
      JObj(ENVELOPE_KEYS, map["success" := JBool(false), "message" := Or(Or(ServerMessage(e), e), JStr(fallback)),
                             "data" := JNull, "meta" := JNull])
  }

  /** An axios error without a server message yields the error object itself as the message. */
  lemma ListFailureMessageIsTheError(message: string, response: Value, fallback: string)
    requires !Truthy(ServerMessage(AxiosError(message, response)))
    ensures var r := ListEnvelope(Failed(AxiosError(message, response)), fallback);
            Get(r, "message") == AxiosError(message, response) && !Get(r, "message").JStr?
  {
  }

  /** The fallback literal is the message exactly when neither the server nor the thrown value is truthy. */
  lemma ListFallbackOnlyForFalsyThrow(e: Value, fallback: string)
    requires fallback != ""
    ensures var m := Get(ListEnvelope(Failed(e), fallback), "message");
            Truthy(m) && (m == JStr(fallback) <== !Truthy(ServerMessage(e)) && !Truthy(e))
            && (Truthy(e) && m == JStr(fallback) ==> ServerMessage(e) == JStr(fallback) || e == JStr(fallback))
  {
  }

  // ---------------------------------------------------------------------------
  // Update envelope: `{ success, message, data }`, never throws.

  ghost predicate IsUpdateEnvelope(o: Outcome, fallback: string, r: Value)
  {
    match o
    case Completed(resp) => Copies(r, Body(resp), ["success", "message", "data"])
    case Failed(e) =>
      && ObjectIs(r, ["success", "message", "data"], [JBool(false), Get(r, "message"), JNull])
      && ServerThenErrorMessage(e, fallback, Get(r, "message"))
  }

  /** updateVehicle / updateProduct / the consumption report: falls back to `error?.message`, then the literal. */
  function UpdateEnvelope(o: Outcome, fallback: string): (r: Value)
    ensures IsUpdateEnvelope(o, fallback, r)
  {
    match o
    case Completed(resp) =>
      var body := Body(resp);
      JObj(["success", "message", "data"],
           map["success" := Get(body, "success"), "message" := Get(body, "message"), "data" := Get(body, "data")])
    case Failed(e) =>
      JObj(["success", "message", "data"],
           map["success" := JBool(false), "message" := Or(Or(ServerMessage(e), Get(e, "message")), JStr(fallback)),
               "data" := JNull])
  }

  // ---------------------------------------------------------------------------
  // Plain and create envelopes: `{ success, data, message, meta }` on completion.

  const CREATED_KEYS: seq<string> := ["success", "data", "message", "meta"]

  ghost predicate IsPlainEnvelope(o: Outcome, fallback: string, r: Value)
  {
    match o
    case Completed(resp) => Copies(r, Body(resp), CREATED_KEYS)
    case Failed(e) =>
      && ObjectIs(r, ENVELOPE_KEYS, [JBool(false), Get(r, "message"), JNull, JNull])
      && ServerThenFallback(e, fallback, Get(r, "message"))
  }

  /** fetchNextProductCode: every access optional, so it never throws; `data` and `meta` are null on failure. */
  function PlainEnvelope(o: Outcome, fallback: string): (r: Value)
    ensures IsPlainEnvelope(o, fallback, r)
  {
    match o
    case Completed(resp) =>
      var body := Body(resp);
      JObj(CREATED_KEYS, map["success" := Get(body, "success"), "data" := Get(body, "data"),
                            "message" := Get(body, "message"), "meta" := Get(body, "meta")])
    case Failed(e) =>
      JObj(ENVELOPE_KEYS, map["success" := JBool(false), "message" := Or(ServerMessage(e), JStr(fallback)),
                             "data" := JNull, "meta" := JNull])
  }

  ghost predicate IsCreateEnvelope(o: Outcome, fallback: string, r: Completion<Value>)
  {
    match o
    case Completed(resp) => r.Normal? && Copies(r.value, Body(resp), CREATED_KEYS)
    case Failed(e) =>
      && (Nullish(e) <==> r.Throw?)
      && (Nullish(e) ==> r == Throw(TYPE_ERROR))
      && (!Nullish(e) ==>
            && ObjectIs(r.value, ENVELOPE_KEYS, [JBool(false), Get(r.value, "message"), Or(ServerErrors(e), JNull), JNull])
            && ServerThenFallback(e, fallback, Get(r.value, "message")))
  }

  /**
   * submitCategory / submitSubcategory / submitProduct: on failure the server's
   * validation errors (or null) come back as `data`. `error.response` is read
   * without `?.`, so a nullish thrown value makes the handler itself throw.
   */
  function CreateEnvelope(o: Outcome, fallback: string): (r: Completion<Value>)
    ensures IsCreateEnvelope(o, fallback, r)
  {
    match o
    case Completed(resp) =>
      var body := Body(resp);
      Normal(JObj(CREATED_KEYS, map["success" := Get(body, "success"), "data" := Get(body, "data"),
                                   "message" := Get(body, "message"), "meta" := Get(body, "meta")]))
    case Failed(e) =>
      var message := Or(ServerMessage(e), JStr(fallback));
      match Dot(e, "response")
      case Throw(t) => Throw(t)
      case Normal(response) =>
        Normal(JObj(ENVELOPE_KEYS, map["success" := JBool(false), "message" := message,
                                      "data" := Or(Get(Get(response, "data"), "errors"), JNull), "meta" := JNull]))
  }

  // ---------------------------------------------------------------------------
  // Delete envelope: `{ success, message, data }`, and no `data` key on failure.

  ghost predicate IsDeleteEnvelope(o: Outcome, fallback: string, r: Value)
  {
    match o
    case Completed(resp) => Copies(r, Body(resp), ["success", "message", "data"])
    case Failed(e) =>
      && ObjectIs(r, ["success", "message"], [JBool(false), Get(r, "message")])
      && ServerThenFallback(e, fallback, Get(r, "message"))
  }

  function DeleteEnvelope(o: Outcome, fallback: string): (r: Value)
    ensures IsDeleteEnvelope(o, fallback, r)
  {
    match o
    case Completed(resp) =>
      var body := Body(resp);
      JObj(["success", "message", "data"],
           map["success" := Get(body, "success"), "message" := Get(body, "message"), "data" := Get(body, "data")])
    case Failed(e) =>
      JObj(["success", "message"], map["success" := JBool(false), "message" := Or(ServerMessage(e), JStr(fallback))])
  }

  // ---------------------------------------------------------------------------
  // Form conventions: `const { data } = await $axios...` and `data.success`.

  /** The body of a completed call that `const { data } = response; data.x` can read without throwing. */
  predicate ReadableBody(resp: Value)
  {
    !Nullish(resp) && !Nullish(Body(resp))
  }

  /** `{ success: data.success, data: data.data }`, or the TypeError raised reading it. */
  function FormSuccess(resp: Value): (r: Completion<Value>)
    ensures ReadableBody(resp) <==> r.Normal?
    ensures ReadableBody(resp) ==> Copies(r.value, Body(resp), ["success", "data"])
    ensures !ReadableBody(resp) ==> r == Throw(TYPE_ERROR)
  {
    match Dot(resp, "data")
    case Throw(t) => Throw(t)
    case Normal(body) =>
      match Dot(body, "success")
      case Throw(t) => Throw(t)
      case Normal(success) => Normal(JObj(["success", "data"], map["success" := success, "data" := Get(body, "data")]))
  }

  ghost predicate IsFormFetch(o: Outcome, r: Completion<Value>)
  {
    var e := if o.Failed? then o.thrown else TYPE_ERROR;
    && (o.Completed? && ReadableBody(o.response) ==> r.Normal? && Copies(r.value, Body(o.response), ["success", "data"]))
    && (o.Failed? && Nullish(e) ==> r == Throw(TYPE_ERROR))
    && ((o.Failed? && !Nullish(e)) || (o.Completed? && !ReadableBody(o.response)) ==>
          && r.Normal?
          && ObjectIs(r.value, ["success", "message"], [JBool(false), Or(ServerMessage(e), Get(e, "message"))]))
  }

  /**
   * The by-id fetchers of the form modules: `{ success, data }` from the body;
   * on failure `{ success: false, message }` with the server's message, else
   * `e.message` (which can be undefined), and no `data` key.
   */
  function FormFetch(o: Outcome): (r: Completion<Value>)
    ensures IsFormFetch(o, r)
  {
    var attempt := if o.Completed? then FormSuccess(o.response) else Throw(o.thrown);
    match attempt
    case Normal(v) => Normal(v)
    case Throw(e) =>
      match Dot(e, "response")
      case Throw(t) => Throw(t)
      case Normal(_) =>
        Normal(JObj(["success", "message"],
                    map["success" := JBool(false), "message" := Or(ServerMessage(e), Get(e, "message"))]))
  }

  ghost predicate IsNamesFetch(o: Outcome, fallback: string, r: Value)
  {
    && (o.Completed? && ReadableBody(o.response) ==>
          ObjectIs(r, ["success", "data"], [JBool(true), Get(Body(o.response), "data")]))
    && (o.Failed? || !ReadableBody(o.response) ==>
          ObjectIs(r, ["success", "message"], [JBool(false), JStr(fallback)]))
  }

  /** The name-list fetchers of the form modules: `success` is true on any readable reply, whatever the body says. */
  function NamesFetch(o: Outcome, fallback: string): (r: Value)
    ensures IsNamesFetch(o, fallback, r)
  {
    var failure := JObj(["success", "message"], map["success" := JBool(false), "message" := JStr(fallback)]);
    match o
    case Failed(_) => failure
    case Completed(resp) =>
      match Dot(resp, "data")
      case Throw(_) => failure
      case Normal(body) =>
        match Dot(body, "data")
        case Throw(_) => failure
        case Normal(data) => JObj(["success", "data"], map["success" := JBool(true), "data" := data])
  }

  /** The thrown value's server reply, when `catch ({ response })` then `response.data` can be read. */
  predicate HasReplyBody(e: Value)
  {
    !Nullish(e) && !Nullish(Get(e, "response")) && !Nullish(Get(Get(e, "response"), "data"))
  }

  ghost predicate IsFormSubmit(o: Outcome, r: Completion<Value>)
  {
    var e := if o.Failed? then o.thrown else TYPE_ERROR;
    var reply := Get(Get(e, "response"), "data");
    && (o.Completed? && ReadableBody(o.response) ==> r.Normal? && Copies(r.value, Body(o.response), ["success", "data"]))
    && ((o.Failed? || !ReadableBody(o.response)) && HasReplyBody(e) ==>
          r.Normal? && ObjectIs(r.value, ["success", "message", "data"],
                                [JBool(false), Get(reply, "message"), Get(reply, "errors")]))
    && ((o.Failed? || !ReadableBody(o.response)) && !HasReplyBody(e) ==> r == Throw(TYPE_ERROR))
  }

  /**
   * The create/update functions of the form modules: on failure
   * `{ success: false, message: response.data.message, data: response.data.errors }`,
   * read without `?.`, so a failure with no server reply throws a TypeError
   * instead of returning an envelope.
   */
  function FormSubmit(o: Outcome): (r: Completion<Value>)
    ensures IsFormSubmit(o, r)
  {
    var attempt := if o.Completed? then FormSuccess(o.response) else Throw(o.thrown);
    match attempt
    case Normal(v) => Normal(v)
    case Throw(e) =>
      match Dot(e, "response")
      case Throw(t) => Throw(t)
      case Normal(response) =>
        match Dot(response, "data")
        case Throw(t) => Throw(t)
        case Normal(reply) =>
          match Dot(reply, "message")
          case Throw(t) => Throw(t)
          case Normal(message) =>
            Normal(JObj(["success", "message", "data"],
                        map["success" := JBool(false), "message" := message, "data" := Get(reply, "errors")]))
  }

  ghost predicate IsFormDelete(o: Outcome, r: Completion<Value>)
  {
    var e := if o.Failed? then o.thrown else TYPE_ERROR;
    && (o.Completed? && ReadableBody(o.response) ==> r.Normal? && Copies(r.value, Body(o.response), ["success", "message"]))
    && ((o.Failed? || !ReadableBody(o.response)) && HasReplyBody(e) ==>
          r.Normal? && ObjectIs(r.value, ["success", "message"], [JBool(false), ServerMessage(e)]))
    && ((o.Failed? || !ReadableBody(o.response)) && !HasReplyBody(e) ==> r == Throw(TYPE_ERROR))
  }

  /** The delete functions of the form modules: only `{ success, message }`, on both paths. */
  function FormDelete(o: Outcome): (r: Completion<Value>)
    ensures IsFormDelete(o, r)
  {
    var attempt :=
      if o.Completed? then
        match Dot(o.response, "data")
        case Throw(t) => Throw(t)
        case Normal(body) =>
          match Dot(body, "success")
          case Throw(t) => Throw(t)
          case Normal(success) => Normal(JObj(["success", "message"], map["success" := success, "message" := Get(body, "message")]))
      else Throw(o.thrown);
    match attempt
    case Normal(v) => Normal(v)
    case Throw(e) =>
      match Dot(e, "response")
      case Throw(t) => Throw(t)
      case Normal(response) =>
        match Dot(response, "data")
        case Throw(t) => Throw(t)
        case Normal(reply) =>
          match Dot(reply, "message")
          case Throw(t) => Throw(t)
          case Normal(message) => Normal(JObj(["success", "message"], map["success" := JBool(false), "message" := message]))
  }

  ghost predicate IsTolerantSubmit(o: Outcome, fallback: string, r: Completion<Value>)
  {
    var e := if o.Failed? then o.thrown else TYPE_ERROR;
    && (o.Completed? && ReadableBody(o.response) ==> r.Normal? && Copies(r.value, Body(o.response), ["success", "data"]))
    && (o.Failed? && Nullish(e) ==> r == Throw(TYPE_ERROR))
    && ((o.Failed? && !Nullish(e)) || (o.Completed? && !ReadableBody(o.response)) ==>
          && r.Normal?
          && ObjectIs(r.value, ["success", "message"], [JBool(false), Get(r.value, "message")])
          && ServerThenFallback(e, fallback, Get(r.value, "message")))
  }

  /** submitCargaCombustible / submitRetiroCombustible: `response?.data?.message || fallback`, so no reply is needed. */
  function TolerantSubmit(o: Outcome, fallback: string): (r: Completion<Value>)
    ensures IsTolerantSubmit(o, fallback, r)
  {
    var attempt := if o.Completed? then FormSuccess(o.response) else Throw(o.thrown);
    match attempt
    case Normal(v) => Normal(v)
    case Throw(e) =>
      match Dot(e, "response")
      case Throw(t) => Throw(t)
      case Normal(response) =>
        Normal(JObj(["success", "message"],
                    map["success" := JBool(false), "message" := Or(Get(Get(response, "data"), "message"), JStr(fallback))]))
  }

  // ---------------------------------------------------------------------------
  // Throw style: return part of the body, or throw `new Error(message)`.

  /** Where a throw-style function finds its result in the body. */
  datatype Pick = WholeBody | BodyField(key: string)

  function Picked(resp: Value, pick: Pick): Completion<Value>
  {
    match Dot(resp, "data")
    case Throw(t) => Throw(t)
    case Normal(body) =>
      match pick
      case WholeBody => Normal(body)
      case BodyField(k) => Dot(body, k)
  }

  ghost predicate IsThrowStyle(o: Outcome, pick: Pick, fallback: string, r: Completion<Value>)
  {
    var e := if o.Failed? then o.thrown else JUndef;
    && (o.Completed? && Picked(o.response, pick).Normal? ==> r == Picked(o.response, pick))
    && (o.Completed? && Picked(o.response, pick).Throw? ==> r == Throw(NewError(JStr(fallback))))
    && (o.Failed? && Nullish(e) ==> r == Throw(TYPE_ERROR))
    && (o.Failed? && !Nullish(e) ==> r == Throw(NewError(Or(ServerMessage(e), JStr(fallback)))))
  }

  /**
   * The throw-style functions: the picked part of the body on success; on any
   * failure, an Error whose message is the server's message if truthy, else
   * the fallback. A malformed reply (no body to read) also ends in the fallback.
   */
  function ThrowStyle(o: Outcome, pick: Pick, fallback: string): (r: Completion<Value>)
    ensures IsThrowStyle(o, pick, fallback, r)
  {
    var attempt := if o.Completed? then Picked(o.response, pick) else Throw(o.thrown);
    assert o.Completed? && attempt.Throw? ==> attempt.exception == TYPE_ERROR;
    match attempt
    case Normal(v) => Normal(v)
    case Throw(e) =>
      match Dot(e, "response")
      case Throw(t) => Throw(t)
      case Normal(response) => Throw(NewError(Or(Get(Get(response, "data"), "message"), JStr(fallback))))
  }

  /** Every failure of a throw-style function is thrown, never returned, and a defined thrown value gives an Error. */
  lemma ThrowStyleFailureThrows(e: Value, pick: Pick, fallback: string)
    requires !Nullish(e)
    ensures var r := ThrowStyle(Failed(e), pick, fallback);
            r.Throw? && Get(r.exception, "name") == JStr("Error")
            && Get(r.exception, "message") == JStr(ToString(Or(ServerMessage(e), JStr(fallback))))
  {
  }

  // ---------------------------------------------------------------------------
  // PDF export: success is decided by the reply's content type.

  // `readJson(x)` stands for `JSON.parse(await new Response(x).text())` on a reply body `x`.

  const PDF_OK := "PDF generado con éxito."
  const PDF_UNKNOWN := "Error desconocido al generar el PDF."
  const PDF_SERVER := "Error del servidor al generar el PDF."
  const PDF_NETWORK := "Error de red al generar el PDF."
  const PDF_UNEXPECTED := "Ocurrió un error inesperado al generar el PDF."

  /** `response.headers['content-type']` could be read and is exactly `application/pdf`. */
  predicate IsPdfReply(resp: Value)
  {
    !Nullish(resp) && !Nullish(Get(resp, "headers")) && Get(Get(resp, "headers"), "content-type") == JStr("application/pdf")
  }

  /** The message the catch block derives from a thrown value `e` that is not nullish. */
  ghost predicate PdfCatchMessage(e: Value, readJson: Value -> Parsed, m: Value)
  {
    var response := Get(e, "response");
    var replyBody := Get(response, "data");
    && (!(Truthy(response) && Truthy(replyBody)) ==> m == Or(Get(e, "message"), JStr(PDF_UNEXPECTED)))
    && (Truthy(response) && Truthy(replyBody) ==>
          match readJson(replyBody)
          case Parsed(j) =>
            (!Nullish(j) ==> m == Or(Or(Get(j, "message"), Get(j, "error")), JStr(PDF_SERVER)))
            && (Nullish(j) ==> m == Or(Get(response, "statusText"), JStr(PDF_NETWORK)))
          case Unparsable(_) => m == Or(Get(response, "statusText"), JStr(PDF_NETWORK)))
  }

  ghost predicate IsPdfExport(o: Outcome, readJson: Value -> Parsed, r: Completion<Value>)
  {
    && (o.Completed? && IsPdfReply(o.response) ==>
          r == Normal(JObj(["success", "message", "file"],
                           map["success" := JBool(true), "message" := JStr(PDF_OK), "file" := Body(o.response)])))
    && (r.Normal? ==> r.value.JObj? && r.value.keys == ["success", "message", "file"])
    && (r.Normal? && Get(r.value, "success") == JBool(true) ==> o.Completed? && IsPdfReply(o.response))
    && (r.Normal? && !(o.Completed? && IsPdfReply(o.response)) ==>
          Get(r.value, "success") == JBool(false) && Get(r.value, "file") == JNull)
    && (o.Completed? && !IsPdfReply(o.response) && !Nullish(o.response) && !Nullish(Get(o.response, "headers"))
        && readJson(Body(o.response)).Parsed? && !Nullish(readJson(Body(o.response)).value) ==>
          r.Normal? && Get(r.value, "message") == Or(Get(readJson(Body(o.response)).value, "message"), JStr(PDF_UNKNOWN)))
    && (o.Completed? && (Nullish(o.response) || Nullish(Get(o.response, "headers"))) ==>
          r == PdfCatch(TYPE_ERROR, readJson))
    && (o.Completed? && !IsPdfReply(o.response) && !Nullish(o.response) && !Nullish(Get(o.response, "headers"))
        && readJson(Body(o.response)).Parsed? && Nullish(readJson(Body(o.response)).value) ==>
          r == PdfCatch(TYPE_ERROR, readJson))
    && (o.Completed? && !IsPdfReply(o.response) && !Nullish(o.response) && !Nullish(Get(o.response, "headers"))
        && readJson(Body(o.response)).Unparsable? ==>
          r == PdfCatch(readJson(Body(o.response)).error, readJson))
    && (o.Failed? && Nullish(o.thrown) ==> r == Throw(TYPE_ERROR))
    && (o.Failed? && !Nullish(o.thrown) ==> r.Normal? && PdfCatchMessage(o.thrown, readJson, Get(r.value, "message")))
  }

  function PdfFailure(message: Value): Value
  {
    JObj(["success", "message", "file"], map["success" := JBool(false), "message" := message, "file" := JNull])
  }

  /** The catch block of both PDF exports, for the thrown value `e`. */
  function PdfCatch(e: Value, readJson: Value -> Parsed): (r: Completion<Value>)
    ensures Nullish(e) ==> r == Throw(TYPE_ERROR)
    ensures !Nullish(e) ==> r.Normal? && r.value == PdfFailure(Get(r.value, "message"))
                            && PdfCatchMessage(e, readJson, Get(r.value, "message"))
  {
    match Dot(e, "response")
    case Throw(t) => Throw(t)
    case Normal(response) =>
      if Truthy(response) && Truthy(Get(response, "data")) then
        var fromReply :=
          match readJson(Get(response, "data"))
          case Parsed(j) =>
            (match Dot(j, "message")
             case Throw(_) => Or(Get(response, "statusText"), JStr(PDF_NETWORK))
             case Normal(m) => Or(Or(m, Get(j, "error")), JStr(PDF_SERVER)))
          case Unparsable(_) => Or(Get(response, "statusText"), JStr(PDF_NETWORK));
        Normal(PdfFailure(fromReply))
      else
        Normal(PdfFailure(Or(Get(e, "message"), JStr(PDF_UNEXPECTED))))
  }

  /**
   * A TypeError raised in the try block (a reply without headers, or a null
   * parsed body) has no `response`, so the catch block reports its message.
   */
  lemma PdfCatchTypeError(readJson: Value -> Parsed)
    ensures PdfCatch(TYPE_ERROR, readJson) == Normal(PdfFailure(JStr(TYPE_ERROR_MESSAGE)))
  {
    assert Get(TYPE_ERROR, "response") == JUndef && Get(TYPE_ERROR, "message") == JStr(TYPE_ERROR_MESSAGE);
  }

  /**
   * The try block of both PDF exports: a PDF reply becomes the file, another
   * reply is read as a JSON error, and reading `headers` of a missing reply,
   * parsing the body or reading `message` of a null parse may throw.
   */
  function PdfAttempt(o: Outcome, readJson: Value -> Parsed): (a: Completion<Value>)
    ensures o.Failed? ==> a == Throw(o.thrown)
    ensures o.Completed? && IsPdfReply(o.response) ==>
              a == Normal(JObj(["success", "message", "file"],
                               map["success" := JBool(true), "message" := JStr(PDF_OK), "file" := Body(o.response)]))
    ensures o.Completed? && (Nullish(o.response) || Nullish(Get(o.response, "headers"))) ==> a == Throw(TYPE_ERROR)
    ensures o.Completed? && !IsPdfReply(o.response) && !Nullish(o.response) && !Nullish(Get(o.response, "headers")) ==>
              match readJson(Body(o.response))
              case Unparsable(err) => a == Throw(err)
              case Parsed(j) =>
                (Nullish(j) ==> a == Throw(TYPE_ERROR))
                && (!Nullish(j) ==> a == Normal(PdfFailure(Or(Get(j, "message"), JStr(PDF_UNKNOWN)))))
  {
    match o
    case Failed(e) => Throw(e)
    case Completed(resp) =>
      match Dot(resp, "headers")
      case Throw(t) => Throw(t)
      case Normal(headers) =>
        match Dot(headers, "content-type")
        case Throw(t) => Throw(t)
        case Normal(contentType) =>
          if contentType == JStr("application/pdf") then
            Normal(JObj(["success", "message", "file"],
                        map["success" := JBool(true), "message" := JStr(PDF_OK), "file" := Get(resp, "data")]))
          else
            match readJson(Get(resp, "data"))
            case Unparsable(err) => Throw(err)
            case Parsed(j) =>
              match Dot(j, "message")
              case Throw(t) => Throw(t)
              case Normal(m) => Normal(PdfFailure(Or(m, JStr(PDF_UNKNOWN))))
  }

  /**
   * exportConsumoCombustiblePDF / generateCdtPdfReport: a PDF reply is the
   * file; any other reply is read as a JSON error. Errors raised while reading
   * a non-PDF reply land in the same catch block as a failed request.
   */
  function PdfExport(o: Outcome, readJson: Value -> Parsed): (r: Completion<Value>)
    ensures IsPdfExport(o, readJson, r)
  {
    match PdfAttempt(o, readJson)
    case Normal(v) => Normal(v)
    case Throw(e) => PdfCatch(e, readJson)
  }

  /**
   * Once the request completes, a PDF export always resolves, whatever the
   * reply: a reply that is not a PDF gives `success` false and no file.
   * (`JSON.parse` throws a SyntaxError, never a null or undefined value.)
   */
  lemma CompletedPdfExportResolves(o: Outcome, readJson: Value -> Parsed, r: Completion<Value>)
    requires o.Completed? && IsPdfExport(o, readJson, r)
    requires readJson(Body(o.response)).Unparsable? ==> !Nullish(readJson(Body(o.response)).error)
    ensures r.Normal?
    ensures !IsPdfReply(o.response) ==> Get(r.value, "success") == JBool(false) && Get(r.value, "file") == JNull
  {
    PdfCatchTypeError(readJson);
  }

  // ---------------------------------------------------------------------------
  // Fixed lists: returned without a request while the backend has no endpoint.

  /** `{ id, nombre }` */
  function ListItem(id: Value, nombre: string): Value
  {
    JObj(["id", "nombre"], map["id" := id, "nombre" := JStr(nombre)])
  }

  /** `{ success: true, data: items }` */
  function FixedList(items: seq<Value>): Value
  {
    JObj(["success", "data"], map["success" := JBool(true), "data" := JArr(items)])
  }

  /** The two fuel types the form modules offer. */
  const FUEL_TYPES: seq<Value> := [ListItem(JNum(1), "Gasolina Regular"), ListItem(JNum(2), "Diesel")]

  /** The four vehicle types, as plain strings. */
  const VEHICLE_TYPES: seq<Value> := [JStr("auto"), JStr("camión"), JStr("camioneta"), JStr("moto")]
}
