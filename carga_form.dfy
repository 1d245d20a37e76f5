/**
 * The fuel-charge form's resource functions: form-convention fetch and
 * submit, a name lookup, the charge deletion with its reason, the fixed fuel
 * list, and the validation or rejection of a charge.
 */
module CargaForm {
  import opened Js
  import opened Http
  import opened Envelopes

  /** fetchCargaById: GET `/carga-combustibles/{id}`; `{ success, data }` from the body, else the server's message or `e.message`. */
  function FetchCargaById(id: Value, reply: Outcome): (c: Call)
    ensures SendsOnly(c, GET, "/carga-combustibles/" + ToString(id))
    ensures IsFormFetch(reply, c.result)
  {
    Call(Some(Request(GET, "/carga-combustibles/" + ToString(id), JUndef, JUndef)), FormFetch(reply))
  }

  /** fetchTiposCombustibleNames: GET `/tipo-combustibles/get-names`; `success` is true on any readable reply, else the fixed message. */
  function FetchTiposCombustibleNames(reply: Outcome): (c: Call)
    ensures SendsOnly(c, GET, "/tipo-combustibles/get-names")
    ensures c.result.Normal? && IsNamesFetch(reply, "Error cargando tipos de combustible", c.result.value)
  {
    Call(Some(Request(GET, "/tipo-combustibles/get-names", JUndef, JUndef)), Normal(NamesFetch(reply, "Error cargando tipos de combustible")))
  }

  /** submitTarjeta: POST `/tarjetas-combustible` with the payload; a failure needs a server reply, else reading it throws. */
  function SubmitTarjeta(payload: Value, reply: Outcome): (c: Call)
    ensures SendsBody(c, POST, "/tarjetas-combustible", payload)
    ensures IsFormSubmit(reply, c.result)
  {
    Call(Some(Request(POST, "/tarjetas-combustible", JUndef, payload)), FormSubmit(reply))
  }

  /** updateTarjeta: PUT `/tarjetas-combustible/{id}` with the payload; a failure needs a server reply, else reading it throws. */
  function UpdateTarjeta(id: Value, payload: Value, reply: Outcome): (c: Call)
    ensures SendsBody(c, PUT, "/tarjetas-combustible/" + ToString(id), payload)
    ensures IsFormSubmit(reply, c.result)
  {
    Call(Some(Request(PUT, "/tarjetas-combustible/" + ToString(id), JUndef, payload)), FormSubmit(reply))
  }

  /** destroyCharge: DELETE `/carga-combustibles/{id}` with `{ deletion_reason }` as the request body; list envelope. */
  function DestroyCharge(id: Value, deletion_reason: Value, reply: Outcome): (c: Call)
    ensures SendsBody(c, DELETE, "/carga-combustibles/" + ToString(id), JObj(["deletion_reason"], map["deletion_reason" := deletion_reason]))
    ensures c.result.Normal? && IsListEnvelope(reply, "Ocurrió un error al eliminar la carga de combustible.", c.result.value)
  {
    Call(Some(Request(DELETE, "/carga-combustibles/" + ToString(id), JUndef, JObj(["deletion_reason"], map["deletion_reason" := deletion_reason]))),
         Normal(ListEnvelope(reply, "Ocurrió un error al eliminar la carga de combustible.")))
  }

  /** fetchTiposCombustible: a fixed two-item list, with no request. */
  function FetchTiposCombustible(): (c: Call)
    ensures c.request.None? && c.result.Normal?
    ensures ObjectIs(c.result.value, ["success", "data"], [JBool(true), JArr(FUEL_TYPES)])
    ensures |FUEL_TYPES| == 2 && Get(FUEL_TYPES[0], "nombre") == JStr("Gasolina Regular") && Get(FUEL_TYPES[1], "nombre") == JStr("Diesel")
  {
    Call(None, Normal(FixedList(FUEL_TYPES)))
  }

  const VALIDATION_FAILED := "Error al procesar la carga"

  /** The keys of validarCarga's failure result: `errors`, not `data`. */
  const VALIDATION_FAILURE_KEYS: seq<string> := ["success", "message", "errors"]

  /**
   * The catch block of validarCarga, `catch ({ response })`: destructuring a
   * null or undefined thrown value throws; otherwise the server's message and
   * field errors, with fallbacks.
   */
  function ValidationFailure(e: Value): (r: Completion<Value>)
    ensures Nullish(e) <==> r.Throw?
    ensures Nullish(e) ==> r == Throw(TYPE_ERROR)
    ensures !Nullish(e) ==>
              && ObjectIs(r.value, VALIDATION_FAILURE_KEYS, [JBool(false), Get(r.value, "message"), Get(r.value, "errors")])
              && ServerThenFallback(e, VALIDATION_FAILED, Get(r.value, "message"))
              && (Truthy(ServerErrors(e)) ==> Get(r.value, "errors") == ServerErrors(e))
              && (!Truthy(ServerErrors(e)) ==> Get(r.value, "errors") == JNull)
  {
    match Dot(e, "response")
    case Throw(t) => Throw(t)
    case Normal(response) =>
      var data := Get(response, "data");
      Normal(JObj(VALIDATION_FAILURE_KEYS,
                  map["success" := JBool(false), "message" := Or(Get(data, "message"), JStr(VALIDATION_FAILED)),
                      "errors" := Or(Get(data, "errors"), JNull)]))
  }

  /** The try block of validarCarga after the call: `{ success, message, data }` from the body, or the TypeError reading it. */
  function ValidationReply(resp: Value): (r: Completion<Value>)
    ensures ReadableBody(resp) ==> r.Normal? && Copies(r.value, Body(resp), ["success", "message", "data"])
    ensures !ReadableBody(resp) ==> r == Throw(TYPE_ERROR)
  {
    match Dot(resp, "data")
    case Throw(t) => Throw(t)
    case Normal(body) =>
      match Dot(body, "success")
      case Throw(t) => Throw(t)
      case Normal(success) =>
        Normal(JObj(["success", "message", "data"],
                    map["success" := success, "message" := Get(body, "message"), "data" := Get(body, "data")]))
  }

  /** What validarCarga sends: `valid` and `validado_por_id`, and `motivo_rechazo` only for a rejection. */
  ghost predicate IsValidationPayload(options: Value, payload: Value)
  {
    var valid := Get(options, "valid");
    var reason := Default(Get(options, "motivoRechazo"), JNull);
    && (Truthy(valid) ==>
          ObjectIs(payload, ["valid", "validado_por_id"], [valid, Get(options, "validadoPorId")]))
    && (!Truthy(valid) ==>
          ObjectIs(payload, ["valid", "validado_por_id", "motivo_rechazo"], [valid, Get(options, "validadoPorId"), reason]))
  }

  /**
   * The try and catch blocks of validarCarga once the request is sent: the
   * body's three fields, or what the catch block makes of the failure.
   */
  function ValidationOutcome(reply: Outcome): (r: Completion<Value>)
    ensures reply.Completed? && ReadableBody(reply.response) ==>
              r.Normal? && Copies(r.value, Body(reply.response), ["success", "message", "data"])
    ensures reply.Completed? && !ReadableBody(reply.response) ==>
              r == Normal(JObj(VALIDATION_FAILURE_KEYS,
                               map["success" := JBool(false), "message" := JStr(VALIDATION_FAILED), "errors" := JNull]))
    ensures reply.Failed? ==> r == ValidationFailure(reply.thrown)
  {
    var attempt := if reply.Completed? then ValidationReply(reply.response) else Throw(reply.thrown);
    assert reply.Completed? && !ReadableBody(reply.response) ==> Get(TYPE_ERROR, "response") == JUndef;
    match attempt
    case Normal(v) => Normal(v)
    case Throw(e) => ValidationFailure(e)
  }

  /**
   * validarCarga(id, { valid, validadoPorId, motivoRechazo = null }): builds the
   * payload, adding the rejection reason in place when `valid` is falsy, and
   * POSTs it to `/carga-combustibles/{id}/validar`. The options are
   * destructured before the try block, so null or undefined options throw
   * without a request.
   */
  method ValidarCarga(id: Value, options: Value, reply: Outcome) returns (c: Call)
    ensures Nullish(options) ==> c == Call(None, Throw(TYPE_ERROR))
    ensures !Nullish(options) ==>
              && c.request.Some?
              && c.request.value.verb == POST
              && c.request.value.path == "/carga-combustibles/" + ToString(id) + "/validar"
              && c.request.value.params == JUndef
              && IsValidationPayload(options, c.request.value.body)
    ensures !Nullish(options) ==> c.result == ValidationOutcome(reply)
  {
    if Nullish(options) {
      return Call(None, Throw(TYPE_ERROR));
    }
    var valid := Get(options, "valid");
    var payload := JObj(["valid", "validado_por_id"], map["valid" := valid, "validado_por_id" := Get(options, "validadoPorId")]);
    assert ObjectIs(payload, ["valid", "validado_por_id"], [valid, Get(options, "validadoPorId")]);
    if !Truthy(valid) {
      var reason := Default(Get(options, "motivoRechazo"), JNull);
      SetPropAppends(payload, ["valid", "validado_por_id"], [valid, Get(options, "validadoPorId")], "motivo_rechazo", reason);
      payload := SetProp(payload, "motivo_rechazo", reason);
      assert ["valid", "validado_por_id"] + ["motivo_rechazo"] == ["valid", "validado_por_id", "motivo_rechazo"];
      assert [valid, Get(options, "validadoPorId")] + [reason] == [valid, Get(options, "validadoPorId"), reason];
    }
    var path := "/carga-combustibles/" + ToString(id) + "/validar";
    c := Call(Some(Request(POST, path, JUndef, payload)), ValidationOutcome(reply));
  }

  /** A rejection without a reason sends `motivo_rechazo: null`; an approval never sends the key. */
  lemma {:induction false} RejectionReasonDefaultsToNull(validadoPorId: Value)
    ensures var p := JObj(["valid", "validadoPorId"], map["valid" := JBool(false), "validadoPorId" := validadoPorId]);
            IsValidationPayload(p, JObj(["valid", "validado_por_id", "motivo_rechazo"],
                                        map["valid" := JBool(false), "validado_por_id" := validadoPorId, "motivo_rechazo" := JNull]))
  {
    var p := JObj(["valid", "validadoPorId"], map["valid" := JBool(false), "validadoPorId" := validadoPorId]);
    var payload := JObj(["valid", "validado_por_id", "motivo_rechazo"],
                        map["valid" := JBool(false), "validado_por_id" := validadoPorId, "motivo_rechazo" := JNull]);
    assert Get(p, "valid") == JBool(false) && Get(p, "motivoRechazo") == JUndef;
    assert Get(p, "validadoPorId") == validadoPorId;
    assert ObjectIs(payload, ["valid", "validado_por_id", "motivo_rechazo"], [JBool(false), validadoPorId, JNull]);
  }

  /** The reason is in the payload exactly when `valid` is falsy. */
  lemma ReasonSentIffRejected(options: Value, payload: Value)
    requires IsValidationPayload(options, payload)
    ensures payload.JObj? && ("motivo_rechazo" in payload.keys <==> !Truthy(Get(options, "valid")))
  {
  }
}
