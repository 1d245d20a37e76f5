/**
 * The fuel-card form's resource functions: form-convention CRUD, two name
 * lookups, two fixed lists, and the charge and withdrawal submissions.
 */
module TarjetaForm {
  import opened Js
  import opened Http
  import opened Envelopes

  /** fetchTarjetaById: GET `/tarjetas-combustible/{id}`; `{ success, data }` from the body, else the server's message or `e.message`. */
  function FetchTarjetaById(id: Value, reply: Outcome): (c: Call)
    ensures SendsOnly(c, GET, "/tarjetas-combustible/" + ToString(id))
    ensures IsFormFetch(reply, c.result)
  {
    Call(Some(Request(GET, "/tarjetas-combustible/" + ToString(id), JUndef, JUndef)), FormFetch(reply))
  }

  /** fetchChoferNames: GET `/choferes/get-names`; `success` is true on any readable reply, else the fixed message. */
  function FetchChoferNames(reply: Outcome): (c: Call)
    ensures SendsOnly(c, GET, "/choferes/get-names")
    ensures c.result.Normal? && IsNamesFetch(reply, "Error cargando choferes", c.result.value)
  {
    Call(Some(Request(GET, "/choferes/get-names", JUndef, JUndef)), Normal(NamesFetch(reply, "Error cargando choferes")))
  }

  /** fetchTiposCombustibleNames: GET `/tipo-combustibles/get-names`; `success` is true on any readable reply, else the fixed message. */
  function FetchTiposCombustibleNames(reply: Outcome): (c: Call)
    ensures SendsOnly(c, GET, "/tipo-combustibles/get-names")
    ensures c.result.Normal? && IsNamesFetch(reply, "Error cargando tipos de combustible", c.result.value)
  {
    Call(Some(Request(GET, "/tipo-combustibles/get-names", JUndef, JUndef)), Normal(NamesFetch(reply, "Error cargando tipos de combustible")))
  }

  /** fetchTipoVehiculos: the fixed list of vehicle types (a plain array, not an envelope), with no request. */
  function FetchTipoVehiculos(): (c: Call)
    ensures c.request.None?
    ensures c.result == Normal(JArr([JStr("auto"), JStr("camión"), JStr("camioneta"), JStr("moto")]))
  {
    Call(None, Normal(JArr(VEHICLE_TYPES)))
  }

  /** submitTarjeta: POST `/tarjetas-combustible` with the payload; a failure needs a server reply, else reading it throws. */
  function SubmitTarjeta(payload: Value, reply: Outcome): (c: Call)
    ensures SendsBody(c, POST, "/tarjetas-combustible", payload)
    ensures IsFormSubmit(reply, c.result)
  {
    Call(Some(Request(POST, "/tarjetas-combustible", JUndef, payload)), FormSubmit(reply))
  }

  /** updateTarjeta: PUT `/tarjetas-combustible/{id}` with the payload; a failure needs a server reply, else reading it throws. */
  function UpdateTarjeta(id: Value, payload: Value, reply: Outcome): (c: Call)
    ensures SendsBody(c, PUT, "/tarjetas-combustible/" + ToString(id), payload)
    ensures IsFormSubmit(reply, c.result)
  {
    Call(Some(Request(PUT, "/tarjetas-combustible/" + ToString(id), JUndef, payload)), FormSubmit(reply))
  }

  /** deleteTarjeta: DELETE `/tarjetas-combustible/{id}`; only `{ success, message }`, and a failure needs a server reply. */
  function DeleteTarjeta(id: Value, reply: Outcome): (c: Call)
    ensures SendsOnly(c, DELETE, "/tarjetas-combustible/" + ToString(id))
    ensures IsFormDelete(reply, c.result)
  {
    Call(Some(Request(DELETE, "/tarjetas-combustible/" + ToString(id), JUndef, JUndef)), FormDelete(reply))
  }

  /** fetchTiposCombustible: a fixed two-item list, with no request. */
  function FetchTiposCombustible(): (c: Call)
    ensures c.request.None? && c.result.Normal?
    ensures ObjectIs(c.result.value, ["success", "data"], [JBool(true), JArr(FUEL_TYPES)])
    ensures |FUEL_TYPES| == 2 && Get(FUEL_TYPES[0], "nombre") == JStr("Gasolina Regular") && Get(FUEL_TYPES[1], "nombre") == JStr("Diesel")
  {
    Call(None, Normal(FixedList(FUEL_TYPES)))
  }

  /** submitCargaCombustible: POST `/carga-combustibles` with the payload; a failure without a reply falls back to the fixed message. */
  function SubmitCargaCombustible(payload: Value, reply: Outcome): (c: Call)
    ensures SendsBody(c, POST, "/carga-combustibles", payload)
    ensures IsTolerantSubmit(reply, "Error al registrar la carga", c.result)
  {
    Call(Some(Request(POST, "/carga-combustibles", JUndef, payload)), TolerantSubmit(reply, "Error al registrar la carga"))
  }

  /** submitRetiroCombustible: POST `/retiros-combustible` with the payload; a failure without a reply falls back to the fixed message. */
  function SubmitRetiroCombustible(payload: Value, reply: Outcome): (c: Call)
    ensures SendsBody(c, POST, "/retiros-combustible", payload)
    ensures IsTolerantSubmit(reply, "Error al registrar la carga", c.result)
  {
    Call(Some(Request(POST, "/retiros-combustible", JUndef, payload)), TolerantSubmit(reply, "Error al registrar la carga"))
  }
}
