/**
 * The vehicle form's resource functions: form-convention CRUD, two name lookups
 * and four fixed lists.
 */
module VehiculoForm {
  import opened Js
  import opened Http
  import opened Envelopes

  /** fetchVehiculoById: GET `/vehiculos/{id}`; `{ success, data }` from the body, else the server's message or `e.message`. */
  function FetchVehiculoById(id: Value, reply: Outcome): (c: Call)
    ensures SendsOnly(c, GET, "/vehiculos/" + ToString(id))
    ensures IsFormFetch(reply, c.result)
  {
    Call(Some(Request(GET, "/vehiculos/" + ToString(id), JUndef, JUndef)), FormFetch(reply))
  }

  /** fetchChoferNames: GET `/choferes/get-names`; `success` is true on any readable reply, else the fixed message. */
  function FetchChoferNames(reply: Outcome): (c: Call)
    ensures SendsOnly(c, GET, "/choferes/get-names")
    ensures c.result.Normal? && IsNamesFetch(reply, "Error cargando choferes", c.result.value)
  {
    Call(Some(Request(GET, "/choferes/get-names", JUndef, JUndef)), Normal(NamesFetch(reply, "Error cargando choferes")))
  }

  /** fetchTiposCombustibleNames: GET `/tipo-combustibles/get-names`; `success` is true on any readable reply, else the fixed message. */
  function FetchTiposCombustibleNames(reply: Outcome): (c: Call)
    ensures SendsOnly(c, GET, "/tipo-combustibles/get-names")
    ensures c.result.Normal? && IsNamesFetch(reply, "Error cargando tipos de combustible", c.result.value)
  {
    Call(Some(Request(GET, "/tipo-combustibles/get-names", JUndef, JUndef)), Normal(NamesFetch(reply, "Error cargando tipos de combustible")))
  }

  /** fetchTipoVehiculos: the fixed list of vehicle types (a plain array, not an envelope), with no request. */
  function FetchTipoVehiculos(): (c: Call)
    ensures c.request.None?
    ensures c.result == Normal(JArr([JStr("auto"), JStr("camión"), JStr("camioneta"), JStr("moto")]))
  {
    Call(None, Normal(JArr(VEHICLE_TYPES)))
  }

  /** submitVehiculo: POST `/vehiculos` with the payload; a failure needs a server reply, else reading it throws. */
  function SubmitVehiculo(payload: Value, reply: Outcome): (c: Call)
    ensures SendsBody(c, POST, "/vehiculos", payload)
    ensures IsFormSubmit(reply, c.result)
  {
    Call(Some(Request(POST, "/vehiculos", JUndef, payload)), FormSubmit(reply))
  }

  /** updateVehiculo: PUT `/vehiculos/{id}` with the payload; a failure needs a server reply, else reading it throws. */
  function UpdateVehiculo(id: Value, payload: Value, reply: Outcome): (c: Call)
    ensures SendsBody(c, PUT, "/vehiculos/" + ToString(id), payload)
    ensures IsFormSubmit(reply, c.result)
  {
    Call(Some(Request(PUT, "/vehiculos/" + ToString(id), JUndef, payload)), FormSubmit(reply))
  }

  /** deleteVehiculo: DELETE `/vehiculos/{id}`; only `{ success, message }`, and a failure needs a server reply. */
  function DeleteVehiculo(id: Value, reply: Outcome): (c: Call)
    ensures SendsOnly(c, DELETE, "/vehiculos/" + ToString(id))
    ensures IsFormDelete(reply, c.result)
  {
    Call(Some(Request(DELETE, "/vehiculos/" + ToString(id), JUndef, JUndef)), FormDelete(reply))
  }

  /** fetchTiposCombustible: a fixed two-item list, with no request. */
  function FetchTiposCombustible(): (c: Call)
    ensures c.request.None? && c.result.Normal?
    ensures ObjectIs(c.result.value, ["success", "data"], [JBool(true), JArr(FUEL_TYPES)])
    ensures |FUEL_TYPES| == 2 && Get(FUEL_TYPES[0], "nombre") == JStr("Gasolina Regular") && Get(FUEL_TYPES[1], "nombre") == JStr("Diesel")
  {
    Call(None, Normal(FixedList(FUEL_TYPES)))
  }

  /** fetchEmpresas: a fixed two-item list of companies, with no request. */
  function FetchEmpresas(): (c: Call)
    ensures c.request.None? && c.result.Normal?
    ensures ObjectIs(c.result.value, ["success", "data"], [JBool(true), Get(c.result.value, "data")])
    ensures Get(c.result.value, "data") == JArr([ListItem(JNum(1), "Empresa X"), ListItem(JNum(2), "Empresa Y")])
  {
    Call(None, Normal(FixedList([ListItem(JNum(1), "Empresa X"), ListItem(JNum(2), "Empresa Y")])))
  }

  /** fetchEstadosTecnicos: a fixed two-item list of technical states, with no request. */
  function FetchEstadosTecnicos(): (c: Call)
    ensures c.request.None? && c.result.Normal?
    ensures ObjectIs(c.result.value, ["success", "data"], [JBool(true), Get(c.result.value, "data")])
    ensures Get(c.result.value, "data") == JArr([ListItem(JStr("BUENO"), "Bueno"), ListItem(JStr("REGULAR"), "Regular")])
  {
    Call(None, Normal(FixedList([ListItem(JStr("BUENO"), "Bueno"), ListItem(JStr("REGULAR"), "Regular")])))
  }
}
