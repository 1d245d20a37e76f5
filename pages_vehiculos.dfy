/**
 * The vehicle page's resource functions: the vehicle list, two name lookups and
 * the update (which, as written, goes to the products endpoint).
 */
module VehiculosPage {
  import opened Js
  import opened Http
  import opened Envelopes

  /** fetchVechicles: GET `/vehiculos` with the query parameters `page`, `itemsPerPage`, `search`, `chofer_id`, `tipo_combustible_id`, `estado_tecnico`, `tipo_vehiculo`; list envelope. */
  function FetchVechicles(page: Value, itemsPerPage: Value, search: Value, chofer_id: Value, tipo_combustible_id: Value, estado_tecnico: Value, tipo_vehiculo: Value, reply: Outcome): (c: Call)
    ensures SendsQuery(c, GET, "/vehiculos", ["page", "itemsPerPage", "search", "chofer_id", "tipo_combustible_id", "estado_tecnico", "tipo_vehiculo"], [page, itemsPerPage, search, chofer_id, tipo_combustible_id, estado_tecnico, tipo_vehiculo])
    ensures c.result.Normal? && IsListEnvelope(reply, "Ocurrió un error al actualizar el evento", c.result.value)
  {
    Call(Some(Request(GET, "/vehiculos", Query(["page", "itemsPerPage", "search", "chofer_id", "tipo_combustible_id", "estado_tecnico", "tipo_vehiculo"], [page, itemsPerPage, search, chofer_id, tipo_combustible_id, estado_tecnico, tipo_vehiculo]), JUndef)), Normal(ListEnvelope(reply, "Ocurrió un error al actualizar el evento")))
  }

  /** fetchChoferNames: GET `/choferes/get-names` without parameters; list envelope. */
  function FetchChoferNames(reply: Outcome): (c: Call)
    ensures SendsOnly(c, GET, "/choferes/get-names")
    ensures c.result.Normal? && IsListEnvelope(reply, "Ocurrió un error al actualizar el evento", c.result.value)
  {
    Call(Some(Request(GET, "/choferes/get-names", JUndef, JUndef)), Normal(ListEnvelope(reply, "Ocurrió un error al actualizar el evento")))
  }

  /** fetchTipoCombustibleNames: GET `/tipo-combustibles/get-names` without parameters; list envelope. */
  function FetchTipoCombustibleNames(reply: Outcome): (c: Call)
    ensures SendsOnly(c, GET, "/tipo-combustibles/get-names")
    ensures c.result.Normal? && IsListEnvelope(reply, "Ocurrió un error al actualizar el evento", c.result.value)
  {
    Call(Some(Request(GET, "/tipo-combustibles/get-names", JUndef, JUndef)), Normal(ListEnvelope(reply, "Ocurrió un error al actualizar el evento")))
  }

  /** updateVehicle: PUT `/products/{vehicleId}` with the data as body; update envelope. */
  function UpdateVehicle(vehicleId: Value, data: Value, reply: Outcome): (c: Call)
    ensures SendsBody(c, PUT, "/products/" + ToString(vehicleId), data)
    ensures c.result.Normal? && IsUpdateEnvelope(reply, "Error al actualizar el producto", c.result.value)
  {
    Call(Some(Request(PUT, "/products/" + ToString(vehicleId), JUndef, data)), Normal(UpdateEnvelope(reply, "Error al actualizar el producto")))
  }
}
