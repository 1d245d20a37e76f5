/**
 * The fuel-charge page's resource functions: the charge list and four lookups.
 */
module CargasPage {
  import opened Js
  import opened Http
  import opened Envelopes

  /** fetchCharges: GET `/carga-combustibles` with the query parameters `page`, `itemsPerPage`, `search`, `tarjeta_combustible_id`, `chofer_id`, `tipo_combustible_id`, `registrado_por_id`; list envelope. */
  function FetchCharges(page: Value, itemsPerPage: Value, search: Value, tarjeta_combustible_id: Value, chofer_id: Value, tipo_combustible_id: Value, registrado_por_id: Value, reply: Outcome): (c: Call)
    ensures SendsQuery(c, GET, "/carga-combustibles", ["page", "itemsPerPage", "search", "tarjeta_combustible_id", "chofer_id", "tipo_combustible_id", "registrado_por_id"], [page, itemsPerPage, search, tarjeta_combustible_id, chofer_id, tipo_combustible_id, registrado_por_id])
    ensures c.result.Normal? && IsListEnvelope(reply, "Ocurrió un error al actualizar el evento", c.result.value)
  {
    Call(Some(Request(GET, "/carga-combustibles", Query(["page", "itemsPerPage", "search", "tarjeta_combustible_id", "chofer_id", "tipo_combustible_id", "registrado_por_id"], [page, itemsPerPage, search, tarjeta_combustible_id, chofer_id, tipo_combustible_id, registrado_por_id]), JUndef)), Normal(ListEnvelope(reply, "Ocurrió un error al actualizar el evento")))
  }

  /** fetchChoferNames: GET `/choferes/get-names` without parameters; list envelope. */
  function FetchChoferNames(reply: Outcome): (c: Call)
    ensures SendsOnly(c, GET, "/choferes/get-names")
    ensures c.result.Normal? && IsListEnvelope(reply, "Ocurrió un error al actualizar el evento", c.result.value)
  {
    Call(Some(Request(GET, "/choferes/get-names", JUndef, JUndef)), Normal(ListEnvelope(reply, "Ocurrió un error al actualizar el evento")))
  }

  /** fetchTarjetas: GET `/tarjetas-combustible` without parameters; list envelope. */
  function FetchTarjetas(reply: Outcome): (c: Call)
    ensures SendsOnly(c, GET, "/tarjetas-combustible")
    ensures c.result.Normal? && IsListEnvelope(reply, "Ocurrió un error al actualizar el evento", c.result.value)
  {
    Call(Some(Request(GET, "/tarjetas-combustible", JUndef, JUndef)), Normal(ListEnvelope(reply, "Ocurrió un error al actualizar el evento")))
  }

  /** fetchTipoCombustibles: GET `/tipo-combustibles` without parameters; list envelope. */
  function FetchTipoCombustibles(reply: Outcome): (c: Call)
    ensures SendsOnly(c, GET, "/tipo-combustibles")
    ensures c.result.Normal? && IsListEnvelope(reply, "Ocurrió un error al actualizar el evento", c.result.value)
  {
    Call(Some(Request(GET, "/tipo-combustibles", JUndef, JUndef)), Normal(ListEnvelope(reply, "Ocurrió un error al actualizar el evento")))
  }

  /** fetchUsersByEnterprise: GET `/users/users-by-enterprise` without parameters; list envelope. */
  function FetchUsersByEnterprise(reply: Outcome): (c: Call)
    ensures SendsOnly(c, GET, "/users/users-by-enterprise")
    ensures c.result.Normal? && IsListEnvelope(reply, "Ocurrió un error al actualizar el evento", c.result.value)
  {
    Call(Some(Request(GET, "/users/users-by-enterprise", JUndef, JUndef)), Normal(ListEnvelope(reply, "Ocurrió un error al actualizar el evento")))
  }
}
