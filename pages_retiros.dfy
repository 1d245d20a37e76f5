/**
 * The fuel-withdrawal page's resource functions: the withdrawal list and five
 * lookups, each with its own fallback message.
 */
module RetirosPage {
  import opened Js
  import opened Http
  import opened Envelopes

  /** fetchWithdrawals: GET `/retiros-combustible` with the query parameters `page`, `itemsPerPage`, `search`, `tarjeta_combustible_id`, `chofer_id`, `tipo_combustible_id`, `registrado_por_id`, `with_trashed`; list envelope. */
  function FetchWithdrawals(page: Value, itemsPerPage: Value, search: Value, tarjeta_combustible_id: Value, chofer_id: Value, tipo_combustible_id: Value, registrado_por_id: Value, with_trashed: Value, reply: Outcome): (c: Call)
    ensures SendsQuery(c, GET, "/retiros-combustible", ["page", "itemsPerPage", "search", "tarjeta_combustible_id", "chofer_id", "tipo_combustible_id", "registrado_por_id", "with_trashed"], [page, itemsPerPage, search, tarjeta_combustible_id, chofer_id, tipo_combustible_id, registrado_por_id, with_trashed])
    ensures c.result.Normal? && IsListEnvelope(reply, "Ocurrió un error al obtener los retiros de combustible", c.result.value)
  {
    Call(Some(Request(GET, "/retiros-combustible", Query(["page", "itemsPerPage", "search", "tarjeta_combustible_id", "chofer_id", "tipo_combustible_id", "registrado_por_id", "with_trashed"], [page, itemsPerPage, search, tarjeta_combustible_id, chofer_id, tipo_combustible_id, registrado_por_id, with_trashed]), JUndef)), Normal(ListEnvelope(reply, "Ocurrió un error al obtener los retiros de combustible")))
  }

  /** fetchChoferNames: GET `/choferes/get-names` without parameters; list envelope. */
  function FetchChoferNames(reply: Outcome): (c: Call)
    ensures SendsOnly(c, GET, "/choferes/get-names")
    ensures c.result.Normal? && IsListEnvelope(reply, "Ocurrió un error al obtener los nombres de los choferes", c.result.value)
  {
    Call(Some(Request(GET, "/choferes/get-names", JUndef, JUndef)), Normal(ListEnvelope(reply, "Ocurrió un error al obtener los nombres de los choferes")))
  }

  /** fetchTarjetas: GET `/tarjetas-combustible` without parameters; list envelope. */
  function FetchTarjetas(reply: Outcome): (c: Call)
    ensures SendsOnly(c, GET, "/tarjetas-combustible")
    ensures c.result.Normal? && IsListEnvelope(reply, "Ocurrió un error al obtener las tarjetas de combustible", c.result.value)
  {
    Call(Some(Request(GET, "/tarjetas-combustible", JUndef, JUndef)), Normal(ListEnvelope(reply, "Ocurrió un error al obtener las tarjetas de combustible")))
  }

  /** fetchTipoCombustibles: GET `/tipo-combustibles` without parameters; list envelope. */
  function FetchTipoCombustibles(reply: Outcome): (c: Call)
    ensures SendsOnly(c, GET, "/tipo-combustibles")
    ensures c.result.Normal? && IsListEnvelope(reply, "Ocurrió un error al obtener los tipos de combustible", c.result.value)
  {
    Call(Some(Request(GET, "/tipo-combustibles", JUndef, JUndef)), Normal(ListEnvelope(reply, "Ocurrió un error al obtener los tipos de combustible")))
  }

  /** fetchUsersByEnterprise: GET `/users/users-by-enterprise` without parameters; list envelope. */
  function FetchUsersByEnterprise(reply: Outcome): (c: Call)
    ensures SendsOnly(c, GET, "/users/users-by-enterprise")
    ensures c.result.Normal? && IsListEnvelope(reply, "Ocurrió un error al obtener los usuarios por empresa", c.result.value)
  {
    Call(Some(Request(GET, "/users/users-by-enterprise", JUndef, JUndef)), Normal(ListEnvelope(reply, "Ocurrió un error al obtener los usuarios por empresa")))
  }

  /** fetchAccessedRetirosIds: GET `/retiros-combustible/accessed-ids` without parameters; list envelope. */
  function FetchAccessedRetirosIds(reply: Outcome): (c: Call)
    ensures SendsOnly(c, GET, "/retiros-combustible/accessed-ids")
    ensures c.result.Normal? && IsListEnvelope(reply, "Ocurrió un error al obtener las cargas accedidas.", c.result.value)
  {
    Call(Some(Request(GET, "/retiros-combustible/accessed-ids", JUndef, JUndef)), Normal(ListEnvelope(reply, "Ocurrió un error al obtener las cargas accedidas.")))
  }
}
