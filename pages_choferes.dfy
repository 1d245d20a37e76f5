/**
 * The driver page's resource functions: the driver list (list envelope) and
 * three throw-style calls.
 */
module ChoferesPage {
  import opened Js
  import opened Http
  import opened Envelopes

  /** fetchChoferes: GET `/choferes` with the query parameters `page`, `itemsPerPage`, `search`; list envelope. */
  function FetchChoferes(page: Value, itemsPerPage: Value, search: Value, reply: Outcome): (c: Call)
    ensures SendsQuery(c, GET, "/choferes", ["page", "itemsPerPage", "search"], [page, itemsPerPage, search])
    ensures c.result.Normal? && IsListEnvelope(reply, "Ocurrió un error al actualizar el evento", c.result.value)
  {
    Call(Some(Request(GET, "/choferes", Query(["page", "itemsPerPage", "search"], [page, itemsPerPage, search]), JUndef)), Normal(ListEnvelope(reply, "Ocurrió un error al actualizar el evento")))
  }

  /** createChofer: POST `/choferes` with the driver data, returning `body.data`; throw style. */
  function CreateChofer(userData: Value, reply: Outcome): (c: Call)
    ensures SendsBody(c, POST, "/choferes", userData)
    ensures IsThrowStyle(reply, BodyField("data"), "Error al crear el usuario.", c.result)
  {
    Call(Some(Request(POST, "/choferes", JUndef, userData)), ThrowStyle(reply, BodyField("data"), "Error al crear el usuario."))
  }

  /** updateChofer: PUT `/choferes/{id}` with the driver data, returning `body.data`; throw style. */
  function UpdateChofer(id: Value, userData: Value, reply: Outcome): (c: Call)
    ensures SendsBody(c, PUT, "/choferes/" + ToString(id), userData)
    ensures IsThrowStyle(reply, BodyField("data"), "Error al actualizar el usuario con ID " + ToString(id) + ".", c.result)
  {
    Call(Some(Request(PUT, "/choferes/" + ToString(id), JUndef, userData)), ThrowStyle(reply, BodyField("data"), "Error al actualizar el usuario con ID " + ToString(id) + "."))
  }

  /** fetchChoferById: GET `/choferes/{id}`, returning `body.data`; throw style. */
  function FetchChoferById(id: Value, reply: Outcome): (c: Call)
    ensures SendsOnly(c, GET, "/choferes/" + ToString(id))
    ensures IsThrowStyle(reply, BodyField("data"), "Error al obtener el usuario con ID " + ToString(id) + ".", c.result)
  {
    Call(Some(Request(GET, "/choferes/" + ToString(id), JUndef, JUndef)), ThrowStyle(reply, BodyField("data"), "Error al obtener el usuario con ID " + ToString(id) + "."))
  }
}
