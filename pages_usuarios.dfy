/**
 * The user page's resource functions: the user list (list envelope) and five
 * throw-style calls.
 */
module UsuariosPage {
  import opened Js
  import opened Http
  import opened Envelopes

  /** fetchUsers: GET `/users` with the query parameters `page`, `itemsPerPage`, `search`; list envelope. */
  function FetchUsers(page: Value, itemsPerPage: Value, search: Value, reply: Outcome): (c: Call)
    ensures SendsQuery(c, GET, "/users", ["page", "itemsPerPage", "search"], [page, itemsPerPage, search])
    ensures c.result.Normal? && IsListEnvelope(reply, "Ocurrió un error al actualizar el evento", c.result.value)
  {
    Call(Some(Request(GET, "/users", Query(["page", "itemsPerPage", "search"], [page, itemsPerPage, search]), JUndef)), Normal(ListEnvelope(reply, "Ocurrió un error al actualizar el evento")))
  }

  /** fetchUsersByEmpresa: GET `/users/by-empresa` with the given query object (`{}` when none is given); the whole body, throw style. */
  function FetchUsersByEmpresa(params: Value, reply: Outcome): (c: Call)
    ensures c.request == Some(Request(GET, "/users/by-empresa", Default(params, JObj([], map[])), JUndef))
    ensures params != JUndef ==> c.request.value.params == params
    ensures IsThrowStyle(reply, WholeBody, "Error al obtener usuarios de la misma empresa.", c.result)
  {
    Call(Some(Request(GET, "/users/by-empresa", Default(params, JObj([], map[])), JUndef)), ThrowStyle(reply, WholeBody, "Error al obtener usuarios de la misma empresa."))
  }

  /** createUser: POST `/users` with the user data, returning `body.data`; throw style. */
  function CreateUser(userData: Value, reply: Outcome): (c: Call)
    ensures SendsBody(c, POST, "/users", userData)
    ensures IsThrowStyle(reply, BodyField("data"), "Error al crear el usuario.", c.result)
  {
    Call(Some(Request(POST, "/users", JUndef, userData)), ThrowStyle(reply, BodyField("data"), "Error al crear el usuario."))
  }

  /** updateUser: PUT `/users/{id}` with the user data, returning `body.data`; throw style. */
  function UpdateUser(id: Value, userData: Value, reply: Outcome): (c: Call)
    ensures SendsBody(c, PUT, "/users/" + ToString(id), userData)
    ensures IsThrowStyle(reply, BodyField("data"), "Error al actualizar el usuario con ID " + ToString(id) + ".", c.result)
  {
    Call(Some(Request(PUT, "/users/" + ToString(id), JUndef, userData)), ThrowStyle(reply, BodyField("data"), "Error al actualizar el usuario con ID " + ToString(id) + "."))
  }

  /** fetchUserById: GET `/users/{id}`, returning `body.data`; throw style. */
  function FetchUserById(id: Value, reply: Outcome): (c: Call)
    ensures SendsOnly(c, GET, "/users/" + ToString(id))
    ensures IsThrowStyle(reply, BodyField("data"), "Error al obtener el usuario con ID " + ToString(id) + ".", c.result)
  {
    Call(Some(Request(GET, "/users/" + ToString(id), JUndef, JUndef)), ThrowStyle(reply, BodyField("data"), "Error al obtener el usuario con ID " + ToString(id) + "."))
  }

  /** deleteUser: DELETE `/users/{id}`, returning `body.message`; throw style. */
  function DeleteUser(id: Value, reply: Outcome): (c: Call)
    ensures SendsOnly(c, DELETE, "/users/" + ToString(id))
    ensures IsThrowStyle(reply, BodyField("message"), "Error al eliminar el usuario con ID " + ToString(id) + ".", c.result)
  {
    Call(Some(Request(DELETE, "/users/" + ToString(id), JUndef, JUndef)), ThrowStyle(reply, BodyField("message"), "Error al eliminar el usuario con ID " + ToString(id) + "."))
  }
}
