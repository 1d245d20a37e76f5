/**
 * The user form's resource functions: form-convention CRUD on users, and two
 * throw-style calls on the user's company.
 */
module UsuarioForm {
  import opened Js
  import opened Http
  import opened Envelopes

  /** fetchUsuarioById: GET `/users/{id}`; `{ success, data }` from the body, else the server's message or `e.message`. */
  function FetchUsuarioById(id: Value, reply: Outcome): (c: Call)
    ensures SendsOnly(c, GET, "/users/" + ToString(id))
    ensures IsFormFetch(reply, c.result)
  {
    Call(Some(Request(GET, "/users/" + ToString(id), JUndef, JUndef)), FormFetch(reply))
  }

  /** submitUsuaio: POST `/users` with the payload; a failure needs a server reply, else reading it throws. */
  function SubmitUsuaio(payload: Value, reply: Outcome): (c: Call)
    ensures SendsBody(c, POST, "/users", payload)
    ensures IsFormSubmit(reply, c.result)
  {
    Call(Some(Request(POST, "/users", JUndef, payload)), FormSubmit(reply))
  }

  /** updateUsuario: PUT `/users/{id}` with the payload; a failure needs a server reply, else reading it throws. */
  function UpdateUsuario(id: Value, payload: Value, reply: Outcome): (c: Call)
    ensures SendsBody(c, PUT, "/users/" + ToString(id), payload)
    ensures IsFormSubmit(reply, c.result)
  {
    Call(Some(Request(PUT, "/users/" + ToString(id), JUndef, payload)), FormSubmit(reply))
  }

  /** deleteUsuario: DELETE `/users/{id}`; only `{ success, message }`, and a failure needs a server reply. */
  function DeleteUsuario(id: Value, reply: Outcome): (c: Call)
    ensures SendsOnly(c, DELETE, "/users/" + ToString(id))
    ensures IsFormDelete(reply, c.result)
  {
    Call(Some(Request(DELETE, "/users/" + ToString(id), JUndef, JUndef)), FormDelete(reply))
  }

  /** fetchCompanyByUserId: GET `/empresas/by-user/{userId}`, returning `body.data`; throw style. */
  function FetchCompanyByUserId(userId: Value, reply: Outcome): (c: Call)
    ensures SendsOnly(c, GET, "/empresas/by-user/" + ToString(userId))
    ensures IsThrowStyle(reply, BodyField("data"), "Error al obtener la empresa para el usuario con ID " + ToString(userId) + ".", c.result)
  {
    Call(Some(Request(GET, "/empresas/by-user/" + ToString(userId), JUndef, JUndef)), ThrowStyle(reply, BodyField("data"), "Error al obtener la empresa para el usuario con ID " + ToString(userId) + "."))
  }

  /** updateCompany: PUT `/empresas/{companyId}` with the company data, returning `body.data`; throw style. */
  function UpdateCompany(companyId: Value, companyData: Value, reply: Outcome): (c: Call)
    ensures SendsBody(c, PUT, "/empresas/" + ToString(companyId), companyData)
    ensures IsThrowStyle(reply, BodyField("data"), "Error al actualizar la empresa con ID " + ToString(companyId) + ".", c.result)
  {
    Call(Some(Request(PUT, "/empresas/" + ToString(companyId), JUndef, companyData)), ThrowStyle(reply, BodyField("data"), "Error al actualizar la empresa con ID " + ToString(companyId) + "."))
  }
}
