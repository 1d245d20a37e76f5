/**
 * The fuel-type form's resource functions: form-convention CRUD on fuel types.
 */
module CombustibleForm {
  import opened Js
  import opened Http
  import opened Envelopes

  /** fetchCombustibleById: GET `/tipo-combustibles/{id}`; `{ success, data }` from the body, else the server's message or `e.message`. */
  function FetchCombustibleById(id: Value, reply: Outcome): (c: Call)
    ensures SendsOnly(c, GET, "/tipo-combustibles/" + ToString(id))
    ensures IsFormFetch(reply, c.result)
  {
    Call(Some(Request(GET, "/tipo-combustibles/" + ToString(id), JUndef, JUndef)), FormFetch(reply))
  }

  /** submitCombustible: POST `/tipo-combustibles` with the payload; a failure needs a server reply, else reading it throws. */
  function SubmitCombustible(payload: Value, reply: Outcome): (c: Call)
    ensures SendsBody(c, POST, "/tipo-combustibles", payload)
    ensures IsFormSubmit(reply, c.result)
  {
    Call(Some(Request(POST, "/tipo-combustibles", JUndef, payload)), FormSubmit(reply))
  }

  /** updateCombustible: PUT `/tipo-combustibles/{id}` with the payload; a failure needs a server reply, else reading it throws. */
  function UpdateCombustible(id: Value, payload: Value, reply: Outcome): (c: Call)
    ensures SendsBody(c, PUT, "/tipo-combustibles/" + ToString(id), payload)
    ensures IsFormSubmit(reply, c.result)
  {
    Call(Some(Request(PUT, "/tipo-combustibles/" + ToString(id), JUndef, payload)), FormSubmit(reply))
  }

  /** deleteCombustible: DELETE `/tipo-combustibles/{id}`; only `{ success, message }`, and a failure needs a server reply. */
  function DeleteCombustible(id: Value, reply: Outcome): (c: Call)
    ensures SendsOnly(c, DELETE, "/tipo-combustibles/" + ToString(id))
    ensures IsFormDelete(reply, c.result)
  {
    Call(Some(Request(DELETE, "/tipo-combustibles/" + ToString(id), JUndef, JUndef)), FormDelete(reply))
  }
}
