/**
 * The driver form's resource functions: two by-id fetches and form-convention
 * create, update and delete.
 */
module ChoferForm {
  import opened Js
  import opened Http
  import opened Envelopes

  /** fetchChoferById: GET `/choferes/{id}`; `{ success, data }` from the body, else the server's message or `e.message`. */
  function FetchChoferById(id: Value, reply: Outcome): (c: Call)
    ensures SendsOnly(c, GET, "/choferes/" + ToString(id))
    ensures IsFormFetch(reply, c.result)
  {
    Call(Some(Request(GET, "/choferes/" + ToString(id), JUndef, JUndef)), FormFetch(reply))
  }

  /** fetchChoferDetails: GET `/choferes/get-details/{id}`; `{ success, data }` from the body, else the server's message or `e.message`. */
  function FetchChoferDetails(id: Value, reply: Outcome): (c: Call)
    ensures SendsOnly(c, GET, "/choferes/get-details/" + ToString(id))
    ensures IsFormFetch(reply, c.result)
  {
    Call(Some(Request(GET, "/choferes/get-details/" + ToString(id), JUndef, JUndef)), FormFetch(reply))
  }

  /** submitChofer: POST `/choferes` with the payload; a failure needs a server reply, else reading it throws. */
  function SubmitChofer(payload: Value, reply: Outcome): (c: Call)
    ensures SendsBody(c, POST, "/choferes", payload)
    ensures IsFormSubmit(reply, c.result)
  {
    Call(Some(Request(POST, "/choferes", JUndef, payload)), FormSubmit(reply))
  }

  /** updateChofer: PUT `/choferes/{id}` with the payload; a failure needs a server reply, else reading it throws. */
  function UpdateChofer(id: Value, payload: Value, reply: Outcome): (c: Call)
    ensures SendsBody(c, PUT, "/choferes/" + ToString(id), payload)
    ensures IsFormSubmit(reply, c.result)
  {
    Call(Some(Request(PUT, "/choferes/" + ToString(id), JUndef, payload)), FormSubmit(reply))
  }

  /** deleteChofer: DELETE `/choferes/{id}`; only `{ success, message }`, and a failure needs a server reply. */
  function DeleteChofer(id: Value, reply: Outcome): (c: Call)
    ensures SendsOnly(c, DELETE, "/choferes/" + ToString(id))
    ensures IsFormDelete(reply, c.result)
  {
    Call(Some(Request(DELETE, "/choferes/" + ToString(id), JUndef, JUndef)), FormDelete(reply))
  }
}
