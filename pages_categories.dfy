/**
 * The category page's resource functions: categories and subcategories, each with
 * create, update and delete, and the category name list.
 */
module CategoriesPage {
  import opened Js
  import opened Http
  import opened Envelopes

  /** fetchCategories: GET `/categories/get-names` without parameters; list envelope. */
  function FetchCategories(reply: Outcome): (c: Call)
    ensures SendsOnly(c, GET, "/categories/get-names")
    ensures c.result.Normal? && IsListEnvelope(reply, "Ocurrió un error al actualizar el evento", c.result.value)
  {
    Call(Some(Request(GET, "/categories/get-names", JUndef, JUndef)), Normal(ListEnvelope(reply, "Ocurrió un error al actualizar el evento")))
  }

  /** submitCategory: POST `/categories` with `{ name: categoryData }`; create envelope. */
  function SubmitCategory(categoryData: Value, reply: Outcome): (c: Call)
    ensures SendsBody(c, POST, "/categories", JObj(["name"], map["name" := categoryData]))
    ensures IsCreateEnvelope(reply, "Error al crear producto", c.result)
  {
    Call(Some(Request(POST, "/categories", JUndef, JObj(["name"], map["name" := categoryData]))), CreateEnvelope(reply, "Error al crear producto"))
  }

  const CATEGORY_UPDATED := "Categoría actualizada"
  const CATEGORY_UPDATE_FAILED := "Error al actualizar la categoría"
  const SUBCATEGORY_UPDATED := "Subcategoría actualizada correctamente"
  const SUBCATEGORY_UPDATE_FAILED := "Error al actualizar la subcategoría"

  /**
   * The catch block of both update functions. Logging `error.response?.data`
   * reads `error.response` without `?.`, so a null or undefined thrown value
   * makes the handler itself throw. Otherwise the message is the server's,
   * else the first error reported for `name`, else the literal; the server's
   * `errors` (or null) are the `data`.
   */
  function UpdateFailure(e: Value, fallback: string): (r: Completion<Value>)
    ensures Nullish(e) <==> r.Throw?
    ensures Nullish(e) ==> r == Throw(TYPE_ERROR)
    ensures !Nullish(e) ==>
              && ObjectIs(r.value, ENVELOPE_KEYS, [JBool(false), Get(r.value, "message"), Or(ServerErrors(e), JNull), JNull])
              && (Truthy(ServerMessage(e)) ==> Get(r.value, "message") == ServerMessage(e))
              && (!Truthy(ServerMessage(e)) && Truthy(FirstNameError(e)) ==> Get(r.value, "message") == FirstNameError(e))
              && (!Truthy(ServerMessage(e)) && !Truthy(FirstNameError(e)) ==> Get(r.value, "message") == JStr(fallback))
  {
    match Dot(e, "response")
    case Throw(t) => Throw(t)
    case Normal(_) =>
      Normal(JObj(ENVELOPE_KEYS, map["success" := JBool(false),
                                    "message" := Or(Or(ServerMessage(e), FirstNameError(e)), JStr(fallback)),
                                    "data" := Or(ServerErrors(e), JNull), "meta" := JNull]))
  }

  /** `error.response?.data?.errors?.name?.[0]` */
  function FirstNameError(e: Value): Value
  {
    At(Get(ServerErrors(e), "name"), 0)
  }

  /** A failure before any reply (here, a TypeError raised while building the request) gives the literal and null data. */
  lemma {:induction false} UpdateFailureWithoutReply(fallback: string)
    requires fallback != ""
    ensures UpdateFailure(TYPE_ERROR, fallback) ==
            Normal(JObj(ENVELOPE_KEYS, map["success" := JBool(false), "message" := JStr(fallback), "data" := JNull, "meta" := JNull]))
  {
    assert ServerMessage(TYPE_ERROR) == JUndef && ServerErrors(TYPE_ERROR) == JUndef;
  }

  /** With no server message, the first `name` validation error is the message. */
  lemma {:induction false} NameErrorIsTheMessage(e: Value, first: string, rest: seq<Value>, fallback: string)
    requires !Nullish(e) && !Truthy(ServerMessage(e)) && first != ""
    requires ServerErrors(e).JObj? && Get(ServerErrors(e), "name") == JArr([JStr(first)] + rest)
    ensures Get(UpdateFailure(e, fallback).value, "message") == JStr(first)
    ensures Get(UpdateFailure(e, fallback).value, "data") == ServerErrors(e)
  {
    assert FirstNameError(e) == JStr(first);
  }

  /**
   * updateCategory: PUT `/categories/{id}` with `{ name: data.name }`. A
   * completed call always reports `success: true`, whatever the body says,
   * with `data` the body's `data` else the body itself, the body's message
   * else "Categoría actualizada", and `meta` else null.
   */
  function UpdateCategory(categoryId: Value, data: Value, reply: Outcome): (c: Call)
    ensures Nullish(data) <==> c.request.None?
    ensures Nullish(data) ==> c.result == UpdateFailure(TYPE_ERROR, CATEGORY_UPDATE_FAILED)
    ensures !Nullish(data) ==>
              SendsBody(c, PUT, "/categories/" + ToString(categoryId), JObj(["name"], map["name" := Get(data, "name")]))
    ensures !Nullish(data) && reply.Completed? && !Nullish(reply.response) ==>
              var body := Body(reply.response);
              && c.result.Normal?
              && ObjectIs(c.result.value, CREATED_KEYS, [JBool(true), Get(c.result.value, "data"), Get(c.result.value, "message"), Get(c.result.value, "meta")])
              && (Truthy(Get(body, "data")) ==> Get(c.result.value, "data") == Get(body, "data"))
              && (!Truthy(Get(body, "data")) ==> Get(c.result.value, "data") == body)
              && (Truthy(Get(body, "message")) ==> Get(c.result.value, "message") == Get(body, "message"))
              && (!Truthy(Get(body, "message")) ==> Get(c.result.value, "message") == JStr(CATEGORY_UPDATED))
              && (Truthy(Get(body, "meta")) ==> Get(c.result.value, "meta") == Get(body, "meta"))
              && (!Truthy(Get(body, "meta")) ==> Get(c.result.value, "meta") == JNull)
    ensures !Nullish(data) && reply.Completed? && Nullish(reply.response) ==>
              c.result == UpdateFailure(TYPE_ERROR, CATEGORY_UPDATE_FAILED)
    ensures !Nullish(data) && reply.Failed? ==> c.result == UpdateFailure(reply.thrown, CATEGORY_UPDATE_FAILED)
  {
    match Dot(data, "name")
    case Throw(t) => Call(None, UpdateFailure(t, CATEGORY_UPDATE_FAILED))
    case Normal(name) =>
      var request := Request(PUT, "/categories/" + ToString(categoryId), JUndef, JObj(["name"], map["name" := name]));
      var result :=
        match reply
        case Failed(e) => UpdateFailure(e, CATEGORY_UPDATE_FAILED)
        case Completed(resp) =>
          match Dot(resp, "data")
          case Throw(t) => UpdateFailure(t, CATEGORY_UPDATE_FAILED)
          case Normal(body) =>
            Normal(JObj(CREATED_KEYS, map["success" := JBool(true), "data" := Or(Get(body, "data"), body),
                                         "message" := Or(Get(body, "message"), JStr(CATEGORY_UPDATED)),
                                         "meta" := Or(Get(body, "meta"), JNull)]));
      Call(Some(request), result)
  }

  /** updateCategory reports success even for a body that says `success: false`. */
  lemma {:induction false} UpdateCategoryIgnoresBodySuccess(categoryId: Value, data: Value, response: Value)
    requires !Nullish(data) && !Nullish(response) && Get(Body(response), "success") == JBool(false)
    ensures Get(UpdateCategory(categoryId, data, Completed(response)).result.value, "success") == JBool(true)
  {
    var r := UpdateCategory(categoryId, data, Completed(response)).result.value;
    assert CREATED_KEYS[0] == "success";
    assert Get(r, CREATED_KEYS[0]) == JBool(true);
  }

  /**
   * updateSubcategory: PUT `/subcategories/{id}` with only `name` and
   * `category_id`. `??` replaces only null and undefined, so the body's own
   * `success` (even `false`) and `data` (even a falsy one) are kept.
   */
  function UpdateSubcategory(subcategoryId: Value, data: Value, reply: Outcome): (c: Call)
    ensures Nullish(data) <==> c.request.None?
    ensures Nullish(data) ==> c.result == UpdateFailure(TYPE_ERROR, SUBCATEGORY_UPDATE_FAILED)
    ensures !Nullish(data) ==>
              SendsBody(c, PUT, "/subcategories/" + ToString(subcategoryId),
                        JObj(["name", "category_id"], map["name" := Get(data, "name"), "category_id" := Get(data, "category_id")]))
    ensures !Nullish(data) && reply.Completed? && !Nullish(reply.response) ==>
              var body := Body(reply.response);
              && c.result.Normal?
              && ObjectIs(c.result.value, CREATED_KEYS, [Get(c.result.value, "success"), Get(c.result.value, "data"), Get(c.result.value, "message"), Get(c.result.value, "meta")])
              && (!Nullish(Get(body, "success")) ==> Get(c.result.value, "success") == Get(body, "success"))
              && (Nullish(Get(body, "success")) ==> Get(c.result.value, "success") == JBool(true))
              && (!Nullish(Get(body, "data")) ==> Get(c.result.value, "data") == Get(body, "data"))
              && (Nullish(Get(body, "data")) ==> Get(c.result.value, "data") == body)
              && (Truthy(Get(body, "message")) ==> Get(c.result.value, "message") == Get(body, "message"))
              && (!Truthy(Get(body, "message")) ==> Get(c.result.value, "message") == JStr(SUBCATEGORY_UPDATED))
              && (Truthy(Get(body, "meta")) ==> Get(c.result.value, "meta") == Get(body, "meta"))
              && (!Truthy(Get(body, "meta")) ==> Get(c.result.value, "meta") == JNull)
    ensures !Nullish(data) && reply.Completed? && Nullish(reply.response) ==>
              c.result == UpdateFailure(TYPE_ERROR, SUBCATEGORY_UPDATE_FAILED)
    ensures !Nullish(data) && reply.Failed? ==> c.result == UpdateFailure(reply.thrown, SUBCATEGORY_UPDATE_FAILED)
  {
    match Dot(data, "name")
    case Throw(t) => Call(None, UpdateFailure(t, SUBCATEGORY_UPDATE_FAILED))
    case Normal(name) =>
      var request := Request(PUT, "/subcategories/" + ToString(subcategoryId), JUndef,
                             JObj(["name", "category_id"], map["name" := name, "category_id" := Get(data, "category_id")]));
      var result :=
        match reply
        case Failed(e) => UpdateFailure(e, SUBCATEGORY_UPDATE_FAILED)
        case Completed(resp) =>
          match Dot(resp, "data")
          case Throw(t) => UpdateFailure(t, SUBCATEGORY_UPDATE_FAILED)
          case Normal(body) => Normal(SubcategoryUpdated(body));
      Call(Some(request), result)
  }

  /** The success value of updateSubcategory: `??` on `success` and `data`, `||` on `message` and `meta`. */
  function SubcategoryUpdated(body: Value): (r: Value)
    ensures ObjectIs(r, CREATED_KEYS, [Get(r, "success"), Get(r, "data"), Get(r, "message"), Get(r, "meta")])
    ensures !Nullish(Get(body, "success")) ==> Get(r, "success") == Get(body, "success")
    ensures Nullish(Get(body, "success")) ==> Get(r, "success") == JBool(true)
    ensures !Nullish(Get(body, "data")) ==> Get(r, "data") == Get(body, "data")
    ensures Nullish(Get(body, "data")) ==> Get(r, "data") == body
    ensures Truthy(Get(body, "message")) ==> Get(r, "message") == Get(body, "message")
    ensures !Truthy(Get(body, "message")) ==> Get(r, "message") == JStr(SUBCATEGORY_UPDATED)
    ensures Truthy(Get(body, "meta")) ==> Get(r, "meta") == Get(body, "meta")
    ensures !Truthy(Get(body, "meta")) ==> Get(r, "meta") == JNull
  {
    JObj(CREATED_KEYS, map["success" := Coalesce(Get(body, "success"), JBool(true)),
                           "data" := Coalesce(Get(body, "data"), body),
                           "message" := Or(Get(body, "message"), JStr(SUBCATEGORY_UPDATED)),
                           "meta" := Or(Get(body, "meta"), JNull)])
  }

  /** The two update functions differ on a body with `success: false`: only the subcategory one reports it. */
  lemma {:induction false} SubcategoryKeepsExplicitFailure(id: Value, data: Value, response: Value)
    requires !Nullish(data) && !Nullish(response) && Get(Body(response), "success") == JBool(false)
    ensures Get(UpdateSubcategory(id, data, Completed(response)).result.value, "success") == JBool(false)
    ensures Get(UpdateCategory(id, data, Completed(response)).result.value, "success") == JBool(true)
  {
    UpdateCategoryIgnoresBodySuccess(id, data, response);
  }

  /** deleteCategory: DELETE `/categories/{categoryId}`; delete envelope, with no `data` on failure. */
  function DeleteCategory(categoryId: Value, reply: Outcome): (c: Call)
    ensures SendsOnly(c, DELETE, "/categories/" + ToString(categoryId))
    ensures c.result.Normal? && IsDeleteEnvelope(reply, "Error al eliminar subcategoría", c.result.value)
  {
    Call(Some(Request(DELETE, "/categories/" + ToString(categoryId), JUndef, JUndef)), Normal(DeleteEnvelope(reply, "Error al eliminar subcategoría")))
  }

  /** submitSubcategory: POST `/subcategories` with the subcategory data; create envelope. */
  function SubmitSubcategory(subcategoryData: Value, reply: Outcome): (c: Call)
    ensures SendsBody(c, POST, "/subcategories", subcategoryData)
    ensures IsCreateEnvelope(reply, "Error al crear subcategoría", c.result)
  {
    Call(Some(Request(POST, "/subcategories", JUndef, subcategoryData)), CreateEnvelope(reply, "Error al crear subcategoría"))
  }

  /** deleteSubcategory: DELETE `/subcategories/{subcategoryId}`; delete envelope, with no `data` on failure. */
  function DeleteSubcategory(subcategoryId: Value, reply: Outcome): (c: Call)
    ensures SendsOnly(c, DELETE, "/subcategories/" + ToString(subcategoryId))
    ensures c.result.Normal? && IsDeleteEnvelope(reply, "Error al eliminar subcategoría", c.result.value)
  {
    Call(Some(Request(DELETE, "/subcategories/" + ToString(subcategoryId), JUndef, JUndef)), Normal(DeleteEnvelope(reply, "Error al eliminar subcategoría")))
  }
}
