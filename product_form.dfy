/**
 * The product form's resource functions: the next product code, create, the
 * category and subcategory options, the product detail with its defaults, update
 * and delete.
 */
module ProductForm {
  import opened Js
  import opened Http
  import opened Envelopes

  /** fetchNextProductCode: GET `/products/get-next-product-code`; every access optional, so it never throws. */
  function FetchNextProductCode(reply: Outcome): (c: Call)
    ensures SendsOnly(c, GET, "/products/get-next-product-code")
    ensures c.result.Normal? && IsPlainEnvelope(reply, "Error al obtener código", c.result.value)
  {
    Call(Some(Request(GET, "/products/get-next-product-code", JUndef, JUndef)), Normal(PlainEnvelope(reply, "Error al obtener código")))
  }

  /** submitProduct: POST `/products` with the product data; create envelope. */
  function SubmitProduct(productData: Value, reply: Outcome): (c: Call)
    ensures SendsBody(c, POST, "/products", productData)
    ensures IsCreateEnvelope(reply, "Error al crear producto", c.result)
  {
    Call(Some(Request(POST, "/products", JUndef, productData)), CreateEnvelope(reply, "Error al crear producto"))
  }

  const CATEGORIES_FAILED := "Error al cargar categorías"
  const SUBCATEGORIES_FAILED := "Error al cargar subcategorías"
  const CATEGORY_NOT_FOUND := "Categoría no encontrada"
  const INVALID_SHAPE := "Estructura de respuesta inválida"
  const PRODUCT_FAILED := "Error al cargar producto"

  /** `items.map(x => ({ title: x.name, value: x.id }))`; reading a field of a null or undefined item throws. */
  function TitleValues(items: seq<Value>): (r: Completion<seq<Value>>)
    ensures r.Normal? <==> forall i :: 0 <= i < |items| ==> !Nullish(items[i])
    ensures r.Normal? ==> |r.value| == |items|
    ensures r.Normal? ==> forall i :: 0 <= i < |items| ==>
              ObjectIs(r.value[i], ["title", "value"], [Get(items[i], "name"), Get(items[i], "id")])
    ensures r.Throw? ==> r == Throw(TYPE_ERROR)
  {
    if |items| == 0 then Normal([])
    else if Nullish(items[0]) then Throw(TYPE_ERROR)
    else
      match TitleValues(items[1..])
      case Throw(t) => Throw(t)
      case Normal(rest) =>
        Normal([JObj(["title", "value"], map["title" := Get(items[0], "name"), "value" := Get(items[0], "id")])] + rest)
  }

  /**
   * `response.data.data.map(...)`: the reply's list as select options. A
   * missing body, a `data` that is not an array (it has no `map`) or a null
   * item raises a TypeError.
   */
  function Options(resp: Value): (r: Completion<Value>)
    ensures r.Normal? <==> ReadableBody(resp) && Get(Body(resp), "data").JArr?
                           && TitleValues(Get(Body(resp), "data").items).Normal?
    ensures r.Normal? ==> r.value == JArr(TitleValues(Get(Body(resp), "data").items).value)
    ensures r.Throw? ==> r == Throw(TYPE_ERROR)
  {
    match Dot(resp, "data")
    case Throw(t) => Throw(t)
    case Normal(body) =>
      match Dot(body, "data")
      case Throw(t) => Throw(t)
      case Normal(list) =>
        if list.JArr? then
          match TitleValues(list.items)
          case Throw(t) => Throw(t)
          case Normal(options) => Normal(JArr(options))
        else Throw(TYPE_ERROR)
  }

  /**
   * fetchCategories: GET `/categories/get-names` as `{ title, value }`
   * options. The catch block ignores the error: any failure gives the same
   * two-key reply, with no `data`.
   */
  function FetchCategories(reply: Outcome): (c: Call)
    ensures SendsOnly(c, GET, "/categories/get-names")
    ensures c.result.Normal?
    ensures reply.Completed? && Options(reply.response).Normal? ==>
              ObjectIs(c.result.value, ["success", "data"], [JBool(true), Options(reply.response).value])
    ensures !(reply.Completed? && Options(reply.response).Normal?) ==>
              ObjectIs(c.result.value, ["success", "message"], [JBool(false), JStr(CATEGORIES_FAILED)])
  {
    var failure := JObj(["success", "message"], map["success" := JBool(false), "message" := JStr(CATEGORIES_FAILED)]);
    var result :=
      match reply
      case Failed(_) => failure
      case Completed(resp) =>
        match Options(resp)
        case Throw(_) => failure
        case Normal(options) => JObj(["success", "data"], map["success" := JBool(true), "data" := options]);
    Call(Some(Request(GET, "/categories/get-names", JUndef, JUndef)), Normal(result))
  }

  /** Each category of a well-formed reply becomes one option, in order. */
  lemma {:induction false} CategoryOptionsInOrder(items: seq<Value>, i: nat)
    requires forall j :: 0 <= j < |items| ==> !Nullish(items[j])
    requires i < |items|
    ensures var options := Options(JObj(["data"], map["data" := JObj(["data"], map["data" := JArr(items)])]));
            && options.Normal? && options.value.JArr? && |options.value.items| == |items|
            && Get(options.value.items[i], "title") == Get(items[i], "name")
            && Get(options.value.items[i], "value") == Get(items[i], "id")
  {
    var resp := JObj(["data"], map["data" := JObj(["data"], map["data" := JArr(items)])]);
    assert Body(resp) == JObj(["data"], map["data" := JArr(items)]);
    var t := TitleValues(items);
    assert ["title", "value"][0] == "title" && ["title", "value"][1] == "value";
    assert ObjectIs(t.value[i], ["title", "value"], [Get(items[i], "name"), Get(items[i], "id")]);
  }

  /**
   * The catch block of fetchSubcategories. `error.response` is read without
   * `?.`, so a null or undefined thrown value makes it throw. A reply with
   * status 404 wins over any server message.
   */
  function SubcategoriesFailure(e: Value): (r: Completion<Value>)
    ensures Nullish(e) <==> r.Throw?
    ensures Nullish(e) ==> r == Throw(TYPE_ERROR)
    ensures !Nullish(e) ==>
              var response := Get(e, "response");
              var m := Get(r.value, "message");
              && ObjectIs(r.value, ["success", "message", "data"], [JBool(false), m, JNull])
              && (Truthy(response) && Get(response, "status") == JNum(404) ==> m == JStr(CATEGORY_NOT_FOUND))
              && (Truthy(response) && Get(response, "status") != JNum(404) && Truthy(ServerMessage(e)) ==> m == ServerMessage(e))
              && (!Truthy(response) || (Get(response, "status") != JNum(404) && !Truthy(ServerMessage(e))) ==>
                    m == JStr(SUBCATEGORIES_FAILED))
  {
    match Dot(e, "response")
    case Throw(t) => Throw(t)
    case Normal(response) =>
      var message :=
        if !Truthy(response) then JStr(SUBCATEGORIES_FAILED)
        else if Get(response, "status") == JNum(404) then JStr(CATEGORY_NOT_FOUND)
        else if Truthy(Get(Get(response, "data"), "message")) then Get(Get(response, "data"), "message")
        else JStr(SUBCATEGORIES_FAILED);
      Normal(JObj(["success", "message", "data"], map["success" := JBool(false), "message" := message, "data" := JNull]))
  }

  /** fetchSubcategories: GET `/subcategories/by-category/{categoryId}` as `{ title, value }` options. */
  function FetchSubcategories(categoryId: Value, reply: Outcome): (c: Call)
    ensures SendsOnly(c, GET, "/subcategories/by-category/" + ToString(categoryId))
    ensures reply.Completed? && Options(reply.response).Normal? ==>
              c.result.Normal? && ObjectIs(c.result.value, ["success", "data"], [JBool(true), Options(reply.response).value])
    ensures reply.Completed? && Options(reply.response).Throw? ==> c.result == SubcategoriesFailure(TYPE_ERROR)
    ensures reply.Failed? ==> c.result == SubcategoriesFailure(reply.thrown)
  {
    var attempt := if reply.Completed? then Options(reply.response) else Throw(reply.thrown);
    var result :=
      match attempt
      case Throw(e) => SubcategoriesFailure(e)
      case Normal(options) => Normal(JObj(["success", "data"], map["success" := JBool(true), "data" := options]));
    Call(Some(Request(GET, "/subcategories/by-category/" + ToString(categoryId), JUndef, JUndef)), result)
  }

  /** A malformed reply is reported with the default message, not as a missing category. */
  lemma {:induction false} MalformedSubcategoriesReply()
    ensures SubcategoriesFailure(TYPE_ERROR) ==
            Normal(JObj(["success", "message", "data"],
                        map["success" := JBool(false), "message" := JStr(SUBCATEGORIES_FAILED), "data" := JNull]))
  {
    assert Get(TYPE_ERROR, "response") == JUndef;
  }

  /** The fields fetchProductById copies unchanged, then the two related objects, also copied. */
  const COPIED_FIELDS: seq<string> := ["code", "name", "description", "price", "amount", "saled", "state", "dimension", "weight", "capacity"]
  const RELATIONS: seq<string> := ["category", "subcategory"]
  /** The fields of a product, in the order the normalised object lists them. */
  const PRODUCT_KEYS: seq<string> :=
    COPIED_FIELDS + ["color", "category_id", "subcategory_id", "visible", "destacated"] + RELATIONS + ["images"]

  /** `productData.category_id || productData.category?.id || null`, and the same for the subcategory. */
  function RelatedId(p: Value, idKey: string, objectKey: string): Value
  {
    Or(Or(Get(p, idKey), Get(Get(p, objectKey), "id")), JNull)
  }

  /** The six fields the normalisation computes rather than copies. */
  function DerivedFields(p: Value): (m: map<string, Value>)
    ensures m.Keys == DERIVED
  {
    map["color" := Or(Get(p, "color"), JArr([JStr("")])),
        "category_id" := RelatedId(p, "category_id", "category"),
        "subcategory_id" := RelatedId(p, "subcategory_id", "subcategory"),
        "visible" := Boolean(Get(p, "visible")), "destacated" := Boolean(Get(p, "destacated")),
        "images" := Or(Get(p, "images"), JArr([]))]
  }

  /**
   * The product as fetchProductById returns it: the fields the form edits,
   * with defaults for the colour list, the related ids and the images, and
   * the two flags forced to booleans.
   */
  function NormalizedProduct(p: Value): (r: Value)
    ensures r.JObj? && r.keys == PRODUCT_KEYS && (forall k :: k in r.fields <==> k in PRODUCT_KEYS)
  {
    var copied := map k | k in COPIED_FIELDS + RELATIONS :: Get(p, k);
    JObj(PRODUCT_KEYS, copied + DerivedFields(p))
  }

  /** The ten plain fields and the two related objects are copied unchanged. */
  lemma NormalizedCopies(p: Value)
    ensures forall k :: k in COPIED_FIELDS || k in RELATIONS ==> Get(NormalizedProduct(p), k) == Get(p, k)
  {
    forall k | k in COPIED_FIELDS || k in RELATIONS
      ensures Get(NormalizedProduct(p), k) == Get(p, k)
    {
      assert k in COPIED_FIELDS + RELATIONS;
      NormalizedCopy(p, k);
    }
  }

  /** One copied field of the normalised product. */
  lemma NormalizedCopy(p: Value, k: string)
    requires k in COPIED_FIELDS + RELATIONS
    ensures Get(NormalizedProduct(p), k) == Get(p, k)
  {
    CopiedAreNotDerived();
    assert k !in DerivedFields(p);
  }

  /** A derived field of the normalised product is the one `DerivedFields` computes. */
  lemma NormalizedDerived(p: Value, k: string)
    requires k in DERIVED
    ensures Get(NormalizedProduct(p), k) == DerivedFields(p)[k]
  {
  }

  /** The keys of `DerivedFields`. */
  const DERIVED: set<string> := {"color", "category_id", "subcategory_id", "visible", "destacated", "images"}

  /** No copied key is also a derived one. */
  lemma CopiedAreNotDerived()
    ensures forall k :: k in COPIED_FIELDS + RELATIONS ==> k !in DERIVED
  {
  }

  /** The colour list defaults to `['']`. */
  lemma NormalizedColor(p: Value)
    ensures Truthy(Get(p, "color")) ==> Get(NormalizedProduct(p), "color") == Get(p, "color")
    ensures !Truthy(Get(p, "color")) ==> Get(NormalizedProduct(p), "color") == JArr([JStr("")])
  {
    NormalizedDerived(p, "color");
  }

  /** The image list defaults to `[]`. */
  lemma NormalizedImages(p: Value)
    ensures Truthy(Get(p, "images")) ==> Get(NormalizedProduct(p), "images") == Get(p, "images")
    ensures !Truthy(Get(p, "images")) ==> Get(NormalizedProduct(p), "images") == JArr([])
  {
    NormalizedDerived(p, "images");
  }

  /** `category_id` falls back to `category.id`, then to null. */
  lemma NormalizedCategoryId(p: Value)
    ensures var id := Get(NormalizedProduct(p), "category_id");
            && (Truthy(Get(p, "category_id")) ==> id == Get(p, "category_id"))
            && (!Truthy(Get(p, "category_id")) && Truthy(Get(Get(p, "category"), "id")) ==> id == Get(Get(p, "category"), "id"))
            && (!Truthy(Get(p, "category_id")) && !Truthy(Get(Get(p, "category"), "id")) ==> id == JNull)
  {
    NormalizedDerived(p, "category_id");
  }

  /** `subcategory_id` falls back to `subcategory.id`, then to null. */
  lemma NormalizedSubcategoryId(p: Value)
    ensures var id := Get(NormalizedProduct(p), "subcategory_id");
            && (Truthy(Get(p, "subcategory_id")) ==> id == Get(p, "subcategory_id"))
            && (!Truthy(Get(p, "subcategory_id")) && Truthy(Get(Get(p, "subcategory"), "id")) ==> id == Get(Get(p, "subcategory"), "id"))
            && (!Truthy(Get(p, "subcategory_id")) && !Truthy(Get(Get(p, "subcategory"), "id")) ==> id == JNull)
  {
    NormalizedDerived(p, "subcategory_id");
  }

  /** `visible` and `destacated` are booleans, true exactly when the product's field is truthy. */
  lemma NormalizedFlags(p: Value)
    ensures var r := NormalizedProduct(p);
            && Get(r, "visible").JBool? && (Get(r, "visible").b <==> Truthy(Get(p, "visible")))
            && Get(r, "destacated").JBool? && (Get(r, "destacated").b <==> Truthy(Get(p, "destacated")))
  {
    NormalizedDerived(p, "visible");
    NormalizedDerived(p, "destacated");
  }
  /** `response.data?.success && response.data?.data`: the body holds a product. */
  predicate HoldsProduct(body: Value)
  {
    Truthy(Get(body, "success")) && Truthy(Get(body, "data"))
  }

  /** The Error fetchProductById throws for a body without a product. */
  function ShapeError(body: Value): Value
  {
    NewError(Or(Get(body, "message"), JStr(INVALID_SHAPE)))
  }

  /** `{ success: true, data: product, message: body.message }`, the value of a successful fetchProductById. */
  function ProductLoaded(body: Value, product: Value): (r: Value)
    ensures ObjectIs(r, ["success", "data", "message"], [JBool(true), product, Get(body, "message")])
  {
    JObj(["success", "data", "message"], map["success" := JBool(true), "data" := product, "message" := Get(body, "message")])
  }

  /** The try block of fetchProductById on a completed call: the product, or the Error it throws. */
  function ProductReply(resp: Value): (r: Completion<Value>)
    ensures Nullish(resp) ==> r == Throw(TYPE_ERROR)
    ensures !Nullish(resp) && HoldsProduct(Body(resp)) ==>
              var body := Body(resp);
              r.Normal? && ObjectIs(r.value, ["success", "data", "message"],
                                    [JBool(true), NormalizedProduct(Get(body, "data")), Get(body, "message")])
    ensures !Nullish(resp) && !HoldsProduct(Body(resp)) ==> r == Throw(ShapeError(Body(resp)))
  {
    match Dot(resp, "data")
    case Throw(t) => Throw(t)
    case Normal(body) =>
      if HoldsProduct(body) then
        Normal(ProductLoaded(body, NormalizedProduct(Get(body, "data"))))
      else Throw(ShapeError(body))
  }

  /** The catch block of fetchProductById; `error.response` without `?.` throws for a null or undefined value. */
  function ProductFailure(e: Value): (r: Completion<Value>)
    ensures Nullish(e) <==> r.Throw?
    ensures Nullish(e) ==> r == Throw(TYPE_ERROR)
    ensures !Nullish(e) ==>
              && ObjectIs(r.value, ["success", "message", "data"], [JBool(false), Get(r.value, "message"), JNull])
              && ServerThenErrorMessage(e, PRODUCT_FAILED, Get(r.value, "message"))
  {
    match Dot(e, "response")
    case Throw(t) => Throw(t)
    case Normal(_) =>
      Normal(JObj(["success", "message", "data"],
                  map["success" := JBool(false), "message" := Or(Or(ServerMessage(e), Get(e, "message")), JStr(PRODUCT_FAILED)),
                      "data" := JNull]))
  }

  /**
   * A body without a product is reported with its own string message, or
   * "Estructura de respuesta inválida" when it has none; the Error carries no
   * response, so the server-message branch of the catch block never applies.
   */
  lemma {:induction false} ShapeErrorReported(body: Value)
    ensures var r := ProductFailure(ShapeError(body));
            && r.Normal?
            && ObjectIs(r.value, ["success", "message", "data"], [JBool(false), Get(r.value, "message"), JNull])
            && (Get(body, "message").JStr? && Truthy(Get(body, "message")) ==> Get(r.value, "message") == Get(body, "message"))
            && (!Truthy(Get(body, "message")) ==> Get(r.value, "message") == JStr(INVALID_SHAPE))
  {
    var e := ShapeError(body);
    assert Get(e, "response") == JUndef;
    assert ServerMessage(e) == JUndef;
  }

  /**
   * fetchProductById: GET `/products/{id}`. Only a body whose `success` and
   * `data` are both truthy gives the normalised product; any other body is
   * turned into an Error with the body's message and reported as a failure.
   */
  function FetchProductById(id: Value, reply: Outcome): (c: Call)
    ensures SendsOnly(c, GET, "/products/" + ToString(id))
    ensures reply.Completed? && !Nullish(reply.response) && HoldsProduct(Body(reply.response)) ==>
              var body := Body(reply.response);
              c.result.Normal? && ObjectIs(c.result.value, ["success", "data", "message"],
                                           [JBool(true), NormalizedProduct(Get(body, "data")), Get(body, "message")])
    ensures reply.Completed? && !Nullish(reply.response) && !HoldsProduct(Body(reply.response)) ==>
              c.result == ProductFailure(ShapeError(Body(reply.response)))
    ensures reply.Completed? && Nullish(reply.response) ==> c.result == ProductFailure(TYPE_ERROR)
    ensures reply.Failed? ==> c.result == ProductFailure(reply.thrown)
  {
    var attempt := if reply.Completed? then ProductReply(reply.response) else Throw(reply.thrown);
    var result :=
      match attempt
      case Normal(v) => Normal(v)
      case Throw(e) => ProductFailure(e);
    Call(Some(Request(GET, "/products/" + ToString(id), JUndef, JUndef)), result)
  }

  /** updateProduct: PUT `/products/{productId}` with the data as body; update envelope. */
  function UpdateProduct(productId: Value, data: Value, reply: Outcome): (c: Call)
    ensures SendsBody(c, PUT, "/products/" + ToString(productId), data)
    ensures c.result.Normal? && IsUpdateEnvelope(reply, "Error al actualizar el producto", c.result.value)
  {
    Call(Some(Request(PUT, "/products/" + ToString(productId), JUndef, data)), Normal(UpdateEnvelope(reply, "Error al actualizar el producto")))
  }

  /** deleteProduct: DELETE `/products/{categoryId}`; delete envelope, with no `data` on failure. */
  function DeleteProduct(categoryId: Value, reply: Outcome): (c: Call)
    ensures SendsOnly(c, DELETE, "/products/" + ToString(categoryId))
    ensures c.result.Normal? && IsDeleteEnvelope(reply, "Error al eliminar el producto", c.result.value)
  {
    Call(Some(Request(DELETE, "/products/" + ToString(categoryId), JUndef, JUndef)), Normal(DeleteEnvelope(reply, "Error al eliminar el producto")))
  }
}
