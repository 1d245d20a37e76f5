/**
 * The product page's resource functions: the product list, the category filter
 * list and the update.
 */
module ProductsPage {
  import opened Js
  import opened Http
  import opened Envelopes

  /** fetchProducts: GET `/products` with the query parameters `page`, `itemsPerPage`, `sortBy`, `orderBy`, `selectedCategory`, `selectedSubCategory`, `searchTerm`, `selectedDestacated`, `selectedVisible`; list envelope. */
  function FetchProducts(page: Value, itemsPerPage: Value, sortBy: Value, orderBy: Value, selectedCategory: Value, selectedSubCategory: Value, searchTerm: Value, selectedDestacated: Value, selectedVisible: Value, reply: Outcome): (c: Call)
    ensures SendsQuery(c, GET, "/products", ["page", "itemsPerPage", "sortBy", "orderBy", "selectedCategory", "selectedSubCategory", "searchTerm", "selectedDestacated", "selectedVisible"], [page, itemsPerPage, sortBy, orderBy, selectedCategory, selectedSubCategory, searchTerm, selectedDestacated, selectedVisible])
    ensures c.result.Normal? && IsListEnvelope(reply, "Ocurrió un error al actualizar el evento", c.result.value)
  {
    Call(Some(Request(GET, "/products", Query(["page", "itemsPerPage", "sortBy", "orderBy", "selectedCategory", "selectedSubCategory", "searchTerm", "selectedDestacated", "selectedVisible"], [page, itemsPerPage, sortBy, orderBy, selectedCategory, selectedSubCategory, searchTerm, selectedDestacated, selectedVisible]), JUndef)), Normal(ListEnvelope(reply, "Ocurrió un error al actualizar el evento")))
  }

  /** fetchFilters: GET `/categories/get-names` without parameters; list envelope. */
  function FetchFilters(reply: Outcome): (c: Call)
    ensures SendsOnly(c, GET, "/categories/get-names")
    ensures c.result.Normal? && IsListEnvelope(reply, "Ocurrió un error al actualizar el evento", c.result.value)
  {
    Call(Some(Request(GET, "/categories/get-names", JUndef, JUndef)), Normal(ListEnvelope(reply, "Ocurrió un error al actualizar el evento")))
  }

  /** updateProduct: PUT `/products/{productId}` with the data as body; update envelope. */
  function UpdateProduct(productId: Value, data: Value, reply: Outcome): (c: Call)
    ensures SendsBody(c, PUT, "/products/" + ToString(productId), data)
    ensures c.result.Normal? && IsUpdateEnvelope(reply, "Error al actualizar el producto", c.result.value)
  {
    Call(Some(Request(PUT, "/products/" + ToString(productId), JUndef, data)), Normal(UpdateEnvelope(reply, "Error al actualizar el producto")))
  }
}
