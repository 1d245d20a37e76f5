/**
 * The fuel-card page's resource functions: the card list, two name lookups,
 * the product update, the monthly consumption report and the two PDF exports.
 */
module TarjetasPage {
  import opened Js
  import opened Http
  import opened Envelopes

  /** fetchCards: GET `/tarjetas-combustible` with the query parameters `page`, `itemsPerPage`, `search`, `chofer_id`, `tipo_combustible_id`, `activa`; list envelope. */
  function FetchCards(page: Value, itemsPerPage: Value, search: Value, chofer_id: Value, tipo_combustible_id: Value, activa: Value, reply: Outcome): (c: Call)
    ensures SendsQuery(c, GET, "/tarjetas-combustible", ["page", "itemsPerPage", "search", "chofer_id", "tipo_combustible_id", "activa"], [page, itemsPerPage, search, chofer_id, tipo_combustible_id, activa])
    ensures c.result.Normal? && IsListEnvelope(reply, "Ocurrió un error al actualizar el evento", c.result.value)
  {
    Call(Some(Request(GET, "/tarjetas-combustible", Query(["page", "itemsPerPage", "search", "chofer_id", "tipo_combustible_id", "activa"], [page, itemsPerPage, search, chofer_id, tipo_combustible_id, activa]), JUndef)), Normal(ListEnvelope(reply, "Ocurrió un error al actualizar el evento")))
  }

  /** fetchChoferNames: GET `/choferes/get-names` without parameters; list envelope. */
  function FetchChoferNames(reply: Outcome): (c: Call)
    ensures SendsOnly(c, GET, "/choferes/get-names")
    ensures c.result.Normal? && IsListEnvelope(reply, "Ocurrió un error al actualizar el evento", c.result.value)
  {
    Call(Some(Request(GET, "/choferes/get-names", JUndef, JUndef)), Normal(ListEnvelope(reply, "Ocurrió un error al actualizar el evento")))
  }

  /** fetchTipoCombustibleNames: GET `/tipo-combustibles/get-names` without parameters; list envelope. */
  function FetchTipoCombustibleNames(reply: Outcome): (c: Call)
    ensures SendsOnly(c, GET, "/tipo-combustibles/get-names")
    ensures c.result.Normal? && IsListEnvelope(reply, "Ocurrió un error al actualizar el evento", c.result.value)
  {
    Call(Some(Request(GET, "/tipo-combustibles/get-names", JUndef, JUndef)), Normal(ListEnvelope(reply, "Ocurrió un error al actualizar el evento")))
  }

  /** updateVehicle: PUT `/products/{vehicleId}` with the data as body; update envelope. */
  function UpdateVehicle(vehicleId: Value, data: Value, reply: Outcome): (c: Call)
    ensures SendsBody(c, PUT, "/products/" + ToString(vehicleId), data)
    ensures c.result.Normal? && IsUpdateEnvelope(reply, "Error al actualizar el producto", c.result.value)
  {
    Call(Some(Request(PUT, "/products/" + ToString(vehicleId), JUndef, data)), Normal(UpdateEnvelope(reply, "Error al actualizar el producto")))
  }

  /** fetchConsumoCombustibleReport: GET the monthly consumption report for `year` and `month`; update envelope. */
  function FetchConsumoCombustibleReport(year: Value, month: Value, reply: Outcome): (c: Call)
    ensures SendsQuery(c, GET, "/tarjetas-combustible/reportes/consumo-mes", ["year", "month"], [year, month])
    ensures c.result.Normal? && IsUpdateEnvelope(reply, "Ocurrió un error al generar el reporte.", c.result.value)
  {
    Call(Some(Request(GET, "/tarjetas-combustible/reportes/consumo-mes", Query(["year", "month"], [year, month]), JUndef)),
         Normal(UpdateEnvelope(reply, "Ocurrió un error al generar el reporte.")))
  }

  /** A GET of a PDF report for `year`, `month` and `tarjeta_id` (null when not given), ending in `result`. */
  function PdfReportCall(path: string, year: Value, month: Value, tarjeta_id: Value, result: Completion<Value>): (c: Call)
    ensures SendsQuery(c, GET, path, ["year", "month", "tarjeta_id"], [year, month, Default(tarjeta_id, JNull)])
    ensures tarjeta_id == JUndef ==> Get(c.request.value.params, "tarjeta_id") == JNull
    ensures c.result == result
  {
    Call(Some(Request(GET, path, Query(["year", "month", "tarjeta_id"], [year, month, Default(tarjeta_id, JNull)]), JUndef)), result)
  }

  /** exportConsumoCombustiblePDF: GET `/tarjetas-combustible/reportes/consumo-mes` for `year`, `month` and `tarjeta_id` (null when not given), expecting a PDF. */
  function ExportConsumoCombustiblePdf(year: Value, month: Value, tarjeta_id: Value, reply: Outcome, readJson: Value -> Parsed): (c: Call)
    ensures SendsQuery(c, GET, "/tarjetas-combustible/reportes/consumo-mes", ["year", "month", "tarjeta_id"], [year, month, Default(tarjeta_id, JNull)])
    ensures tarjeta_id == JUndef ==> Get(c.request.value.params, "tarjeta_id") == JNull
    ensures IsPdfExport(reply, readJson, c.result)
  {
    PdfReportCall("/tarjetas-combustible/reportes/consumo-mes", year, month, tarjeta_id, PdfExport(reply, readJson))
  }

  /** generateCdtPdfReport: GET `/vehiculos/reportes/cdt` for `year`, `month` and `tarjeta_id` (null when not given), expecting a PDF. */
  function GenerateCdtPdfReport(year: Value, month: Value, tarjeta_id: Value, reply: Outcome, readJson: Value -> Parsed): (c: Call)
    ensures SendsQuery(c, GET, "/vehiculos/reportes/cdt", ["year", "month", "tarjeta_id"], [year, month, Default(tarjeta_id, JNull)])
    ensures tarjeta_id == JUndef ==> Get(c.request.value.params, "tarjeta_id") == JNull
    ensures IsPdfExport(reply, readJson, c.result)
  {
    PdfReportCall("/vehiculos/reportes/cdt", year, month, tarjeta_id, PdfExport(reply, readJson))
  }
}
