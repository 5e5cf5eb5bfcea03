/**
 * The documents and replies the scraper sees, after the browser's HTML parser
 * and CSS selectors have done their part. A cell is the trimmed
 * `textContent` of one `td`; a row lists its cells left to right; a table
 * lists the rows its `tbody tr` selector finds, in document order.
 */
module Markup {
  import opened Wrappers

  type Row = seq<string>
  type Table = seq<Row>

  /** The listing page, reduced to the rows of `#studentEvaluation-grid table` if that table exists. */
  datatype ListingPage = ListingPage(mainTable: Option<Table>)

  /** The `#finalEval` container, reduced to the first row of its first `table tbody`, if there is one. */
  datatype FinalEval = FinalEval(firstRow: Option<Row>)

  /** A course's detail popup: the `#finalEval` container if present, and every table of the document. */
  datatype DetailPage = DetailPage(finalEval: Option<FinalEval>, tables: seq<Table>)

  /** What `fetch` gives back: a response with its status and parsed body, or a rejected request. */
  datatype Reply<T> = Http(status: nat, body: T) | NetworkFailure(message: string)

  /** `response.ok`: the status is in the 200-299 range. */
  predicate IsOk<T>(reply: Reply<T>) {
    reply.Http? && 200 <= reply.status <= 299
  }
}
