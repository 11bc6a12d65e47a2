/**
 * What each route sends back once its store call has settled. The store is
 * abstract: a call either yields a result (the rows of a query, the number
 * of rows a statement touched) or fails with a message. Each handler turns
 * that outcome into an HTTP status and a body.
 */
module Responses {
  import opened FilterQuery

  /** One row of `[dbo].[SGFBL1NOPEN]`, an open ledger item, as the store returns it. */
  datatype OpenItem = OpenItem(
    itemType: string,
    vendor: real,
    documentNo: real,
    clrngDoc: string,
    reference: real,
    purDoc: string,
    coCd: string,
    documentHeaderText: string,
    docDate: string,
    profitCtr: string,
    pstngDate: string,
    netDueDt: string,
    curr: string,
    amtInLocCur: string,
    clearing: string,
    pBk: string,
    withTaxBaseAmount: string,
    withholdingTaxAmnt: string)

  /** The settled store call: its record set and affected-row count, or the error's message. */
  datatype StoreResult =
    | Ok(recordset: seq<OpenItem>, rowsAffected: nat)
    | Err(message: string)

  /** A JSON array of rows (`res.json`) or a text body (`res.send`). */
  datatype Body = Json(rows: seq<OpenItem>) | Text(text: string)

  datatype Response = Response(status: nat, body: Body)

  const NOT_FOUND_COCD: string := "Company code not found"
  const NOT_FOUND_DOCUMENT: string := "Document not found"
  const INSERTED: string := "Record inserted successfully"
  const UPDATED: string := "Record updated successfully"
  const DELETED: string := "Record deleted successfully"

  /**
   * `GET /` and `GET /filter`: the rows the statement selected, even none,
   * with status 200, or the store's error.
   */
  function Listing(r: StoreResult): (resp: Response)
    ensures r.Err? ==> resp == Response(500, Text(r.message))
    ensures r.Ok? <==> resp.status == 200
    ensures r.Ok? ==> resp.body == Json(r.recordset)
  {
    match r
    case Ok(rows, _) => Response(200, Json(rows))
    case Err(msg) => Response(500, Text(msg))
  }

  /** The key lookups: 404 with `notFound` exactly when nothing matched, else the rows unchanged. */
  function Lookup(r: StoreResult, notFound: string): (resp: Response)
    ensures r.Err? ==> resp == Response(500, Text(r.message))
    ensures resp.status == 404 <==> r.Ok? && r.recordset == []
    ensures resp.status == 404 ==> resp.body == Text(notFound)
    ensures resp.status == 200 <==> r.Ok? && r.recordset != []
    ensures resp.status == 200 ==> resp.body == Json(r.recordset)
  {
    match r
    case Ok(rows, _) => if |rows| == 0 then Response(404, Text(notFound)) else Response(200, Json(rows))
    case Err(msg) => Response(500, Text(msg))
  }

  /** `GET /cocd/:CoCd`. */
  function LookupByCoCd(r: StoreResult): (resp: Response)
    ensures resp.status == 404 <==> r.Ok? && r.recordset == []
    ensures resp.status == 404 ==> resp.body == Text("Company code not found")
    ensures resp.status == 200 <==> r.Ok? && r.recordset != []
    ensures resp.status == 200 ==> resp.body == Json(r.recordset)
    ensures r.Err? ==> resp == Response(500, Text(r.message))
  {
    Lookup(r, NOT_FOUND_COCD)
  }

  /** `GET /:DocumentNo`. */
  function LookupByDocumentNo(r: StoreResult): (resp: Response)
    ensures resp.status == 404 <==> r.Ok? && r.recordset == []
    ensures resp.status == 404 ==> resp.body == Text("Document not found")
    ensures resp.status == 200 <==> r.Ok? && r.recordset != []
    ensures resp.status == 200 ==> resp.body == Json(r.recordset)
    ensures r.Err? ==> resp == Response(500, Text(r.message))
  {
    Lookup(r, NOT_FOUND_DOCUMENT)
  }

  /** A statement whose result is not inspected: `status` with `ack` on success. */
  function Acknowledge(r: StoreResult, status: nat, ack: string): (resp: Response)
    requires status != 500
    ensures r.Err? ==> resp == Response(500, Text(r.message))
    ensures r.Ok? ==> resp == Response(status, Text(ack))
  {
    match r
    case Ok(_, _) => Response(status, Text(ack))
    case Err(msg) => Response(500, Text(msg))
  }

  /** `POST /`: 201 once the insert has run. */
  function Create(r: StoreResult): (resp: Response)
    ensures r.Ok? ==> resp == Response(201, Text("Record inserted successfully"))
    ensures r.Err? ==> resp == Response(500, Text(r.message))
  {
    Acknowledge(r, 201, INSERTED)
  }

  /** `PUT /:DocumentNo`: 200 once the update has run, however many rows it changed. */
  function Update(r: StoreResult): (resp: Response)
    ensures r.Ok? ==> resp == Response(200, Text("Record updated successfully"))
    ensures r.Err? ==> resp == Response(500, Text(r.message))
  {
    Acknowledge(r, 200, UPDATED)
  }

  /** `DELETE /:DocumentNo`: 200 once the delete has run, however many rows it removed. */
  function Delete(r: StoreResult): (resp: Response)
    ensures r.Ok? ==> resp == Response(200, Text("Record deleted successfully"))
    ensures r.Err? ==> resp == Response(500, Text(r.message))
  {
    Acknowledge(r, 200, DELETED)
  }

  /** The seven routes of the router. */
  datatype Route = ListAllRoute | FilterRoute | CoCdRoute | DocumentNoRoute | CreateRoute | UpdateRoute | DeleteRoute

  /** The response mapping each route applies to the outcome of its store call. */
  function Respond(route: Route, r: StoreResult): (resp: Response)
    ensures r.Err? ==> resp == Response(500, Text(r.message))
    ensures r.Ok? ==> resp.status in {200, 201, 404}
    ensures resp.status == 201 ==> route == CreateRoute
  {
    match route
    case ListAllRoute => Listing(r)
    case FilterRoute => Listing(r)
    case CoCdRoute => LookupByCoCd(r)
    case DocumentNoRoute => LookupByDocumentNo(r)
    case CreateRoute => Create(r)
    case UpdateRoute => Update(r)
    case DeleteRoute => Delete(r)
  }

  predicate IsKeyLookup(route: Route) {
    route == CoCdRoute || route == DocumentNoRoute
  }

  /** Every route reports a store failure the same way: 500 with the error's message. */
  lemma StoreErrorIsServerError(route: Route, msg: string)
    ensures Respond(route, Err(msg)) == Response(500, Text(msg))
  {
  }

  /** A route answers 500 only for a store failure. */
  lemma ServerErrorOnlyOnStoreError(route: Route, r: StoreResult)
    ensures Respond(route, r).status == 500 <==> r.Err?
  {
  }

  /** Not-found is reserved to the two key lookups, and to the empty record set. */
  lemma NotFoundOnlyForEmptyKeyLookup(route: Route, r: StoreResult)
    ensures Respond(route, r).status == 404 <==> IsKeyLookup(route) && r.Ok? && r.recordset == []
  {
  }

  /** The listings never answer not-found: an empty result is an empty array with 200. */
  lemma EmptyListingIsSuccess(route: Route, n: nat)
    requires route == ListAllRoute || route == FilterRoute
    ensures Respond(route, Ok([], n)) == Response(200, Json([]))
  {
  }

  /** Create, update and delete answer the same whatever the statement returned or touched. */
  lemma MutationIgnoresRowCount(route: Route, rows1: seq<OpenItem>, n1: nat, rows2: seq<OpenItem>, n2: nat)
    requires route == CreateRoute || route == UpdateRoute || route == DeleteRoute
    ensures Respond(route, Ok(rows1, n1)) == Respond(route, Ok(rows2, n2))
  {
  }

  /** The success status of each route. */
  lemma SuccessStatus(route: Route, r: StoreResult)
    requires r.Ok? && !(IsKeyLookup(route) && r.recordset == [])
    ensures Respond(route, r).status == (if route == CreateRoute then 201 else 200)
  {
  }

  /**
   * The whole `GET /filter` handler: build the statement and its inputs,
   * hand them to the store (`execute`, which stands for the connection
   * pool and the database), and map the outcome.
   */
  method HandleFilter(p: FilterParams, execute: (string, seq<Binding>) -> StoreResult) returns (resp: Response)
    ensures resp == Listing(execute(QueryText(p), Inputs(p)))
    ensures resp.status == 200 || resp.status == 500
  {
    var query, inputs := BuildFilterQuery(p);
    var result := execute(query, inputs);
    resp := Listing(result);
  }
}
