# Open-items gateway: filter query and route responses

This project models the router of a small HTTP gateway over one SQL Server
table, `[dbo].[SGFBL1NOPEN]`, which holds open ledger items. It has two parts.

- **`GET /filter`** (`filter_query.dfy`, module `FilterQuery`). The handler
  starts from a fixed `SELECT … WHERE 1=1`. For each of the optional
  query-string parameters `vendor`, `reference`, `cocd` and `pstngDate` that is
  present and non-empty, it appends one `AND` predicate naming the placeholder
  `@<name>` and declares one typed input bound to the request's text. The
  predicates always come in that fixed order. It then appends an
  `ORDER BY DocumentNo OFFSET … ROWS FETCH NEXT … ROWS ONLY` tail computed
  from `page` (default 1) and `limit` (default `Number.MAX_SAFE_INTEGER`).
  `BuildFilterQuery` is the imperative builder, with the same four guarded
  appends. It is proved equal to a reference definition, `QueryText` and
  `Inputs`: the selected filters in canonical order, the concatenated
  predicates and the bindings. The lemmas about that definition state:
  - what is bound;
  - in which order;
  - that every placeholder has exactly one binding;
  - that filter values never reach the statement text;
  - how the paging tail is rendered.
- **Responses** (`responses.dfy`, module `Responses`). Each handler awaits one
  store call and turns its outcome into a status and a body:
  - the listings answer 200, even when no rows match;
  - the two key lookups answer 404 with a fixed message exactly when no row
    matched;
  - create answers 201, and update and delete answer 200, whatever the
    statement reported;
  - every catch block answers 500 with the error's message.
  `HandleFilter` chains the builder, an abstract store call and the response
  mapping.

Supporting modules:
- `Wrappers`: `Option`, with `GetOr` for destructuring defaults.
- `Decimal`: the decimal rendering that a JavaScript template literal applies
  to a safe integer, with its parser and its round trip.
- `SqlText`: how `@name` placeholders are read out of statement text.

JavaScript truthiness is modelled for query-string values. A parameter is
absent when it is missing or is the empty string. Any other text is present,
including `"0"`. The destructuring defaults for `page` and `limit` apply only
when the key is missing (`Option.None`).

## Model

| member | source | states |
|---|---|---|
| FilterQuery.BuildFilterQuery | Routes/routes.js:21-54 | the statement built step by step by the four guarded appends and the paging tail is exactly `QueryText(p)`, and the declared inputs are exactly `Inputs(p)` |
| FilterQuery.QueryByFilter | Routes/routes.js:30-54 | the statement is the base text, then for vendor, reference, cocd, pstngDate in that order either that filter's predicate (when present) or nothing, then the paging tail |
| FilterQuery.InputsByFilter | Routes/routes.js:33-51 | the inputs are, in the same fixed order, one binding per present filter and nothing for an absent one |
| FilterQuery.PresentFiltersSpec | Routes/routes.js:33-51 | a filter contributes to the statement exactly when its parameter is present and non-empty, and the contributing filters are in canonical order |
| FilterQuery.InputsMatchFilters | Routes/routes.js:33-51 | the i-th input is the binding of the i-th contributing filter: its parameter name, its SQL type and the request's text |
| FilterQuery.InputCount | Routes/routes.js:33-51 | the number of declared inputs equals the number of present filters |
| FilterQuery.InputNamesDistinct | Routes/routes.js:35-50 | no input name is declared twice |
| FilterQuery.InputForFilter | Routes/routes.js:33-51 | an input named after a filter exists exactly when that filter is present; such an input has that filter's SQL type (Float for vendor and reference, NVarChar for cocd and pstngDate), and its value is the request's non-empty text |
| FilterQuery.PlaceholdersMatchInputs | Routes/routes.js:30-54 | the `@name` placeholders in the final statement are, in order, exactly the names of the declared inputs, so each placeholder is bound once and nothing unbound is referenced |
| FilterQuery.QueryIgnoresFilterValues | Routes/routes.js:33-51 | two requests with the same filters present and the same page and limit yield the same statement text, so filter values reach the database only as bound inputs |
| FilterQuery.CoCdValueOnlyBound | Routes/routes.js:43-46 | any non-empty company-code text, quotes included, leaves the statement unchanged and appears only as the NVarChar input `cocd` |
| FilterQuery.QueryShape | Routes/routes.js:30-54 | the statement starts with the fixed base `SELECT` and ends with the paging tail |
| FilterQuery.PredicateTexts | Routes/routes.js:34-49 | the four predicates are the exact texts the handler appends, placeholders included |
| FilterQuery.Truthy | Routes/routes.js:33-48 | the `if (vendor)`, `if (reference)`, `if (cocd)` and `if (pstngDate)` tests: a query-string value is falsy exactly when it is missing or empty, and `"0"` is truthy |
| FilterQuery.Page | Routes/routes.js:26 | the destructured `page`: 1 when the key is missing, otherwise the given value |
| FilterQuery.Limit | Routes/routes.js:27 | the destructured `limit`: `Number.MAX_SAFE_INTEGER` when the key is missing, otherwise the given value |
| FilterQuery.Tail | Routes/routes.js:54 | the paging clause starts with a space, so it never extends a placeholder name before it, and contains no `@`, so it references no input |
| FilterQuery.TailInjective | Routes/routes.js:54 | distinct offsets or limits give distinct paging clauses: the clause determines both numbers |
| FilterQuery.Offset | Routes/routes.js:53 | the first page has offset 0; from page 1 on, with a non-negative limit, the offset is never negative |
| FilterQuery.NextPageOffset | Routes/routes.js:53 | each next page starts exactly `limit` rows further on |
| FilterQuery.DefaultPaging | Routes/routes.js:26-27 | with neither page nor limit given, the tail offsets by 0 and fetches `Number.MAX_SAFE_INTEGER` rows |
| FilterQuery.MaxSafeIntegerText | Routes/routes.js:27 | the default limit is rendered as the text `9007199254740991` |
| FilterQuery.ParamNameInjective | Routes/routes.js:35-50 | distinct filters use distinct parameter names |
| Decimal.NatToDecimal | Routes/routes.js:54 | a non-negative value is rendered as a non-empty run of digits, with a leading `0` only for zero itself |
| Decimal.IntToDecimal | Routes/routes.js:54 | the rendering carries a leading `-` exactly for negative values and is otherwise made of digits |
| Decimal.DecimalRoundTrip | Routes/routes.js:54 | the digits rendered for a non-negative value read back as that value |
| Decimal.IntRoundTrip | Routes/routes.js:54 | parsing the rendering of any integer gives that integer back |
| Decimal.IntToDecimalInjective | Routes/routes.js:54 | different integers render as different texts |
| Responses.Listing | Routes/routes.js:7-13 | a listing answers 200 with the record set, even when it is empty, exactly when the query succeeded; otherwise it answers 500 with the error's message |
| Responses.Lookup | Routes/routes.js:71-75 | a key lookup answers 404 with its fixed message exactly when the query returned no row, 200 with the rows exactly when it returned some, and 500 with the message exactly when it failed |
| Responses.LookupByCoCd | Routes/routes.js:64-79 | `GET /cocd/:CoCd` answers 404 "Company code not found" exactly on an empty result, answers 200 with the rows otherwise, and answers 500 on failure |
| Responses.LookupByDocumentNo | Routes/routes.js:82-97 | `GET /:DocumentNo` answers 404 "Document not found" exactly on an empty result, answers 200 with the rows otherwise, and answers 500 on failure |
| Responses.Acknowledge | Routes/routes.js:142-145 | a statement whose result is not inspected answers its success status and fixed text once it ran, and answers 500 with the message exactly when it failed |
| Responses.Create | Routes/routes.js:142-145 | `POST /` answers 201 "Record inserted successfully" once the insert ran, and answers 500 exactly on failure |
| Responses.Update | Routes/routes.js:188-191 | `PUT /:DocumentNo` answers 200 "Record updated successfully" once the update ran, and answers 500 exactly on failure |
| Responses.Delete | Routes/routes.js:200-203 | `DELETE /:DocumentNo` answers 200 "Record deleted successfully" once the delete ran, and answers 500 exactly on failure |
| Responses.Respond | Routes/routes.js:6-204 | the mapping each of the seven routes applies: a store failure gives 500 with its message; a success gives 200, 201 or 404; and 201 only for `POST /` |
| Responses.StoreErrorIsServerError | Routes/routes.js:11-13 | every route turns a store failure into 500 with the error's message as the body |
| Responses.ServerErrorOnlyOnStoreError | Routes/routes.js:58-60 | a route answers 500 exactly when its store call failed |
| Responses.NotFoundOnlyForEmptyKeyLookup | Routes/routes.js:89-91 | 404 happens only on the two key lookups, and only on an empty record set |
| Responses.EmptyListingIsSuccess | Routes/routes.js:56-57 | `GET /` and `GET /filter` answer an empty result with 200 and an empty array |
| Responses.MutationIgnoresRowCount | Routes/routes.js:197-200 | create, update and delete answer the same whatever rows the statement returned or how many it touched, so a delete of a missing document still answers 200 |
| Responses.SuccessStatus | Routes/routes.js:71-200 | a route that succeeded answers 201 for create and 200 for every other route, except a key lookup that found no row (404) |
| Responses.HandleFilter | Routes/routes.js:17-61 | the filter handler sends the store exactly the built statement and inputs, answers with the listing of whatever the store returned, and its status is 200 or 500 |

## Left out

- `server.js` (the Express application, JSON body parsing, the listening port) is not part of this model.
- The connection pool, `poolPromise` and SQL execution are not modelled. The store is the `execute` parameter of `HandleFilter` and the `StoreResult` value given to each response function.
- What SQL Server then does is not modelled: the case-insensitive `LOWER(CoCd)` match, the row ordering, `OFFSET`/`FETCH` slicing, and the effects of `INSERT`, `UPDATE` and `DELETE`.
- Asynchrony (`await`) and interleaving of concurrent requests are not modelled; each handler is one sequential step.
- `FilterParams.page`/`FilterParams.limit`: taken as integers. The source passes the raw query text through JavaScript's numeric coercion. A non-numeric `page` or `limit` then makes the offset `NaN` and the statement invalid, which ends in the 500 path. The model does not capture that path.
- `FilterQuery.Tail`: the source interpolates `limit`'s raw query text into the statement. The model renders its integer value instead. So text such as `010` or `1e3` is not reproduced, and the injection surface of that interpolation is not modelled.
- `FilterQuery.Offset`: exact integer arithmetic. The source multiplies IEEE doubles, so offsets beyond 2^53 are rounded and those beyond 10^21 are rendered in exponent notation; neither is modelled.
- Repeated query parameters (which Express delivers as arrays) are not modelled; each parameter is a single string or missing.
- The driver's conversion of a bound value to `sql.Float` or `sql.NVarChar` is not modelled. A binding records its name, declared type and the request's text.
- The fixed statements and inputs of the other routes are not modelled (lines 9, 67-69, 85-87 and 197-199). Neither are the field-by-field bindings and statements of `POST /` and `PUT /:DocumentNo` (lines 103-141 and 151-187). For those routes only the response mapping is modelled.
- Express route matching order is not modelled: `/filter` and `/cocd/:CoCd` are declared before `/:DocumentNo`, so they take precedence. Each route is chosen explicitly by `Responses.Route`.
- `SqlText.IsIdentChar`: the placeholder scanner does not take `@` as a name character. (T-SQL admits `@` inside names, but no name here contains one.)
- `page` and `limit` are interpolated into the statement text, as the code does, so `FilterQuery.QueryIgnoresFilterValues` covers the four filters but not paging.
