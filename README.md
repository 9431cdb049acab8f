# E-commerce API and storefront core, modelled in Dafny

This project models the request-handling core of an e-commerce system. The
system has an Express/Sequelize REST API of which the repository holds two
generations: the `server/` tree and the older `src/` tree. It also has a
React storefront client. The Dafny model covers these parts:

- **Query builders** (`ApiFeatures`). Each one turns a request's query
  string into a Sequelize options object:
  - `paginate` sets `offset = (page-1)*limit` and `limit`;
  - `sort` reads a leading `-` as descending;
  - `search` installs a `%term%` LIKE / ILIKE filter.

  The server builder has a column allow-list. The `src` builder has none,
  and matches case-insensitively.
- **`ApiError`**. The status word is `"fail"` exactly when the decimal text
  of the code starts with `4`, and `"error"` otherwise.
- **The three global error handlers**. Each one maps an error to a JSON
  response. A code or status that is missing or zero/empty falls back to
  500 and `"error"`. For a Sequelize `"Validation error"`, the handler
  reports the first nested message.
- **The generic CRUD controller factory**, in its `.ts` and `.js` variants.
  It works over a mutable table of records keyed by `id`.
- **The `protect` and `allowedTo` authentication middlewares**.
- **The client route guard** `ProtectedRoute`.
- **The client `CartContext`**:
  - the derived item count and displayed total;
  - the operations that call the cart service and update the provider's
    state.

Mutable objects are Dafny classes whose methods are proved against
specification functions of the old state. This covers:

- the builders' `whereClause`;
- the controller's table;
- the request's `user`;
- the cart provider's `cart`/`loading`/`error`;
- the log of requests sent to the cart service.

The pure rules are functions with lemmas.

Code outside the model is passed in as parameters (oracles):

| oracle | stands for |
|---|---|
| `Records.Database` | Sequelize's `findAll` |
| `Auth.Verifier` | `jwt.verify` |
| `CartContext.Server` | the cart service's HTTP backend |

JavaScript truthiness is written out explicitly:

- `Option` stands for `undefined`/`null`;
- `""` stands for an empty query parameter;
- a zero total counts as falsy.

Files:

| file | module | models |
|---|---|---|
| `common.dfy` | `Common` | shared `Option`/`Result`, the error value, truthiness helpers |
| `api_error.dfy` | `ApiErrors` | `server/src/utils/apiError.ts` |
| `error_handler.dfy` | `ErrorHandlers` | the three `errorHandler` middlewares |
| `query_clause.dfy` | `QueryClause` | the query/options shapes, `paginate` and `sort` |
| `server_api_features.dfy` | `ServerApiFeatures` | `server/src/utils/apiFeatures.ts` |
| `src_api_features.dfy` | `SrcApiFeatures` | `src/utils/apiFeatures.js` |
| `records.dfy` | `Records` | records, responses, `record.update` |
| `controller_factory_ts.dfy` | `TsControllers` | `src/controllers/controllerFactory.ts` |
| `controller_factory_js.dfy` | `JsControllers` | `src/controllers/controllerFactory.js` |
| `controllers_errors.dfy` | `ControllerErrors` | controller errors as they reach the client |
| `auth.dfy` | `Auth` | `src/middlewares/auth.ts` |
| `protected_route.dfy` | `ProtectedRoute` | `client/src/components/auth/ProtectedRoute.tsx` |
| `cart_context.dfy` | `CartContext` | `client/src/contexts/CartContext.tsx` |

Behaviours of the code worth noting, all modelled as written:

- The `.js` controller's `create` answers with the bare record, not the
  `{status, data}` envelope.
- The `.js` `findAll` sends no `results` count and ignores the query string.
- A missing row is a 400 `"fail"` from the `.ts` factory, but a 500
  `"error"` from the `.js` factory, whose plain `Error` has no status code.
- The `.js` error handler always answers 500, whatever the error carries.
- `"fail"` is decided by the first character of the code's decimal text, so
  codes such as 4, 42 or 4000 are `"fail"` too. `ApiErrors.FailCodes` states
  the exact set.

## Model

| member | source | states |
|---|---|---|
| ApiErrors.NewApiError | server/src/utils/apiError.ts:2-7 | the error keeps the given code and message, has no nested errors, and its status is "fail" exactly when the code is non-negative with leading decimal digit 4, "error" otherwise |
| ApiErrors.StatusFor | server/src/utils/apiError.ts:6 | the status word is "fail" iff the code's leading digit is 4, and it is always "fail" or "error" |
| ApiErrors.DecimalTextRoundTrip | server/src/utils/apiError.ts:6 | the decimal text the status test inspects reads back as the same code, so the test is about the number itself |
| ApiErrors.LeadingDigitInRange | server/src/utils/apiError.ts:6 | any number from d·10^k up to (d+1)·10^k has leading digit d |
| ApiErrors.LeadingDigitRange | server/src/utils/apiError.ts:6 | every positive number lies in the decade range of its own leading digit |
| ApiErrors.FailCodes | server/src/utils/apiError.ts:6 | status is "fail" iff 4·10^k ≤ code < 5·10^k for some k |
| ApiErrors.ClientErrorsFail | server/src/utils/apiError.ts:6 | every code 400–499 yields "fail" |
| ApiErrors.OtherCodesError | server/src/utils/apiError.ts:6 | every other three-digit code (1xx, 2xx, 3xx, 5xx and up to 999) yields "error" |
| ErrorHandlers.ServerErrorHandlerResponse | server/src/middlewares/errorHandler.ts:9-17 | the response code is the error's code when that is present and non-zero and 500 otherwise, the status is the error's status when non-empty and "error" otherwise; the message is the error's message or, for a validation error, the first nested message, and the error itself; the handler fails exactly on a validation error with no nested items |
| ErrorHandlers.HandlersAgree | src/middlewares/errorHandler.ts:2-9 | the src .ts handler answers exactly as the server one without the `error` field, and the .js one with the same message but code 500 and "error"; all three fail on the same inputs |
| ErrorHandlers.JsErrorHandlerResponse | src/middlewares/errorHandler.js:2-6 | every response is 500 "error" with the message rule above, and it fails exactly on a validation error with no nested items |
| ErrorHandlers.ApiErrorResponse | server/src/middlewares/errorHandler.ts:9-16 | an ApiError with a non-zero code reaches the client with its own code, "fail"/"error" status and message |
| ErrorHandlers.PlainErrorResponse | src/middlewares/errorHandler.ts:2-8 | a plain Error without code or status is reported by all three handlers as 500 "error" with its message |
| ErrorHandlers.ServerErrorHandler | server/src/middlewares/errorHandler.ts:9-17 | the handler fails exactly on a validation error with no nested items; every response it writes has a non-zero code, a non-empty status word and the error object in its body |
| ErrorHandlers.SrcErrorHandler | src/middlewares/errorHandler.ts:2-9 | the handler fails exactly on a validation error with no nested items; every response has a non-zero code, a non-empty status word and no error field |
| ErrorHandlers.JsErrorHandler | src/middlewares/errorHandler.js:2-6 | the handler fails exactly on a validation error with no nested items; every response is 500 "error" with no error field |
| QueryClause.OrderFor | server/src/utils/apiFeatures.ts:25-29 | the order has one term, which is descending exactly when the sort parameter starts with "-", and names the column after the "-" or the parameter as given |
| QueryClause.SortRoundTrip | server/src/utils/apiFeatures.ts:25-29 | the sort parameter can be read back from the order it produced, and "-c" means column c descending |
| QueryClause.PagesTile | server/src/utils/apiFeatures.ts:13-17 | for page ≥ 1 and limit > 0 the offset is non-negative, page p+1 starts where page p ends, and each row index lies on exactly one page |
| QueryClause.PaginateSortCommute | src/utils/apiFeatures.js:9-30 | paging and sorting touch disjoint keys: they commute, each is idempotent, and each leaves the other keys alone |
| ServerApiFeatures.ApiFeatures.constructor | server/src/utils/apiFeatures.ts:4-7 | the builder keeps the request query and starts from an empty options object |
| ServerApiFeatures.ApiFeatures.Paginate | server/src/utils/apiFeatures.ts:11-20 | returns the same builder, with the options updated by pagination of the old options |
| ServerApiFeatures.ApiFeatures.Sort | server/src/utils/apiFeatures.ts:22-32 | returns the same builder, with the options updated by the sort rule |
| ServerApiFeatures.ApiFeatures.Search | server/src/utils/apiFeatures.ts:34-48 | returns the same builder, with the options updated by the allow-listed search rule |
| ServerApiFeatures.SearchEffect | server/src/utils/apiFeatures.ts:35-47 | search is a no-op unless the column is allowed and the term non-empty, and then installs exactly the `%term%` LIKE on that column, keeping paging and order |
| ServerApiFeatures.BuilderKeepsClauseSafe | server/src/utils/apiFeatures.ts:35-36 | no builder method ever makes the options filter on a column outside the allow-list |
| ServerApiFeatures.SearchPatternWrapsTerm | server/src/utils/apiFeatures.ts:41-45 | the LIKE pattern is the search term with one `%` on each side |
| ServerApiFeatures.BuildClause | server/src/utils/apiFeatures.ts:4-48 | chaining search, paginate, sort on a fresh builder gives the composition of the three rules, and the result is safe |
| SrcApiFeatures.ApiFeatures.constructor | src/utils/apiFeatures.js:4-7 | the builder keeps the request query and starts from an empty options object |
| SrcApiFeatures.ApiFeatures.Paginate | src/utils/apiFeatures.js:9-18 | returns the same builder, with the options updated by pagination |
| SrcApiFeatures.ApiFeatures.Sort | src/utils/apiFeatures.js:20-30 | returns the same builder, with the options updated by the sort rule |
| SrcApiFeatures.ApiFeatures.Search | src/utils/apiFeatures.js:32-43 | returns the same builder, with the options updated by the unrestricted search rule |
| SrcApiFeatures.SearchEffect | src/utils/apiFeatures.js:33-41 | search is a no-op unless both term and column are non-empty, and then installs the `%term%` ILIKE on the named column, keeping paging and order |
| SrcApiFeatures.NoAllowList | src/utils/apiFeatures.js:33-40 | a column off the server's allow-list (e.g. "password") is filtered by this builder but ignored by the server one |
| SrcApiFeatures.BuildersAgreeOnAllowedColumns | src/utils/apiFeatures.js:36-40 | on an allowed column with a term, both builders filter the same column with the same pattern, one with LIKE, one with ILIKE |
| SrcApiFeatures.BuildClause | src/controllers/controllerFactory.ts:38-39 | `search().paginate().sort()` on a fresh builder gives the composition of the three rules |
| Records.Updated | src/controllers/controllerFactory.ts:81 | after `record.update(data)` the given attributes hold their new values, every other attribute keeps its old value, and no attribute is lost |
| TsControllers.ControllerFactory.constructor | src/controllers/controllerFactory.ts:8-10 | the factory works on the given table |
| TsControllers.ControllerFactory.Create | src/controllers/controllerFactory.ts:13-19 | a new key is stored and answered with 201 and the record in an envelope; a taken key raises the unique-constraint error and changes nothing |
| TsControllers.ControllerFactory.FindOne | src/controllers/controllerFactory.ts:22-34 | always 200 "success"; the data is the row for a present key and null for a missing one |
| TsControllers.ControllerFactory.FindAll | src/controllers/controllerFactory.ts:37-48 | the database is queried with the options built from the query string, and `results` is the number of rows returned |
| TsControllers.ControllerFactory.UpdateOneHelper | src/controllers/controllerFactory.ts:62-83 | a present row is merged with the data and returned; a missing key fails with ApiError 400 "Record Not Found" and changes nothing |
| TsControllers.ControllerFactory.UpdateOne | src/controllers/controllerFactory.ts:51-60 | 200 with the updated row, or the helper's error raised with the table unchanged |
| TsControllers.ControllerFactory.DeleteOne | src/controllers/controllerFactory.ts:86-104 | a present row is removed and returned with 200; a missing key raises ApiError 400 and changes nothing |
| TsControllers.OtherRowsUntouched | src/controllers/controllerFactory.ts:62-98 | updating or deleting one key leaves the presence and attributes of every other key unchanged |
| TsControllers.NotFoundIsClientFailure | src/controllers/controllerFactory.ts:69-71 | the missing-row error carries 400, "fail" and "Record Not Found" |
| TsControllers.CreateThenFindOne | src/controllers/controllerFactory.ts:13-34 | creating a row under a fresh key and then finding that key returns the stored body |
| TsControllers.UpdateDeleteThenFindOne | src/controllers/controllerFactory.ts:51-104 | after an update, find returns the merged row; after a delete, find returns null and a second delete raises not-found |
| JsControllers.ControllerFactory.constructor | src/controllers/controllerFactory.js:5-7 | the factory works on the given table |
| JsControllers.ControllerFactory.Create | src/controllers/controllerFactory.js:10-13 | a new key is stored and answered with 201 and the bare record; a taken key raises the unique-constraint error and changes nothing |
| JsControllers.ControllerFactory.FindOne | src/controllers/controllerFactory.js:16-28 | always 200 "success"; the data is the row for a present key and null for a missing one |
| JsControllers.ControllerFactory.FindAll | src/controllers/controllerFactory.js:31-37 | the database is queried with empty options and the rows are sent without a count |
| JsControllers.ControllerFactory.UpdateOneHelper | src/controllers/controllerFactory.js:51-64 | a present row is merged with the data and returned; a missing key fails with a plain Error "Record Not Found" and changes nothing |
| JsControllers.ControllerFactory.UpdateOne | src/controllers/controllerFactory.js:40-49 | 200 with the updated row, or the helper's error raised with the table unchanged |
| JsControllers.ControllerFactory.DeleteOne | src/controllers/controllerFactory.js:67-85 | a present row is removed and returned with 200; a missing key raises a plain Error and changes nothing |
| JsControllers.CreateThenFindOne | src/controllers/controllerFactory.js:10-28 | creating a row under a fresh key and then finding it returns the stored body |
| ControllerErrors.MissingRowResponses | src/controllers/controllerFactory.js:58-60 | through the src error handler, a missing row is 400 "fail" from the .ts factory and 500 "error" from the .js factory, with the message "Record Not Found" in both |
| ControllerErrors.DuplicateKeyResponse | src/middlewares/errorHandler.ts:7-8 | a duplicate key on create reaches the client as 500 "error" with the nested validation message |
| Auth.SplitJoin | src/middlewares/auth.ts:13 | splitting on a separator and joining the fields with it gives back the text, and no field contains the separator |
| Auth.TokenIsFirstWordAfterPrefix | src/middlewares/auth.ts:11-13 | the token is the text after "Bearer " up to the next space or the end, and contains no space |
| Auth.TokenRoundTrip | src/middlewares/auth.ts:11-13 | a space-free token sent as "Bearer <token>" passes the prefix test and is read back exactly |
| Auth.Token | src/middlewares/auth.ts:11-13 | the token read from a "Bearer " header contains no space |
| Auth.Authenticate | src/middlewares/auth.ts:11-41 | a header that is missing or lacks the "Bearer " prefix gives ApiError 401 with the login message, and a successful authentication yields one of the stored users |
| Auth.Protect | src/middlewares/auth.ts:7-45 | `protect` never throws; it attaches the authenticated user and calls next(), or passes the authentication error to next(err) leaving the request's user unchanged |
| Auth.AllowedTo | src/middlewares/auth.ts:47-55 | next() exactly for a user whose role is listed; an unlisted role throws ApiError 403, and a request without a user throws a TypeError |
| Auth.MissingBearerIsUnauthorized | src/middlewares/auth.ts:11-41 | a missing header, or one without the exact, case-sensitive "Bearer " prefix, fails with 401 "fail" and the login message |
| Auth.AuthenticateSucceedsExactly | src/middlewares/auth.ts:11-35 | authentication succeeds iff the header is a Bearer header, the token verifies, and its id names a user, who is the one attached; a deleted user is 401 "fail" |
| Auth.ForbiddenIsClientFailure | src/middlewares/auth.ts:50-53 | a refused role check throws an error carrying 403 and "fail" |
| Auth.ProtectThenAllowedTo | src/middlewares/auth.ts:7-55 | `protect` then `allowedTo(roles)` lets a request through iff it authenticates as a user whose role is listed, and `protect` forwards an error iff authentication fails |
| ProtectedRoute.DecideCases | client/src/components/auth/ProtectedRoute.tsx:15-31 | spinner iff loading; login redirect iff loaded and unauthenticated; unauthorized redirect iff a role is required that the user neither has nor overrides as admin; otherwise the page, each as an if-and-only-if |
| ProtectedRoute.AdminAndUnrestrictedPass | client/src/components/auth/ProtectedRoute.tsx:27-31 | an authenticated admin passes every role requirement, and without a requirement every authenticated user gets the page |
| ProtectedRoute.AgreesWithAllowedTo | client/src/components/auth/ProtectedRoute.tsx:27 | for an authenticated user, the client guard admits exactly when the server's `allowedTo(role, "admin")` calls next() |
| ProtectedRoute.Decide | client/src/components/auth/ProtectedRoute.tsx:15-31 | anything but the spinner means loading is over; the page is rendered only to an authenticated user, and to one who is logged in whenever a role is required; every redirect goes to the login or the unauthorized page |
| CartContext.ReduceIsSum | client/src/contexts/CartContext.tsx:37-40 | the fold yields its start value plus the sum of the quantities |
| CartContext.CartItemsCountIsTotalQuantity | client/src/contexts/CartContext.tsx:36-40 | the item count is the total quantity, 0 without a cart or items, and additive over any split of the item list |
| CartContext.CountCoversLines | client/src/contexts/CartContext.tsx:37-40 | with every quantity at least 1, the count is at least the number of lines |
| CartContext.CartItemsCount | client/src/contexts/CartContext.tsx:36-40 | the count is the sum of the quantities of the cart's items (the reference sum, not the fold) |
| CartContext.TotalPrice | client/src/contexts/CartContext.tsx:41 | the displayed total is 0 without a cart, and otherwise 0 or one of the cart's two totals |
| CartContext.TotalPriceFallsBack | client/src/contexts/CartContext.tsx:41 | the total is the non-zero discounted total, else the cart total, else 0, and is always one of those values |
| CartContext.CartService.Request | client/src/contexts/CartContext.tsx:54 | each request is appended to the log and answered by the server given the earlier requests |
| CartContext.CartProvider.constructor | client/src/contexts/CartContext.tsx:30-33 | the provider starts with no cart, not loading and no error |
| CartContext.CartProvider.FetchCart | client/src/contexts/CartContext.tsx:44-63 | signed out it drops the cart and sends nothing; signed in it sends one cart request and installs the reply, or no cart and the error message, with loading off afterwards |
| CartContext.CartProvider.AddToCart | client/src/contexts/CartContext.tsx:66-83 | state, completion and requests sent equal the add-to-cart specification step |
| CartContext.CartProvider.UpdateQuantity | client/src/contexts/CartContext.tsx:86-108 | state, completion and requests equal the update specification: a removal for quantities ≤ 0, else one update request |
| CartContext.CartProvider.RemoveItem | client/src/contexts/CartContext.tsx:111-129 | state, completion and requests equal the removal specification: a delete followed by a re-fetch |
| CartContext.CartProvider.ClearCart | client/src/contexts/CartContext.tsx:132-149 | state, completion and requests equal the clear specification, which leaves no cart on success |
| CartContext.CartProvider.ApplyCoupon | client/src/contexts/CartContext.tsx:152-169 | state, completion and requests equal the apply-coupon specification step |
| CartContext.CartProvider.AuthChanged | client/src/contexts/CartContext.tsx:172-179 | signing in fetches the cart; signing out drops the cart and the error and sends nothing |
| CartContext.SignedOutSendsNothing | client/src/contexts/CartContext.tsx:67-69 | signed out, every mutating operation rejects with its own login message, sends nothing and leaves the state alone; fetch only drops the cart |
| CartContext.NonPositiveQuantityRemoves | client/src/contexts/CartContext.tsx:91-94 | updating to a quantity ≤ 0 is exactly a removal and never sends an update request |
| CartContext.SuccessInstallsServerCart | client/src/contexts/CartContext.tsx:74-75 | a successful add, update or coupon installs the server's cart and clears the error |
| CartContext.FailureRecordsAndRethrows | client/src/contexts/CartContext.tsx:76-82 | a failed request keeps the cart, records the server's message or the fixed default as the error, and rejects with that same non-empty message after sending one request |
| CartContext.RemoveRefetchesClearEmpties | client/src/contexts/CartContext.tsx:119-121 | a successful removal sends the delete and then one fetch, ends with the fetched cart (or none and the fetch error) and loading off; a successful clear leaves no cart |
| CartContext.SignedOutSession | client/src/contexts/CartContext.tsx:66-155 | a signed-out client that tries every operation sends no request, every mutating operation rejects, and the count stays 0 |

## Left out

- Database semantics are not modelled. How Sequelize filters, orders and pages rows is left to the `Records.Database` parameter. `Op.like` and `Op.iLike` matching and actual SQL are not modelled.
- Query-string parsing is taken as given. `Number()` coercion of `page` and `limit` is assumed done: they arrive as integers or absent, so `NaN` and fractional values are not modelled.
- Prices are integers. Floating-point totals are not modelled.
- Errors raised by Express's own middleware are not modelled. An example is `express.json()` rejecting a malformed (400) or oversized (413) body with an `http-errors` error. Its `status` is a number, which `err.status || "error"` passes through into the response body. `Common.ErrorValue` holds only string statuses.
- ErrorHandlers.ServerErrorHandler: the model answers with any non-zero code. Node's `res.status(c)` throws for a code outside 100–999, so an error such as `new ApiError(4000, m)` crashes the real handler; `ErrorHandlers.SrcErrorHandler` has the same gap. The controllers and middlewares modelled here raise only 400, 401 and 403.
- Status codes, pages and limits are unbounded integers here, not IEEE doubles. `ApiErrors.DecimalText` is JavaScript's `${n}` only for |n| < 10^21; from there on JavaScript writes exponent form (`${4e23}` is "4e+23"). `ApiErrors.FailCodes` therefore describes the program only for safe integers, which covers every HTTP code.
- Records.Updated: `Attrs` stands for a row's stored model attributes only. Sequelize's `set` drops keys that are not model attributes, and `update` also moves `updatedAt`; neither the attribute filtering nor the timestamp is modelled, so "every given key holds its new value" is a property of the model's schema-free table.
- TsControllers.ControllerFactory.Create: stores the request body as given. The model's defaults are not modelled: generated UUID ids, `role: "user"`, `active: true`. Neither are its hooks, its `createdAt`/`updatedAt` timestamps, or the dropping of body keys that are not attributes. So "find returns the stored body" (`TsControllers.CreateThenFindOne`) holds for bodies holding exactly the stored attributes.
- JsControllers.ControllerFactory.Create: as for the .ts `Create`. The defaults, hooks, timestamps and attribute filtering of `model.create` are not modelled, and neither is the id the database assigns; `JsControllers.CreateThenFindOne` inherits this.
- CartContext.CartProvider.AuthChanged: models one change of `isAuthenticated` (the hook's dependency). A re-run with an unchanged flag is excluded by its precondition. The run on mount is a signed-out construction followed by this call.
- `jwt.verify` is the `Auth.Verifier` parameter. Signatures, expiry and crypto are not modelled. The library's own errors carry no status code, so under the handlers they become 500 responses.
- The database lookups inside `protect` are a map of users. Lookup failures are not modelled, except the undefined-id rejection.
- `next()` after the error handlers have responded is not modelled. It is Express plumbing with no effect on the response the model describes.
- The handlers' `console.log` and `console.error` calls are not modelled. They produce output only.
- `TsControllers.ControllerFactory.UpdateOneHelper` does not model deleting the record's old image file (`fs.unlink` with an ignored callback). It is file-system I/O, and its `catch` cannot fire for the asynchronous call.
- The unused `model` parameter of both `updateOneHelper`s is not modelled. The code reads `this.model` instead.
- `Create` models the primary key as given by the database. Sequelize validation errors other than a duplicate key are not modelled.
- `UpdateOneHelper` does not model a `data` that changes the primary key. Database errors raised by `update` and `destroy` are not modelled either.
- `Auth.AllowedTo` models the synchronous throw as an outcome. Express forwarding that throw to the error handler is not modelled.
- The message text of the TypeError is V8's. It is fixed in `Auth.NoUserError` for illustration only.
- React rendering is not modelled: JSX markup, the spinner's appearance, `Navigate`'s `replace` history semantics.
- React's asynchronous state batching is not modelled. Operations overlapping in time and a stale `isAuthenticated` captured by `useCallback` are not modelled either. Each cart operation runs to completion with the current flag.
- The cart service's transport and the server-side cart logic are the `CartContext.Server` parameter.
- `src/utils/apiError` is not part of this model. The `src` tree imports it, and it is taken to behave as `server/src/utils/apiError.ts`.
- The other controllers, routes, validators, models, image upload and e-mail are not part of this model.
