# Sales API request pipeline, modelled in Dafny

This project models the request pipeline of the garage-sale service, a small
Go web API that serves products, the sales of each product, user tokens and a
health check. It models the Go code that decides control flow and outcomes:

- **Composition of middleware and dispatch.** `wrapMiddleware` and the `App`
  are modelled in `web_middleware.dfy` and `web_web.dfy`. The routes `API`
  registers are in `handlers_routes.dfy`.
- **Responses and errors.** `Respond` and `RespondError` are in
  `web_response.dfy`. The error values and `*web.Error` are in
  `web_errors.dfy`, and `Decode` is in `web_request.dfy`.
- **The middleware.** Logger, Errors, Metric, Authenticate and HasRoles are
  in the `middleware_*.dfy` files.
- **Authentication.** The claims and their time arithmetic are in
  `auth_roles.dfy`. The Authenticator and the token header are in
  `auth_auth.dfy`. User creation and login are in `user_user.dfy`.
- **The handlers.** They are in the `handlers_*.dfy` files.
- **The sales repository.** It is in `product_sales.dfy`, together with
  `strconv.Atoi`/`Itoa` in `strconv.dfy`.

A Go handler `func(ctx, w, r) error` becomes a Dafny function
`(Ctx, State, Request) -> Outcome`, and a middleware becomes a function from
handlers to handlers. The parts of the world a request can change are
threaded through each handler as one `State` value:

- the per-request `ContexValues` slot;
- the response writer, which follows Go's rules: the first `WriteHeader`
  wins, and `Write` sends 200 first;
- the service log;
- the three expvar counters;
- the sales and users tables.

Each layer's contract states exactly how it changes that state and which
error it returns.

What a library, the database or the clock answers during a request is a field
of `World`: jwt parsing and signing, bcrypt, uuid, `json.Marshal` of repository
values, the product repository, the SQL verdicts, `runtime.NumGoroutine` and
`time.Now`. The table methods take those answers as parameters instead: the
bcrypt hash, the uuid and the insert verdict of `UserTable.Create`, and the
uuid and the insert verdict of `SalesTable.AddSale`. No layer of the model
assigns the `World`. `Dispatch` passes on the `World` its handler leaves, and
keeps the one it was given when the handler does not change it.

Where the code updates objects in place, the model is imperative:

- `WrapMiddleware` runs the countdown loop and is proved equal to the fold
  `Wrap`.
- `App` is a class whose `Handle` updates its route map.
- `API` builds an `App` with nine `Handle` calls.
- The expvar counters are the `Counters` class.
- The sales and users tables are the `SalesTable` and `UserTable` classes.
- The `Decode` field loop is `CollectFieldErrors`.

Each of these methods is proved against the function that specifies it,
except `UserTable.Create`, whose contract states the new table directly.

Go's error identity is modelled directly. The package-level error variables
are `Sentinel` values, compared by identity. `errors.New` gives a `Plain`
error. `*web.Error` is `WebError`. `pkg/errors.Wrap` is `Wrapped`, and
`Cause` strips every `Wrapped` layer and stops at a `*web.Error`.

## Model

| member | source | states |
|---|---|---|
| WebErrors.NewRequestError | internal/platform/web/errors.go:20-22 | the result is a web error carrying exactly the given error and status, with an empty field map and the carried error's message, and it is its own cause |
| WebErrors.WebErrorMessage | internal/platform/web/errors.go:24-26 | a web error's message is the carried error's message, whatever the status and field messages |
| WebErrors.ErrorResponse.ToJson | internal/platform/web/errors.go:7-10 | the body is an object with `error`. `fields` is present iff the field map is non-empty, and then holds exactly one string per field. There are no other members |
| WebErrors.Cause | internal/platform/web/response.go:44 | the cause is never a wrapper. A web error, a plain error and a sentinel are their own cause, and the cause is a sub-term of the error |
| WebErrors.CauseOfWrap | internal/platform/web/response.go:44 | wrapping an error does not change its cause |
| WebMiddleware.WrapMiddleware | internal/platform/web/middleware.go:9-18 | the countdown loop that reassigns the handler returns the right fold `Wrap` of the list around the handler |
| WebMiddleware.WrapEmpty | internal/platform/web/middleware.go:9-17 | wrapping with an empty list returns the handler unchanged |
| WebMiddleware.WrapOutermost | internal/platform/web/middleware.go:10-13 | the first entry of the list becomes the outermost layer |
| WebMiddleware.WrapIsCompose | internal/platform/web/middleware.go:10-15 | nil entries are skipped, and every non-nil entry is applied exactly once, in list order, first outermost |
| WebMiddleware.WrapAllNil | internal/platform/web/middleware.go:12-14 | a list of nil entries leaves the handler unchanged |
| WebMiddleware.WrapAppend | internal/platform/web/middleware.go:9-17 | fold law: wrapping with `a + b` is wrapping with `b` and then with `a` |
| Web.URLParam | cmd/sales-api/internal/handlers/product.go:48 | a route parameter's value, or the empty string when the route has none |
| Web.Writer.SetHeader | internal/platform/web/response.go:30 | only the header map changes, and only at the given key |
| Web.Writer.WriteHeader | internal/platform/web/response.go:19-31 | the first call sends the status with the current headers. A later call changes nothing |
| Web.Writer.Write | internal/platform/web/response.go:33-35 | sends 200 first if nothing was sent. The data is appended to the body unless the connection fails, and then its error is returned |
| Web.Dispatch | internal/platform/web/web.go:56-66 | the chain runs with a fresh ContexValues (status 0, start = now) in a context without claims. An escaping error only adds an "Unhandled" log line and writes nothing. The World is the one the handler leaves, and is unchanged for a handler that keeps it |
| Web.DispatchIgnoresOldValues | internal/platform/web/web.go:57-61 | what an earlier request left in the values slot has no influence on a dispatch |
| Web.App.constructor | internal/platform/web/web.go:40-46 | NewApp keeps the app middleware in the given order and has no route |
| Web.App.Handle | internal/platform/web/web.go:49-69 | the route map gains exactly the given method and pattern, and nothing else changes. Its handler is `Wrap(app.mw + routeMw, h)`, so app layers run outside route layers |
| Web.App.ServeHTTP | internal/platform/web/web.go:71-73 | a registered pair is served by dispatching its handler. Any other pair is left to the router |
| WebResponse.Marshal | internal/platform/web/response.go:24 | the error, health and token bodies are encoded with exactly their members, and nil is `null` |
| WebResponse.Respond | internal/platform/web/response.go:12-38 | without ContexValues it returns ErrContextValueMissing and changes nothing. Otherwise it records the status before any write. 204 sends only the status line. A marshal failure sends 500 but keeps the recorded status. Success sets the JSON content type before the status and the body. A write failure is wrapped. The connection's failure is kept, and the headers gain only the JSON content type, only when a value was marshalled. On a writer that was already used, a head that was sent stays as it was, and the body grows only by a value that was marshalled and written. Only the slot and the writer change |
| WebResponse.ErrorStatus | internal/platform/web/response.go:44-57 | the status of the web error found by Cause, otherwise 500 |
| WebResponse.ErrorResponseOf | internal/platform/web/response.go:44-57 | the web error's message and field messages, otherwise "Internal Server Error" with no fields |
| WebResponse.RespondError | internal/platform/web/response.go:41-58 | responds with exactly that status and body |
| WebResponse.RespondErrorSends | internal/platform/web/response.go:41-58 | on a fresh, working connection, the client gets the error's status and JSON body, and that status is recorded |
| WebResponse.RespondErrorSeesThroughWraps | internal/platform/web/response.go:44 | a wrapped error gets the same answer as the error it wraps |
| WebResponse.ErrorTranslation | internal/platform/web/response.go:44-57 | a request error gets its own status and message with no fields. Any other error gets 500 with the generic text |
| WebRequest.BeforeComma | internal/platform/web/request.go:36 | a comma-free prefix of the tag that is either the whole tag or ends at its first comma |
| WebRequest.TagName | internal/platform/web/request.go:35-43 | the json name before the first comma. The name `-` gives the empty name |
| WebRequest.ReportedName | internal/platform/web/request.go:35-43 | a field is reported under its json name, or under its Go name when the tag gives none |
| WebRequest.FieldMapHasAll | internal/platform/web/request.go:61-64 | every failing field has an entry in the field map |
| WebRequest.FieldMapOnlyFailures | internal/platform/web/request.go:61-64 | every entry of the field map belongs to a failing field |
| WebRequest.FieldMapLastWins | internal/platform/web/request.go:61-64 | a name's message is the one of the last failure reported under it |
| WebRequest.CollectFieldErrors | internal/platform/web/request.go:61-64 | the `for range` loop builds exactly the field map |
| WebRequest.Decode | internal/platform/web/request.go:47-74 | a decode failure is a 400 request error without fields. Validation failures give a 400 error with "field validation error" and the field map. Another validator error is returned as is. Success iff both steps pass |
| WebRequest.BeforeCommaWhole | internal/platform/web/request.go:36 | a tag without a comma is its own name |
| WebRequest.BeforeCommaOptions | internal/platform/web/request.go:36 | `name,options` gives `name` |
| WebRequest.TagNameForms | internal/platform/web/request.go:35-43 | `name` and `name,opts` give `name`. `-` and `-,opts` give the empty name |
| AuthRoles.Unix | internal/platform/auth/roles.go:35-36 | the seconds are the floor of the nanosecond time |
| AuthRoles.NewClaims | internal/platform/auth/roles.go:30-39 | subject and roles are copied unchanged. `iat` is the floor of now, and `exp` is the floor of now + expires, both in seconds |
| AuthRoles.UnixShift | internal/platform/auth/roles.go:36 | adding whole seconds to a time moves its Unix seconds by exactly that many |
| AuthRoles.OneHourClaims | internal/platform/auth/roles.go:35-36 | one-hour claims expire exactly 3600 seconds after issue |
| AuthRoles.ExpiryNotBeforeIssue | internal/platform/auth/roles.go:35-36 | `exp >= iat` whenever the lifetime is not negative |
| Auth.NewSimpleKeyLookupFunc | internal/platform/auth/auth.go:27-37 | the lookup succeeds iff the kid is the active one, and then returns the key. Otherwise it gives the "unrecognized key id" error |
| Auth.SimpleLookupRoundTrip | internal/platform/auth/auth.go:28-34 | an authenticator built with the simple lookup finds the key exactly for the active kid |
| Auth.NewAuthenticator | internal/platform/auth/auth.go:48-83 | success iff the key is set, the kid is not blank, the algorithm is known and the lookup is set. The four checks run in that order and the first failure is reported. Fields are stored as given, and the parser accepts only the algorithm, so every authenticator it returns is `Built` |
| Auth.NewToken | internal/platform/auth/auth.go:87-89 | the token's header carries `typ`, `alg` and the active key id as `kid` |
| Auth.GenerateToken | internal/platform/auth/auth.go:86-97 | the result is the signature of that token with the private key. A signing failure is wrapped with "signing token" |
| AuthMiddleware.Split | internal/middleware/auth.go:24 | at least one piece, and no piece contains the separator |
| AuthMiddleware.SplitJoin | internal/middleware/auth.go:24 | joining the pieces gives the header back |
| AuthMiddleware.ToLower | internal/middleware/auth.go:25 | same length. Each ASCII capital becomes lower case, and everything else is kept |
| AuthMiddleware.BearerToken | internal/middleware/auth.go:24-30 | an accepted token contains no space and is shorter than the header |
| AuthMiddleware.BearerAccepts | internal/middleware/auth.go:24-30 | a space-free scheme spelling "bearer" in any case, one space and a space-free token is accepted, and the token is the text after the space |
| AuthMiddleware.BearerSound | internal/middleware/auth.go:24-30 | every accepted header is exactly such a scheme, one space and the token |
| AuthMiddleware.BearerRejects | internal/middleware/auth.go:24-25 | an empty header, a bare `Bearer`, a double space and another scheme are refused |
| AuthMiddleware.ServeAuthenticated | internal/middleware/auth.go:19-43 | a malformed header is a 401 and nothing runs. A token the parser rejects is a 401 carrying its error. Otherwise the inner handler runs once, with the claims in the context |
| AuthMiddleware.ServeWithRoles | internal/middleware/auth.go:48-69 | no claims gives a plain error, and claims without any of the roles give ErrForbidden. Otherwise the inner handler runs with the same context |
| AuthMiddleware.GateErrors | internal/middleware/auth.go:14-17 | ErrForbidden is a 403 request error with its message. The missing-claims error is not a request error |
| AuthMiddleware.SingleRoleGate | internal/middleware/auth.go:58-60 | with one required role, the gate opens exactly for claims that hold it |
| ErrorsMiddleware.ServeErrors | internal/middleware/errors.go:10-30 | a success passes through untouched. An error is logged once and answered by RespondError; it is swallowed unless answering failed |
| ErrorsMiddleware.ErrorsAnswers | internal/middleware/errors.go:15-23 | on a fresh, working connection the error is answered with its status and body, recorded, logged once and swallowed |
| ErrorsMiddleware.ErrorsAfterMarshalFailure | internal/middleware/errors.go:15-23 | after a handler's Respond failed to marshal its value, the client has the bare 500 head that went out (no JSON content type) followed by the generic error body. 500 is recorded, and the marshalling error is logged once and swallowed |
| ErrorsMiddleware.ErrorsWithoutValues | internal/middleware/errors.go:18-20 | when answering fails for lack of ContexValues, that failure is returned and nothing is written |
| LoggerMiddleware.ServeLogged | internal/middleware/logger.go:12-37 | the inner handler runs first. With ContexValues, one line with the recorded status, the method and the path is added, and the inner error passes on. Without them, nothing is logged and a new error replaces the inner one |
| LoggerMiddleware.ValuesMissingIsFresh | internal/middleware/logger.go:19-22 | Logger's missing-values error reads like ErrContextValueMissing but is a different value |
| MetricsVars.Tick | internal/middleware/metrics.go:29-37 | requests go up by one, errors go up by one iff the request failed, and the gauge is set only when the new count is a multiple of 100 |
| MetricsVars.TicksCount | internal/middleware/metrics.go:29-37 | over any run the request counter counts the requests and the error counter the failures. Neither counter decreases |
| MetricsVars.GaugeUntouchedBelow100 | internal/middleware/metrics.go:31-33 | below 100 requests the gauge is never sampled |
| MetricsVars.Counters.constructor | internal/middleware/metrics.go:11-19 | the three counters start at zero |
| MetricsVars.Counters.Observe | internal/middleware/metrics.go:29-37 | the counters change in place exactly as `Tick` says |
| MetricsMiddleware.ServeMetered | internal/middleware/metrics.go:22-47 | the inner handler's error is returned unchanged. Requests go up by one, errors go up iff there was an error, and nothing else changes |
| Strconv.Atoi | internal/product/sales.go:15 | accepts only an optional sign followed by decimal digits whose value fits in 64 bits, and returns that value |
| Strconv.AtoiItoa | internal/product/sales.go:46-55 | every 64-bit integer survives `Itoa` followed by `Atoi` |
| Strconv.AtoiRejects | internal/product/sales.go:15-18 | the empty string, a bare sign and any string with a non-digit after the sign are rejected |
| Sales.AddSaleTo | internal/product/sales.go:14-42 | a bad id gives ErrInvalidId and inserts nothing. The new row carries the parsed id, the quantity, the paid amount, the generated id and now. It is appended iff the database accepts it, and otherwise the insert error is wrapped |
| Sales.ForProduct | internal/product/sales.go:53 | exactly the rows of the product |
| Sales.ListSalesOf | internal/product/sales.go:45-59 | a bad id gives ErrInvalidId, and a failing select is wrapped with the id. Otherwise the result is exactly the product's sales, possibly none |
| Sales.ForProductCount | internal/product/sales.go:53 | the selection holds every row of the product exactly as often as the table does, and no other row |
| Sales.ForProductAppend | internal/product/sales.go:53 | an added row extends a product's list iff it is a sale of that product |
| Sales.ForProductTwo | internal/product/sales.go:53 | two rows added to a product without sales are its whole list, each once, in no promised order |
| Sales.TwoSalesListed | internal/product/sales.go:14-59 | two sales added to a product that had none are exactly what ListSales returns for it, each once, in no promised order |
| Sales.SalesTable.AddSale | internal/product/sales.go:14-42 | the table and the result change exactly as `AddSaleTo` says |
| Users.FindByEmail | internal/platform/user/user.go:59-63 | a user is found iff one has the email, and the one found has it |
| Users.SelectUser | internal/platform/user/user.go:59-69 | a query error is reported as is, and no matching row is sql.ErrNoRows |
| Users.Authenticate | internal/platform/user/user.go:58-77 | success iff the user is found and the password matches. An unknown email and a wrong password both give ErrAuthenticationFailure. Other database errors are wrapped. The claims have the user's id and roles, `iat` = floor(now) and `exp` = `iat` + 3600 |
| Users.AuthenticationFailureIsUniform | internal/platform/user/user.go:63-73 | an unknown email and a wrong password give the same error |
| Users.UserTable.Create | internal/platform/user/user.go:20-53 | a hashing failure is wrapped and nothing is inserted. An insert error is returned as is and the table is unchanged. Otherwise the row is appended, with name, email and roles copied, the hash and not the password, and both dates set to now |
| ProductHandlers.MatchPredefinedErrors | cmd/sales-api/internal/handlers/product.go:23-34 | ErrNotFound, ErrInvalidId and ErrForbidden become request errors with 404, 400 and 403. Nothing else is matched |
| ProductHandlers.Translate | cmd/sales-api/internal/handlers/product.go:52-56 | the matched request error, or the error wrapped with what the handler was doing |
| ProductHandlers.TranslateStatus | cmd/sales-api/internal/handlers/product.go:52-56 | the client sees 404, 400 and 403 for the three product errors, and 500 for any other error that is not a web error |
| ProductHandlers.WrappedSentinelNotMatched | cmd/sales-api/internal/handlers/product.go:24 | matching is by identity, so a wrapped product error is not matched |
| ProductHandlers.List | cmd/sales-api/internal/handlers/product.go:37-44 | a repository failure is returned as is. Otherwise it responds 200 with the list |
| ProductHandlers.Retrieve | cmd/sales-api/internal/handlers/product.go:47-60 | failures are translated with "looking for product id". Otherwise it responds 200 |
| ProductHandlers.Create | cmd/sales-api/internal/handlers/product.go:63-81 | claims are checked before the body. A repository failure is returned as is. Otherwise it responds 201 |
| ProductHandlers.UpdateProduct | cmd/sales-api/internal/handlers/product.go:84-107 | claims are checked before the body. Failures are translated with "updating product id". Otherwise it responds 200 |
| ProductHandlers.DeleteProduct | cmd/sales-api/internal/handlers/product.go:110-118 | a repository failure is returned untranslated. Otherwise it responds 204 with no body |
| ProductHandlers.AddSale | cmd/sales-api/internal/handlers/product.go:122-141 | the body is decoded before the id is looked at. The sale goes into the table and is answered with 201. Failures are translated and leave the table unchanged |
| ProductHandlers.ListSales | cmd/sales-api/internal/handlers/product.go:144-157 | the product's sales are answered with 200. Failures are translated |
| ProductHandlers.OkStatuses | cmd/sales-api/internal/handlers/product.go:37-157 | List, Retrieve, UpdateProduct and ListSales record 200 when they succeed |
| ProductHandlers.CreatedStatuses | cmd/sales-api/internal/handlers/product.go:63-141 | Create and AddSale record 201 when they succeed |
| ProductHandlers.DeleteStatus | cmd/sales-api/internal/handlers/product.go:110-118 | DeleteProduct records 204 when it succeeds and sends no body |
| ProductHandlers.AddSaleReportsBodyFirst | cmd/sales-api/internal/handlers/product.go:122-131 | a bad body is reported even when the id is bad too, and nothing changes |
| ProductHandlers.AddSaleFailures | cmd/sales-api/internal/handlers/product.go:129-138 | a bad id is a 400. An insert the database refuses is a 500, and the table is unchanged |
| UserHandlers.Token | cmd/sales-api/internal/handlers/user.go:25-56 | missing values give ErrContextValueMissing, and missing Basic credentials a 401. Authentication uses the request's start time. ErrAuthenticationFailure is a 401, and other failures are wrapped with "auth". A signing failure is wrapped. Otherwise it responds 200 with the token |
| UserHandlers.TokenIssued | cmd/sales-api/internal/handlers/user.go:36-55 | a good login gets 200 and `{"token": t}`, where t signs one-hour claims for the user issued at the start time, under the active kid. For an authenticator NewAuthenticator built, that kid is not blank and the algorithm is one jwt knows |
| UserHandlers.TokenRefusals | cmd/sales-api/internal/handlers/user.go:38-40 | an unknown email and a wrong password get the same 401 |
| UserHandlers.TokenDatabaseFailure | cmd/sales-api/internal/handlers/user.go:41-42 | a database failure is wrapped twice and becomes a 500 |
| CheckHandlers.Health | cmd/sales-api/internal/handlers/check.go:18-30 | it responds with "OK" and 200, or with "db not ready" and 500 when the database check fails. With ContexValues and a working connection it returns no error |
| CheckHandlers.HealthKeepsWorld | cmd/sales-api/internal/handlers/check.go:18-30 | the health check never changes the World, so neither does its dispatch |
| CheckHandlers.HealthAnswers | cmd/sales-api/internal/handlers/check.go:23-29 | on a fresh connection the client gets that status and `{"status": ...}` |
| RouteKeys.TableEntries | cmd/sales-api/internal/handlers/routes.go:17-45 | the nine method and pattern pairs are distinct, and each finds its own handler |
| Routes.AppMiddleware | cmd/sales-api/internal/handlers/routes.go:14 | three app-wide layers, none nil |
| Routes.API | cmd/sales-api/internal/handlers/routes.go:13-48 | a new App whose middleware is Logger, Errors, Metric and whose route map is exactly the nine routes with their middleware |
| Routes.NineRoutes | cmd/sales-api/internal/handlers/routes.go:17-45 | exactly nine routes are registered, each under its own pair |
| Routes.AppLayers | cmd/sales-api/internal/handlers/routes.go:14 | every route is Logger(Errors(Metric(route layers around the handler))) |
| Routes.AuthenticatedLayers | cmd/sales-api/internal/handlers/routes.go:31 | a route with Authenticate runs it right inside Metric |
| Routes.OpenChains | cmd/sales-api/internal/handlers/routes.go:17-24 | health and token have only the app-wide layers |
| Routes.ProductChains | cmd/sales-api/internal/handlers/routes.go:31-37 | list, create, retrieve and update run Authenticate right inside the app-wide layers |
| Routes.SalesChains | cmd/sales-api/internal/handlers/routes.go:44-45 | the two sales routes run Authenticate right inside the app-wide layers |
| Routes.DeleteChain | cmd/sales-api/internal/handlers/routes.go:39-42 | DELETE is Logger, Errors, Metric, Authenticate, HasRoles(ADMIN), then the handler |
| Routes.LayersAnswerError | cmd/sales-api/internal/handlers/routes.go:14 | an error from inside the app layers is answered with its status and body, logged once, counted, recorded in the access line, and not passed to the dispatcher |
| Routes.DeleteNeedsAdmin | cmd/sales-api/internal/handlers/routes.go:39-42 | DELETE with a valid token without ADMIN answers 403 and never deletes. It logs an error line and then an access line with 403, and counts one failure |
| Routes.HealthOk | cmd/sales-api/internal/handlers/routes.go:17 | a healthy service answers `{"status": "OK"}` with 200, logs 200 and counts one request and no failure |
| Routes.ProductsNeedBearer | cmd/sales-api/internal/handlers/routes.go:31 | a product request without a well-formed bearer header answers 401 with the format message, and the handler never runs |

## Left out

- **I/O and process entry points.** Real I/O, the process entry points and
  the database plumbing are outside the model. The log is a sequence of
  entries; the elapsed time in access lines and the `log.Logger` prefix are
  not modelled.
- **Concurrency.** Requests are served one at a time. The atomicity of the
  expvar counters and any interleaving of requests are not modelled.
- **State shared by pointer.** The `*ContexValues` pointer, the response
  writer and the tables are threaded through the pipeline as one state value,
  not updated in place. Dafny function values cannot change the heap, so
  the `*ContexValues` that all layers share is represented only by that
  threading.
- **chi routing.** URL matching, 404 and 405 answers and `URLParam`
  extraction are not modelled. `App.ServeHTTP` returns no state for an
  unregistered pair; the matched pattern and the parameters are part of the
  request.
- **Nil values.** A nil authenticator passed to `API` and a nil
  `Users.authenticator` are not modelled.
- **Claims.HasRoles.** Its body is not part of this model. It is modelled as
  "the claims hold at least one of the roles", as its documentation says.
- **ParseClaims.** jwt parsing and signing, bcrypt, uuid generation and
  `json.Marshal` of repository values are inputs given by `World`.
- **JSON decoder and validator.** The go-playground validator and
  translator are inputs too. The validator's use of the Go field name when
  the tag function returns "" is taken as the library's behaviour.
- **Product repository.** `product.List`, `Retrieve`, `Create`, `Update` and
  `Delete` are not part of this model. Their answers are inputs and the
  product table does not change.
- **Product sentinel texts.** The texts of `product.ErrNotFound`,
  `ErrInvalidId` and `ErrForbidden` are not part of this model; each reads as
  its variable's name.
- **Error message formatting.**
  - `%q` escaping of the key id is not modelled; the id is put between
    quotes.
  - The `%v` text of the sale in "inserting sales: %v" is left out: the
    wrapped message is "inserting sales".
- **Case folding.** `strings.ToLower` is modelled for ASCII letters only.
- **Writer details.** Content sniffing, automatic `Content-Length` and the
  byte encoding of bodies are not modelled: a body is a sequence of JSON
  values.
- ProductHandlers.DeleteProduct: the `ON DELETE CASCADE` that removes a
  product's sales with the product is not modelled. The sales table is not
  changed by a delete, so sales of a deleted product stay listed in the model.
- Sales.ForProduct: the SELECT of a product's sales has no ORDER BY, but it is
  modelled as returning the rows in insertion order. The lemmas about listed
  sales (`ForProductTwo`, `TwoSalesListed`) promise the rows only up to order.
- **RETURNING \*.** `RETURNING *` in the sales insert is modelled as
  returning the inserted row.
- **Counter overflow.** The 64-bit wrap-around of the expvar counters is not
  modelled.
- Auth.NewToken: the `typ` and `alg` header values are the ones jwt sets, not
  values the service computes. The signing itself is an input.
- MetricsMiddleware.ServeMetered: `internal/middleware/metrics.go` is written
  against the older two-argument handler signature. Its counter logic is
  modelled against the three-argument `web.Handler`.
- MetricsMiddleware.ServeMetered: the gauge reads `runtime.NumGoroutine` from
  the `World`, so it is the same for every request in one state.
