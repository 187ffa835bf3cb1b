/** internal/platform/web/web.go: the request state a handler sees, the
    handler and middleware types, the App that registers composed handlers,
    and the per-request dispatch.

    A handler is a function from the request context, the state of the world
    it may change and the request to an Outcome (the new state and the error it
    returned). The state gathers what Go shares by pointer or holds globally:
    the per-request ContexValues slot, the response writer, the log, the expvar
    counters and the two tables. Everything the program asks of a library or
    the database is a field of `World`, which no layer of the model assigns. */
module Web {
  import opened Wrappers
  import opened JsonValues
  import opened WebErrors
  import opened AuthRoles
  import opened Auth
  import opened Sales
  import opened Users
  import opened WebRequest
  import opened WebMiddleware
  import MetricsVars

  const StatusOK := 200
  const StatusCreated := 201
  const StatusNoContent := 204
  const StatusBadRequest := 400
  const StatusUnauthorized := 401
  const StatusForbidden := 403
  const StatusNotFound := 404
  const StatusInternalServerError := 500

  /** ContexValues: the status recorded for the request and when it started
      (nanoseconds). */
  datatype ContexValues = ContexValues(statusCode: int, start: int)

  /** The request context: whether the ContexValues pointer was stored under
      KeyValues, and the claims stored under auth.Key, if any. */
  datatype Ctx = Ctx(hasValues: bool, claims: Option<Claims>)

  /** The decoder's and validator's verdicts on the request body, for each
      type a handler decodes it into. */
  datatype Body = Body(newProduct: Decoded<Json>, productUpdate: Decoded<Json>, newSale: Decoded<NewSale>)

  /** An incoming request: the route pattern the router matched and the URL
      parameters it extracted, the Authorization header ("" when absent), the
      Basic credentials if the header carries them, and the body. Go derives
      `basicAuth` from the same Authorization header; the two fields are
      assumed consistent and nothing here checks it. */
  datatype Request = Request(
    verb: string,
    pattern: string,
    path: string,
    authorization: string,
    basicAuth: Option<(string, string)>,
    params: map<string, string>,
    body: Body)

  /** chi.URLParam: the empty string when the route has no such parameter. */
  function URLParam(r: Request, key: string): (v: string)
    ensures key in r.params ==> v == r.params[key]
    ensures key !in r.params ==> v == ""
  {
    if key in r.params then r.params[key] else ""
  }

  /** The status line and the headers as they were when they went out. */
  datatype Head = Head(status: int, header: map<string, string>)

  /** An http.ResponseWriter: the header map, what was sent, the body chunks
      written, and the error the connection gives on a write, if it fails. */
  datatype Writer = Writer(header: map<string, string>, sent: Option<Head>, body: seq<Json>, failure: Option<Err>) {

    /** Nothing has been sent yet. */
    predicate Fresh()
    {
      sent.None? && body == []
    }

    /** w.Header().Set: only the header map changes; once the head is sent the
        change no longer reaches the client. */
    function SetHeader(key: string, value: string): (w: Writer)
      ensures w.header == header[key := value]
      ensures w.sent == sent && w.body == body && w.failure == failure
    {
      this.(header := header[key := value])
    }

    /** w.WriteHeader: the first call sends the status with the current
        headers; a later call is superfluous and changes nothing. */
    function WriteHeader(code: int): (w: Writer)
      ensures sent.None? ==> w.sent == Some(Head(code, header))
      ensures sent.Some? ==> w.sent == sent
      ensures w.header == header && w.body == body && w.failure == failure
    {
      if sent.Some? then this else this.(sent := Some(Head(code, header)))
    }

    /** w.Write: sends 200 first if no status was sent; the data reaches the
        client unless the connection fails, in which case its error is returned.
        net/http refuses a body after a 204 head (ErrBodyNotAllowed); this model
        does not, and no handler writes a body after 204. */
    function Write(data: Json): (res: (Writer, Option<Err>))
      ensures res.1 == failure
      ensures sent.Some? ==> res.0.sent == sent
      ensures sent.None? ==> res.0.sent == Some(Head(StatusOK, header))
      ensures failure.None? ==> res.0.body == body + [data]
      ensures failure.Some? ==> res.0.body == body
      ensures res.0.header == header && res.0.failure == failure
    {
      var w := WriteHeader(StatusOK);
      if failure.Some? then (w, failure) else (w.(body := body + [data]), None)
    }
  }

  /** A line of the service log. */
  datatype LogEntry =
    | Access(status: int, verb: string, path: string)   // Logger
    | ErrorLine(err: Err)                                  // Errors: "ERROR: %v"
    | Unhandled(err: Err)                                  // App: "ERROR: Unhandled error: %v"

  /** The two tables the service writes and reads. */
  datatype Db = Db(sales: seq<Sale>, users: seq<User>)

  /** Values handed to Respond. */
  datatype Value =
    | NoValue                     // nil
    | ErrorBody(resp: ErrorResponse)
    | HealthBody(status: string)  // struct { Status string `json:"status"` }
    | TokenBody(token: string)    // struct { Token string `json:"token"` }
    | Record(record: Json)        // a product or list of products from the repository
    | SaleValue(sale: Sale)
    | SalesValue(sales: seq<Sale>)

  /** What the libraries, the clock and the database answer during a request. */
  datatype World = World(
    dispatchTime: int,                                      // time.Now() when dispatching
    handlerTime: int,                                       // time.Now() inside a handler
    goroutines: int,                                        // runtime.NumGoroutine()
    parseClaims: (Authenticator, string) -> Result<Claims, Err>,
    sign: Signer,
    statusCheck: Option<Err>,                               // database.StatusCheck
    listProducts: Result<Json, Err>,
    retrieveProduct: string -> Result<Json, Err>,
    createProduct: (Claims, Json, int) -> Result<Json, Err>,
    updateProduct: (Claims, string, Json, int) -> Result<Json, Err>,
    deleteProduct: string -> Option<Err>,
    saleId: string,                                         // uuid.New()
    insertSale: Inserter,
    selectSalesErr: Option<Err>,
    selectUserErr: Option<Err>,
    passwordMatches: PasswordCheck,                         // bcrypt
    marshal: Value -> Result<Json, Err>)                    // json.Marshal of repository values

  /** Everything a handler can change, plus the World it consults. */
  datatype State = State(
    values: ContexValues,
    writer: Writer,
    log: seq<LogEntry>,
    vars: MetricsVars.Vars,
    db: Db,
    world: World)

  /** What a handler leaves behind: the new state and the error it returned. */
  datatype Outcome = Outcome(st: State, err: Option<Err>)

  type Handler = (Ctx, State, Request) -> Outcome
  type Middleware = Handler -> Handler

  /** A handler that leaves the World as it found it. */
  ghost predicate KeepsWorld(h: Handler)
  {
    forall ctx: Ctx, st: State, r: Request :: h(ctx, st, r).st.world == st.world
  }

  /** The function App.Handle registers for a route: a fresh ContexValues with
      no status and the current time as start goes into a fresh context (no
      claims); an error that escapes the whole chain is only logged, and
      nothing is written to the client on its behalf. */
  function Dispatch(h: Handler, r: Request, st: State): (out: State)
    ensures var o := h(Ctx(true, None), st.(values := ContexValues(0, st.world.dispatchTime)), r);
      out.writer == o.st.writer && out.values == o.st.values && out.vars == o.st.vars &&
      out.db == o.st.db &&
      out.log == o.st.log + (if o.err.Some? then [Unhandled(o.err.value)] else []) &&
      out.world == o.st.world
    ensures KeepsWorld(h) ==> out.world == st.world
  {
    var o := h(Ctx(true, None), st.(values := ContexValues(0, st.world.dispatchTime)), r);
    if o.err.Some? then o.st.(log := o.st.log + [Unhandled(o.err.value)]) else o.st
  }

  /** Each dispatch starts from its own ContexValues: whatever an earlier
      request left in the slot has no influence. */
  lemma DispatchIgnoresOldValues(h: Handler, r: Request, st: State, stale: ContexValues)
    ensures Dispatch(h, r, st.(values := stale)) == Dispatch(h, r, st)
  {
    assert st.(values := stale).(values := ContexValues(0, st.world.dispatchTime))
        == st.(values := ContexValues(0, st.world.dispatchTime));
  }

  /** App: the app-wide middleware and the router's table from a method and a
      route pattern to the composed handler registered for it. */
  class App {
    const mw: seq<Option<Middleware>>
    var routes: map<(string, string), Handler>

    /** NewApp: keeps the app middleware in the order given; no route yet. */
    constructor (mw: seq<Option<Middleware>>)
      ensures this.mw == mw && routes == map[]
    {
      this.mw := mw;
      routes := map[];
    }

    /** Handle: wraps the route middleware around the handler first and the
        app middleware around that, so app-wide layers run outside route
        layers, and registers the result under exactly this method and pattern. */
    method Handle(verb: string, pattern: string, h: Handler, routeMw: seq<Option<Middleware>>)
      modifies this
      ensures routes == old(routes)[(verb, pattern) := Wrap(mw + routeMw, h)]
    {
      var inner := WrapMiddleware(routeMw, h);
      var outer := WrapMiddleware(mw, inner);
      WrapAppend(mw, routeMw, h);
      routes := routes[(verb, pattern) := outer];
    }

    /** ServeHTTP: the registered handler for the matched route runs through
        Dispatch; a request for no registered route is left to the router. */
    function ServeHTTP(r: Request, st: State): (res: Option<State>)
      reads this
      ensures res.Some? <==> (r.verb, r.pattern) in routes
      ensures res.Some? ==> res.value == Dispatch(routes[(r.verb, r.pattern)], r, st)
    {
      if (r.verb, r.pattern) in routes then Some(Dispatch(routes[(r.verb, r.pattern)], r, st)) else None
    }
  }
}
