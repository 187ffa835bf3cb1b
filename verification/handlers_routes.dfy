/** The route keys of cmd/sales-api/internal/handlers/routes.go: the nine
    method and pattern pairs, each mapped to its own handler. Generic in the
    handler type. */
module RouteKeys {
  /** The router's table for nine handlers, one per registered method and
      pattern. */
  function Table<H>(hs: seq<H>): map<(string, string), H>
    requires |hs| == 9
  {
    map[]
      [("GET", "/v1/health") := hs[0]]
      [("GET", "/v1/user/token") := hs[1]]
      [("GET", "/v1/products") := hs[2]]
      [("POST", "/v1/products") := hs[3]]
      [("GET", "/v1/products/{id}") := hs[4]]
      [("PATCH", "/v1/products/{id}") := hs[5]]
      [("DELETE", "/v1/products/{id}") := hs[6]]
      [("POST", "/v1/products/{product_id}/sales") := hs[7]]
      [("GET", "/v1/products/{product_id}/sales") := hs[8]]
  }

  /** The nine pairs are distinct, so no registration overwrites another and
      each pair finds its own handler. */
  lemma TableEntries<H>(hs: seq<H>)
    requires |hs| == 9
    ensures |Table(hs)| == 9
    ensures Table(hs)[("GET", "/v1/health")] == hs[0]
    ensures Table(hs)[("GET", "/v1/user/token")] == hs[1]
    ensures Table(hs)[("GET", "/v1/products")] == hs[2]
    ensures Table(hs)[("POST", "/v1/products")] == hs[3]
    ensures Table(hs)[("GET", "/v1/products/{id}")] == hs[4]
    ensures Table(hs)[("PATCH", "/v1/products/{id}")] == hs[5]
    ensures Table(hs)[("DELETE", "/v1/products/{id}")] == hs[6]
    ensures Table(hs)[("POST", "/v1/products/{product_id}/sales")] == hs[7]
    ensures Table(hs)[("GET", "/v1/products/{product_id}/sales")] == hs[8]
  {
  }

}

/** cmd/sales-api/internal/handlers/routes.go: the App the service runs, with
    its app-wide middleware and its nine routes. */
module Routes {
  import opened Wrappers
  import opened JsonValues
  import opened WebErrors
  import AuthRoles
  import opened Auth
  import opened WebMiddleware
  import opened Web
  import opened WebResponse
  import MetricsVars
  import opened LoggerMiddleware
  import opened ErrorsMiddleware
  import opened MetricsMiddleware
  import opened AuthMiddleware
  import opened ProductHandlers
  import opened UserHandlers
  import opened CheckHandlers
  import opened RouteKeys

  /** The app-wide middleware: Logger, Errors, Metric, outermost first. */
  function AppMiddleware(): (mw: seq<Option<Middleware>>)
    ensures |mw| == 3 && forall i :: 0 <= i < 3 ==> mw[i].Some?
  {
    [Some(Logger), Some(Errors), Some(Metric)]
  }

  /** A route as App.Handle composes it. */
  function Route(routeMw: seq<Option<Middleware>>, h: Handler): Handler
  {
    Wrap(AppMiddleware() + routeMw, h)
  }

  /** The router's table after API: each method and pattern pair with the
      handler composed for it. */
  function RouteTable(a: Authenticator): map<(string, string), Handler>
  {
    map[]
      [("GET", "/v1/health") := Route([], Health)]
      [("GET", "/v1/user/token") := Route([], TokenHandler(a))]
      [("GET", "/v1/products") := Route([Some(Authenticate(a))], List)]
      [("POST", "/v1/products") := Route([Some(Authenticate(a))], Create)]
      [("GET", "/v1/products/{id}") := Route([Some(Authenticate(a))], Retrieve)]
      [("PATCH", "/v1/products/{id}") := Route([Some(Authenticate(a))], UpdateProduct)]
      [("DELETE", "/v1/products/{id}") :=
         Route([Some(Authenticate(a)), Some(HasRoles([AuthRoles.RoleAdmin]))], DeleteProduct)]
      [("POST", "/v1/products/{product_id}/sales") := Route([Some(Authenticate(a))], AddSale)]
      [("GET", "/v1/products/{product_id}/sales") := Route([Some(Authenticate(a))], ListSales)]
  }

  /** API: builds the App with the app-wide middleware and registers the nine
      routes, each with its own middleware. */
  method API(a: Authenticator) returns (app: App)
    ensures fresh(app)
    ensures app.mw == AppMiddleware()
    ensures app.routes == RouteTable(a)
  {
    app := new App(AppMiddleware());
    var authn := [Some(Authenticate(a))];
    app.Handle("GET", "/v1/health", Health, []);
    app.Handle("GET", "/v1/user/token", TokenHandler(a), []);
    app.Handle("GET", "/v1/products", List, authn);
    app.Handle("POST", "/v1/products", Create, authn);
    app.Handle("GET", "/v1/products/{id}", Retrieve, authn);
    app.Handle("PATCH", "/v1/products/{id}", UpdateProduct, authn);
    app.Handle("DELETE", "/v1/products/{id}", DeleteProduct, [Some(Authenticate(a)), Some(HasRoles([AuthRoles.RoleAdmin]))]);
    app.Handle("POST", "/v1/products/{product_id}/sales", AddSale, authn);
    app.Handle("GET", "/v1/products/{product_id}/sales", ListSales, authn);
  }

  /** The composed handlers, in the order API registers them. */
  function RouteHandlers(a: Authenticator): (hs: seq<Handler>)
    ensures |hs| == 9
  {
    [Route([], Health), Route([], TokenHandler(a)), Route([Some(Authenticate(a))], List),
     Route([Some(Authenticate(a))], Create), Route([Some(Authenticate(a))], Retrieve),
     Route([Some(Authenticate(a))], UpdateProduct),
     Route([Some(Authenticate(a)), Some(HasRoles([AuthRoles.RoleAdmin]))], DeleteProduct),
     Route([Some(Authenticate(a))], AddSale), Route([Some(Authenticate(a))], ListSales)]
  }

  /** No registration overwrites another: the table holds exactly nine routes,
      each pair with the handler registered for it. */
  lemma NineRoutes(a: Authenticator)
    ensures |RouteTable(a)| == 9
    ensures RouteTable(a) == Table(RouteHandlers(a))
  {
    TableEntries(RouteHandlers(a));
  }

  /** The app-wide layers around a handler, outermost first. */
  lemma {:induction false} AppLayers(routeMw: seq<Option<Middleware>>, h: Handler)
    ensures Route(routeMw, h) == Logger(Errors(Metric(Wrap(routeMw, h))))
  {
    WrapAppend(AppMiddleware(), routeMw, h);
    var inner := Wrap(routeMw, h);
    assert AppMiddleware() == [Some(Logger)] + ([Some(Errors)] + ([Some(Metric)] + []));
    WrapOutermost(Logger, [Some(Errors)] + ([Some(Metric)] + []), inner);
    WrapOutermost(Errors, [Some(Metric)] + [], inner);
    WrapOutermost(Metric, [], inner);
    WrapEmpty(inner);
  }

  /** A route with Authenticate as its only route middleware. */
  lemma AuthenticatedLayers(a: Authenticator, h: Handler)
    ensures Route([Some(Authenticate(a))], h) == Logger(Errors(Metric(Authenticate(a)(h))))
  {
    AppLayers([Some(Authenticate(a))], h);
    WrapOutermost(Authenticate(a), [], h);
    WrapEmpty(h);
  }

  /** The health check and the token route have only the app-wide layers. */
  lemma OpenChains(a: Authenticator)
    ensures RouteTable(a)[("GET", "/v1/health")] == Logger(Errors(Metric(Health)))
    ensures RouteTable(a)[("GET", "/v1/user/token")] == Logger(Errors(Metric(TokenHandler(a))))
  {
    NineRoutes(a);
    TableEntries(RouteHandlers(a));
    AppLayers([], Health);
    AppLayers([], TokenHandler(a));
    WrapEmpty(Health);
    WrapEmpty(TokenHandler(a));
  }

  /** The product routes other than DELETE have Authenticate right inside the
      app-wide layers. */
  lemma ProductChains(a: Authenticator)
    ensures RouteTable(a)[("GET", "/v1/products")] == Logger(Errors(Metric(Authenticate(a)(List))))
    ensures RouteTable(a)[("POST", "/v1/products")] == Logger(Errors(Metric(Authenticate(a)(Create))))
    ensures RouteTable(a)[("GET", "/v1/products/{id}")] == Logger(Errors(Metric(Authenticate(a)(Retrieve))))
    ensures RouteTable(a)[("PATCH", "/v1/products/{id}")] == Logger(Errors(Metric(Authenticate(a)(UpdateProduct))))
  {
    NineRoutes(a);
    TableEntries(RouteHandlers(a));
    AuthenticatedLayers(a, List);
    AuthenticatedLayers(a, Create);
    AuthenticatedLayers(a, Retrieve);
    AuthenticatedLayers(a, UpdateProduct);
  }

  /** The sales routes have Authenticate right inside the app-wide layers. */
  lemma SalesChains(a: Authenticator)
    ensures RouteTable(a)[("POST", "/v1/products/{product_id}/sales")] == Logger(Errors(Metric(Authenticate(a)(AddSale))))
    ensures RouteTable(a)[("GET", "/v1/products/{product_id}/sales")] == Logger(Errors(Metric(Authenticate(a)(ListSales))))
  {
    NineRoutes(a);
    TableEntries(RouteHandlers(a));
    AuthenticatedLayers(a, AddSale);
    AuthenticatedLayers(a, ListSales);
  }

  /** DELETE has HasRoles(ADMIN) inside Authenticate. */
  lemma DeleteChain(a: Authenticator)
    ensures RouteTable(a)[("DELETE", "/v1/products/{id}")] ==
      Logger(Errors(Metric(Authenticate(a)(HasRoles([AuthRoles.RoleAdmin])(DeleteProduct)))))
  {
    NineRoutes(a);
    TableEntries(RouteHandlers(a));
    var gate := HasRoles([AuthRoles.RoleAdmin]);
    AppLayers([Some(Authenticate(a)), Some(gate)], DeleteProduct);
    assert [Some(Authenticate(a)), Some(gate)] == [Some(Authenticate(a))] + [Some(gate)];
    WrapOutermost(Authenticate(a), [Some(gate)], DeleteProduct);
    WrapOutermost(gate, [], DeleteProduct);
    WrapEmpty(DeleteProduct);
  }


  /** The context and state the composed chain starts from in Dispatch. */
  function Start(st: State): State
  {
    st.(values := ContexValues(0, st.world.dispatchTime))
  }

  /** The app-wide layers around a handler that fails with a state unchanged,
      on a fresh, working connection: the error is answered with its status and
      body, logged once, counted as a failure, and the access line records the
      answered status; nothing escapes to the dispatcher. */
  lemma {:induction false} LayersAnswerError(inner: Handler, st: State, r: Request, e: Err)
    requires st.writer.Fresh() && st.writer.failure.None?
    requires inner(Ctx(true, None), Start(st), r) == Outcome(Start(st), Some(e))
    requires ErrorStatus(e) != StatusNoContent
    ensures var out := Dispatch(Logger(Errors(Metric(inner))), r, st);
      out.writer.sent == Some(Head(ErrorStatus(e), st.writer.header[ContentType := JsonContentType])) &&
      out.writer.body == [ErrorResponseOf(e).ToJson()] &&
      out.log == st.log + [ErrorLine(e), Access(ErrorStatus(e), r.verb, r.path)] &&
      out.vars == MetricsVars.Tick(st.vars, true, st.world.goroutines) &&
      out.db == st.db
  {
    var ctx := Ctx(true, None);
    var s0 := Start(st);
    var metered := Metric(inner);
    var m := metered(ctx, s0, r);
    assert m == Outcome(s0.(vars := MetricsVars.Tick(s0.vars, true, s0.world.goroutines)), Some(e));
    ErrorsAnswers(metered, ctx, s0, r);
    var errs := Errors(metered)(ctx, s0, r);
    assert errs.err.None? && errs.st.values.statusCode == ErrorStatus(e);
    var logged := Logger(Errors(metered))(ctx, s0, r);
    assert logged.err.None?;
    assert logged.st.log == errs.st.log + [Access(ErrorStatus(e), r.verb, r.path)];
  }

  /** DELETE /v1/products/{id} with a valid token whose claims lack the ADMIN
      role, on a fresh, working connection: the client gets 403 with the
      forbidden message, the delete never runs, the access line records 403, the
      failure is counted, and nothing escapes the chain. */
  lemma DeleteNeedsAdmin(a: Authenticator, st: State, r: Request)
    requires st.writer.Fresh() && st.writer.failure.None?
    requires BearerToken(r.authorization).Some?
    requires st.world.parseClaims(a, BearerToken(r.authorization).value).Success?
    requires AuthRoles.RoleAdmin !in st.world.parseClaims(a, BearerToken(r.authorization).value).value.roles
    ensures var out := Dispatch(RouteTable(a)[("DELETE", "/v1/products/{id}")], r, st);
      out.writer.sent == Some(Head(StatusForbidden, st.writer.header[ContentType := JsonContentType])) &&
      out.writer.body == [ErrorResponse("you are not authorized for that action", map[]).ToJson()] &&
      out.log == st.log + [ErrorLine(ErrForbidden), Access(StatusForbidden, r.verb, r.path)] &&
      out.vars == MetricsVars.Tick(st.vars, true, st.world.goroutines) &&
      out.db == st.db
  {
    DeleteChain(a);
    var claims := st.world.parseClaims(a, BearerToken(r.authorization).value).value;
    SingleRoleGate(claims, AuthRoles.RoleAdmin);
    var s0 := Start(st);
    var authn := Authenticate(a)(HasRoles([AuthRoles.RoleAdmin])(DeleteProduct));
    assert authn(Ctx(true, None), s0, r) == Outcome(s0, Some(ErrForbidden));
    GateErrors();
    LayersAnswerError(authn, st, r, ErrForbidden);
  }

  /** GET /v1/health on a fresh, working connection with the database up: 200
      with {"status": "OK"}, one access line recording 200, one request counted
      and no failure. */
  lemma HealthOk(a: Authenticator, st: State, r: Request)
    requires st.writer.Fresh() && st.writer.failure.None?
    requires st.world.statusCheck.None?
    ensures var out := Dispatch(RouteTable(a)[("GET", "/v1/health")], r, st);
      out.writer.sent == Some(Head(StatusOK, st.writer.header[ContentType := JsonContentType])) &&
      out.writer.body == [JObj(map["status" := JStr("OK")])] &&
      out.log == st.log + [Access(StatusOK, r.verb, r.path)] &&
      out.vars == MetricsVars.Tick(st.vars, false, st.world.goroutines)
  {
    OpenChains(a);
    var ctx := Ctx(true, None);
    var s0 := Start(st);
    HealthAnswers(ctx, s0, r);
  }

  /** A product route called without a well-formed bearer header answers 401
      with the expected-format message, and the handler never runs. */
  lemma ProductsNeedBearer(a: Authenticator, st: State, r: Request)
    requires st.writer.Fresh() && st.writer.failure.None?
    requires BearerToken(r.authorization).None?
    ensures var out := Dispatch(RouteTable(a)[("GET", "/v1/products")], r, st);
      out.writer.sent == Some(Head(StatusUnauthorized, st.writer.header[ContentType := JsonContentType])) &&
      out.writer.body == [ErrorResponse(BearerFormatText, map[]).ToJson()] &&
      out.log == st.log + [ErrorLine(NewRequestError(Plain(BearerFormatText), StatusUnauthorized)),
                           Access(StatusUnauthorized, r.verb, r.path)] &&
      out.vars == MetricsVars.Tick(st.vars, true, st.world.goroutines)
  {
    ProductChains(a);
    var s0 := Start(st);
    var authn := Authenticate(a)(List);
    var e := NewRequestError(Plain(BearerFormatText), StatusUnauthorized);
    assert authn(Ctx(true, None), s0, r) == Outcome(s0, Some(e));
    LayersAnswerError(authn, st, r, e);
  }
}
