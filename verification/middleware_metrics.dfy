/** internal/middleware/metrics.go, part one: the three expvar counters
    ("gorutines", "reqests", "errors") and how one finished request updates them. */
module MetricsVars {

  /** The values of the counters m.gr, m.req and m.err. */
  datatype Vars = Vars(gr: int, req: int, err: int)

  const Zero: Vars := Vars(0, 0, 0)

  /** One finished request: the request counter goes up by one; the goroutine
      gauge is sampled only when the new request count is a multiple of 100;
      the error counter goes up exactly when the request failed. */
  function Tick(v: Vars, failed: bool, goroutines: int): (w: Vars)
    ensures w.req == v.req + 1
    ensures w.err == if failed then v.err + 1 else v.err
    ensures w.req % 100 == 0 ==> w.gr == goroutines
    ensures w.req % 100 != 0 ==> w.gr == v.gr
  {
    var req := v.req + 1;
    Vars(if req % 100 == 0 then goroutines else v.gr, req, if failed then v.err + 1 else v.err)
  }

  /** A run of requests, given by whether each failed and the goroutine count
      at the time. */
  function Ticks(v: Vars, failed: seq<bool>, goroutines: seq<int>): Vars
    requires |failed| == |goroutines|
    decreases |failed|
  {
    if failed == [] then v
    else Ticks(Tick(v, failed[0], goroutines[0]), failed[1..], goroutines[1..])
  }

  /** The number of failed requests in a run. */
  function Failures(failed: seq<bool>): nat
    decreases |failed|
  {
    if failed == [] then 0 else (if failed[0] then 1 else 0) + Failures(failed[1..])
  }

  /** Over any run, the request counter counts the requests, the error counter
      counts the failed ones, and neither ever decreases. */
  lemma {:induction false} TicksCount(v: Vars, failed: seq<bool>, goroutines: seq<int>)
    requires |failed| == |goroutines|
    ensures Ticks(v, failed, goroutines).req == v.req + |failed|
    ensures Ticks(v, failed, goroutines).err == v.err + Failures(failed)
    ensures Ticks(v, failed, goroutines).req >= v.req && Ticks(v, failed, goroutines).err >= v.err
    decreases |failed|
  {
    if failed != [] {
      TicksCount(Tick(v, failed[0], goroutines[0]), failed[1..], goroutines[1..]);
    }
  }

  /** While the request count stays below 100 the gauge is never sampled: it
      keeps its value whatever the goroutine counts were. */
  lemma {:induction false} GaugeUntouchedBelow100(v: Vars, failed: seq<bool>, goroutines: seq<int>)
    requires |failed| == |goroutines|
    requires v.req >= 0 && v.req + |failed| < 100
    ensures Ticks(v, failed, goroutines).gr == v.gr
    decreases |failed|
  {
    if failed != [] {
      GaugeUntouchedBelow100(Tick(v, failed[0], goroutines[0]), failed[1..], goroutines[1..]);
    }
  }

  /** The package-level expvar counters ("goroutines", "requests", "errors"),
      updated in place on every request; `Observe` is proved to be `Tick`. The
      request pipeline threads the same counters as a `Vars` value and uses
      `Tick` directly, so this class is not used by the pipeline. */
  class Counters {
    var gr: int
    var req: int
    var err: int

    constructor ()
      ensures Snapshot() == Zero
    {
      gr, req, err := 0, 0, 0;
    }

    function Snapshot(): Vars
      reads this
    {
      Vars(gr, req, err)
    }

    /** The body of the Metric handler after the inner handler returned. */
    method Observe(failed: bool, goroutines: int)
      modifies this
      ensures Snapshot() == Tick(old(Snapshot()), failed, goroutines)
    {
      req := req + 1;
      if req % 100 == 0 {
        gr := goroutines;
      }
      if failed {
        err := err + 1;
      }
    }
  }
}

/** internal/middleware/metrics.go, part two: the Metric middleware. */
module MetricsMiddleware {
  import opened Wrappers
  import opened Web
  import MetricsVars

  /** The handler Metric wraps around `before`: it runs `before`, then counts
      the finished request, and passes on exactly the error `before` returned. */
  function ServeMetered(before: Handler, ctx: Ctx, st: State, r: Request): (o: Outcome)
    ensures var inner := before(ctx, st, r);
      o.err == inner.err &&
      o.st == inner.st.(vars := MetricsVars.Tick(inner.st.vars, inner.err.Some?, inner.st.world.goroutines))
    ensures o.st.vars.req == before(ctx, st, r).st.vars.req + 1
    ensures o.st.vars.err == before(ctx, st, r).st.vars.err + (if o.err.Some? then 1 else 0)
  {
    var inner := before(ctx, st, r);
    Outcome(inner.st.(vars := MetricsVars.Tick(inner.st.vars, inner.err.Some?, inner.st.world.goroutines)), inner.err)
  }

  /** Metric() as a middleware. */
  function Metric(before: Handler): Handler
  {
    (ctx: Ctx, st: State, r: Request) => ServeMetered(before, ctx, st, r)
  }
}
