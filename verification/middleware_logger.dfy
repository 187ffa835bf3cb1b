/** internal/middleware/logger.go: one access line per request, written after
    the rest of the chain has run. */
module LoggerMiddleware {
  import opened Wrappers
  import opened WebErrors
  import opened Web

  /** A fresh error: same text as web.ErrContextValueMissing, not that value. */
  const ErrValuesMissing: Err := Plain("web values missing from context")

  /** The handler Logger wraps around `before`: it runs `before` first. With
      ContexValues in the context it appends one line carrying the status the
      chain recorded, the method and the path, and passes on `before`'s error;
      without them it logs nothing and returns a new error in place of
      `before`'s. */
  function ServeLogged(before: Handler, ctx: Ctx, st: State, r: Request): (o: Outcome)
    ensures var inner := before(ctx, st, r);
      o.st.writer == inner.st.writer && o.st.values == inner.st.values &&
      o.st.vars == inner.st.vars && o.st.db == inner.st.db && o.st.world == inner.st.world
    ensures var inner := before(ctx, st, r);
      ctx.hasValues ==>
        o.err == inner.err &&
        o.st.log == inner.st.log + [Access(inner.st.values.statusCode, r.verb, r.path)]
    ensures var inner := before(ctx, st, r);
      !ctx.hasValues ==> o.err == Some(ErrValuesMissing) && o.st.log == inner.st.log
  {
    var inner := before(ctx, st, r);
    if !ctx.hasValues then Outcome(inner.st, Some(ErrValuesMissing))
    else Outcome(inner.st.(log := inner.st.log + [Access(inner.st.values.statusCode, r.verb, r.path)]), inner.err)
  }

  /** Logger(log) as a middleware; the log is part of the state. */
  function Logger(before: Handler): Handler
  {
    (ctx: Ctx, st: State, r: Request) => ServeLogged(before, ctx, st, r)
  }

  /** The error Logger returns when the values are missing is not
      web.ErrContextValueMissing, though it reads the same. */
  lemma ValuesMissingIsFresh()
    ensures ErrValuesMissing != ErrContextValueMissing
    ensures Message(ErrValuesMissing) == Message(ErrContextValueMissing)
  {
  }
}
