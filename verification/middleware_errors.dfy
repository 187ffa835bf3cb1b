/** internal/middleware/errors.go: turning an error returned by the chain into
    a response to the client. */
module ErrorsMiddleware {
  import opened Wrappers
  import opened WebErrors
  import opened Web
  import opened WebResponse

  /** The handler Errors wraps around `before`: a success passes through
      untouched; an error is logged once and answered with RespondError, after
      which it is swallowed, unless answering failed, in which case that
      failure is returned. */
  function ServeErrors(before: Handler, ctx: Ctx, st: State, r: Request): (o: Outcome)
    ensures var inner := before(ctx, st, r);
      inner.err.None? ==> o == inner
    ensures var inner := before(ctx, st, r);
      inner.err.Some? ==>
        var logged := inner.st.(log := inner.st.log + [ErrorLine(inner.err.value)]);
        o == RespondError(ctx, logged, inner.err.value)
  {
    var inner := before(ctx, st, r);
    if inner.err.None? then inner
    else
      var logged := inner.st.(log := inner.st.log + [ErrorLine(inner.err.value)]);
      var answered := RespondError(ctx, logged, inner.err.value);
      if answered.err.Some? then answered else Outcome(answered.st, None)
  }

  /** Errors(log) as a middleware. */
  function Errors(before: Handler): Handler
  {
    (ctx: Ctx, st: State, r: Request) => ServeErrors(before, ctx, st, r)
  }

  /** An error from the chain, on a connection that still has nothing sent and
      works, is answered and swallowed: the client gets the error's status and
      body, the status is recorded, and the log gains exactly one error line. */
  lemma ErrorsAnswers(before: Handler, ctx: Ctx, st: State, r: Request)
    requires ctx.hasValues
    requires before(ctx, st, r).err.Some?
    requires before(ctx, st, r).st.writer.Fresh() && before(ctx, st, r).st.writer.failure.None?
    requires ErrorStatus(before(ctx, st, r).err.value) != StatusNoContent
    ensures var inner := before(ctx, st, r);
      var e := inner.err.value;
      var o := ServeErrors(before, ctx, st, r);
      o.err.None? &&
      o.st.values.statusCode == ErrorStatus(e) &&
      o.st.writer.sent == Some(Head(ErrorStatus(e), inner.st.writer.header[ContentType := JsonContentType])) &&
      o.st.writer.body == [ErrorResponseOf(e).ToJson()] &&
      o.st.log == inner.st.log + [ErrorLine(e)]
  {
    var inner := before(ctx, st, r);
    var logged := inner.st.(log := inner.st.log + [ErrorLine(inner.err.value)]);
    RespondErrorSends(ctx, logged, inner.err.value);
  }

  /** A handler whose own Respond could not marshal its value has already sent
      a bare 500 head; Errors then answers on that used writer. The head stays
      as it went out (no JSON content type), the generic error body follows it,
      500 is recorded, and the marshalling error is logged and swallowed. */
  lemma ErrorsAfterMarshalFailure(before: Handler, ctx: Ctx, st: State, r: Request, val: Value, code: int)
    requires ctx.hasValues && st.writer.Fresh() && st.writer.failure.None?
    requires code != StatusNoContent
    requires Marshal(val, st.world).Failure? && !Cause(Marshal(val, st.world).error).WebError?
    requires before(ctx, st, r) == Respond(ctx, st, val, code)
    ensures var o := ServeErrors(before, ctx, st, r);
      o.err.None? &&
      o.st.values.statusCode == StatusInternalServerError &&
      o.st.writer.sent == Some(Head(StatusInternalServerError, st.writer.header)) &&
      o.st.writer.body == [ErrorResponse(InternalServerErrorText, map[]).ToJson()] &&
      o.st.log == st.log + [ErrorLine(Wrapped("error marshalling", Marshal(val, st.world).error))]
  {
    var e := Wrapped("error marshalling", Marshal(val, st.world).error);
    CauseOfWrap("error marshalling", Marshal(val, st.world).error);
    assert ErrorStatus(e) == StatusInternalServerError;
    assert ErrorResponseOf(e) == ErrorResponse(InternalServerErrorText, map[]);
  }

  /** Without ContexValues the answer cannot be sent: the failure to respond
      is what Errors returns, and nothing is written. */
  lemma ErrorsWithoutValues(before: Handler, ctx: Ctx, st: State, r: Request)
    requires !ctx.hasValues
    requires before(ctx, st, r).err.Some?
    ensures ServeErrors(before, ctx, st, r).err == Some(ErrContextValueMissing)
    ensures ServeErrors(before, ctx, st, r).st.writer == before(ctx, st, r).st.writer
  {
  }
}
