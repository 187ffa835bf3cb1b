/** internal/platform/web/response.go: sending a value to the client as JSON,
    and translating an error into the response the client gets. */
module WebResponse {
  import opened Wrappers
  import opened JsonValues
  import opened WebErrors
  import opened Web

  /** http.Header canonicalises the key "content-type" to this form. */
  const ContentType := "Content-Type"
  const JsonContentType := "application/json; charset=utf-8"
  const InternalServerErrorText := "Internal Server Error"

  /** json.Marshal: the values whose shape the service defines are encoded here
      and cannot fail; repository values go through the library. */
  function Marshal(v: Value, world: World): (r: Result<Json, Err>)
    ensures v.ErrorBody? ==> r == Success(v.resp.ToJson())
    ensures v.HealthBody? ==> r.Success? && r.value.JObj? && r.value.members == map["status" := JStr(v.status)]
    ensures v.TokenBody? ==> r.Success? && r.value.JObj? && r.value.members == map["token" := JStr(v.token)]
    ensures v.NoValue? ==> r == Success(JNull)
  {
    match v
    case NoValue => Success(JNull)
    case ErrorBody(resp) => Success(resp.ToJson())
    case HealthBody(s) => Success(JObj(map["status" := JStr(s)]))
    case TokenBody(t) => Success(JObj(map["token" := JStr(t)]))
    case _ => world.marshal(v)
  }

  /** Respond. Without ContexValues in the context it fails and changes
      nothing. Otherwise the requested status is recorded first, whatever
      happens next; 204 sends only the status line; a value that cannot be
      marshalled sends 500 although the requested status stays recorded;
      otherwise the JSON content type is set before the status and the body go
      out. Only the ContexValues slot and the writer change. */
  function Respond(ctx: Ctx, st: State, val: Value, code: int): (o: Outcome)
    ensures !ctx.hasValues ==> o.err == Some(ErrContextValueMissing) && o.st == st
    ensures ctx.hasValues ==> o.st.values == st.values.(statusCode := code)
    ensures o.st.log == st.log && o.st.vars == st.vars && o.st.db == st.db && o.st.world == st.world
    ensures o.st.writer.failure == st.writer.failure
    ensures ctx.hasValues && code != StatusNoContent && Marshal(val, st.world).Success? ==>
      o.st.writer.header == st.writer.header[ContentType := JsonContentType]
    ensures !ctx.hasValues || code == StatusNoContent || Marshal(val, st.world).Failure? ==>
      o.st.writer.header == st.writer.header
    ensures o.err.None? ==> ctx.hasValues && o.st.values.statusCode == code
    ensures ctx.hasValues && st.writer.Fresh() && code == StatusNoContent ==>
      o.err.None? && o.st.writer.sent == Some(Head(StatusNoContent, st.writer.header)) &&
      o.st.writer.body == []
    ensures ctx.hasValues && st.writer.Fresh() && code != StatusNoContent && Marshal(val, st.world).Failure? ==>
      o.err == Some(Wrapped("error marshalling", Marshal(val, st.world).error)) &&
      o.st.writer.sent == Some(Head(StatusInternalServerError, st.writer.header)) &&
      o.st.writer.body == []
    ensures ctx.hasValues && st.writer.Fresh() && code != StatusNoContent && Marshal(val, st.world).Success? ==>
      o.st.writer.sent == Some(Head(code, st.writer.header[ContentType := JsonContentType])) &&
      (st.writer.failure.None? ==> o.err.None? && o.st.writer.body == [Marshal(val, st.world).value]) &&
      (st.writer.failure.Some? ==>
        o.err == Some(Wrapped("writing to client", st.writer.failure.value)) && o.st.writer.body == [])
    // On a writer that was used before: a head already sent stays as it was, and
    // only a value that was marshalled and written adds to the body.
    ensures ctx.hasValues && st.writer.sent.Some? ==> o.st.writer.sent == st.writer.sent
    ensures ctx.hasValues && code == StatusNoContent ==> o.err.None? && o.st.writer.body == st.writer.body
    ensures ctx.hasValues && code != StatusNoContent && Marshal(val, st.world).Failure? ==>
      o.err == Some(Wrapped("error marshalling", Marshal(val, st.world).error)) &&
      o.st.writer.body == st.writer.body
    ensures ctx.hasValues && code != StatusNoContent && Marshal(val, st.world).Success? ==>
      (st.writer.failure.None? ==>
        o.err.None? && o.st.writer.body == st.writer.body + [Marshal(val, st.world).value]) &&
      (st.writer.failure.Some? ==>
        o.err == Some(Wrapped("writing to client", st.writer.failure.value)) && o.st.writer.body == st.writer.body)
  {
    if !ctx.hasValues then Outcome(st, Some(ErrContextValueMissing))
    else
      var st1 := st.(values := st.values.(statusCode := code));
      if code == StatusNoContent then
        Outcome(st1.(writer := st1.writer.WriteHeader(code)), None)
      else
        match Marshal(val, st.world)
        case Failure(e) =>
          Outcome(st1.(writer := st1.writer.WriteHeader(StatusInternalServerError)), Some(Wrapped("error marshalling", e)))
        case Success(data) =>
          var w1 := st1.writer.SetHeader(ContentType, JsonContentType).WriteHeader(code);
          var written := w1.Write(data);
          Outcome(st1.(writer := written.0),
                  if written.1.Some? then Some(Wrapped("writing to client", written.1.value)) else None)
  }

  /** The status an error is answered with: the status of a web error found by
      Cause, 500 for anything else. */
  function ErrorStatus(err: Err): (status: int)
    ensures Cause(err).WebError? ==> status == Cause(err).status
    ensures !Cause(err).WebError? ==> status == StatusInternalServerError
  {
    match Cause(err)
    case WebError(_, status, _) => status
    case _ => StatusInternalServerError
  }

  /** The body an error is answered with: the web error's own message and field
      messages, or the generic text and no fields. */
  function ErrorResponseOf(err: Err): (resp: ErrorResponse)
    ensures Cause(err).WebError? ==>
      resp.error == Message(Cause(err).err) && resp.fields == Cause(err).fields
    ensures !Cause(err).WebError? ==> resp.error == InternalServerErrorText && resp.fields == map[]
  {
    match Cause(err)
    case WebError(inner, _, fields) => ErrorResponse(Message(inner), fields)
    case _ => ErrorResponse(InternalServerErrorText, map[])
  }

  /** RespondError: answers with the status and body chosen above. */
  function RespondError(ctx: Ctx, st: State, err: Err): (o: Outcome)
    ensures o == Respond(ctx, st, ErrorBody(ErrorResponseOf(err)), ErrorStatus(err))
  {
    match Cause(err)
    case WebError(inner, status, fields) => Respond(ctx, st, ErrorBody(ErrorResponse(Message(inner), fields)), status)
    case _ => Respond(ctx, st, ErrorBody(ErrorResponse(InternalServerErrorText, map[])), StatusInternalServerError)
  }

  /** What the client receives for an error on a fresh, working connection: the
      error's status (recorded as well), and the error body, whose `fields`
      member appears only when there are field messages. */
  lemma RespondErrorSends(ctx: Ctx, st: State, err: Err)
    requires ctx.hasValues && st.writer.Fresh() && st.writer.failure.None?
    requires ErrorStatus(err) != StatusNoContent
    ensures var o := RespondError(ctx, st, err);
      o.err.None? &&
      o.st.values.statusCode == ErrorStatus(err) &&
      o.st.writer.sent == Some(Head(ErrorStatus(err), st.writer.header[ContentType := JsonContentType])) &&
      o.st.writer.body == [ErrorResponseOf(err).ToJson()]
  {
  }

  /** However many times an error was wrapped, the client gets the same answer. */
  lemma {:induction false} RespondErrorSeesThroughWraps(ctx: Ctx, st: State, m: string, err: Err)
    ensures RespondError(ctx, st, Wrapped(m, err)) == RespondError(ctx, st, err)
  {
    CauseOfWrap(m, err);
  }

  /** A request error made with NewRequestError is answered with its own status
      and message and no field messages; any error that is not a web error is a
      500 with the generic text. */
  lemma ErrorTranslation(inner: Err, status: int, other: Err)
    requires !Cause(other).WebError?
    ensures ErrorStatus(NewRequestError(inner, status)) == status
    ensures ErrorResponseOf(NewRequestError(inner, status)) == ErrorResponse(Message(inner), map[])
    ensures ErrorStatus(other) == StatusInternalServerError
    ensures ErrorResponseOf(other) == ErrorResponse(InternalServerErrorText, map[])
  {
  }
}
