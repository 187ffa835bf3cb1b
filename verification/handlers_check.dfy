/** cmd/sales-api/internal/handlers/check.go: the health check. */
module CheckHandlers {
  import opened Wrappers
  import opened JsonValues
  import opened Web
  import opened WebResponse

  /** Check.Health: responds once, {"status": "OK"} with 200 when the database
      answers, {"status": "db not ready"} with 500 when it does not; the
      database's error itself is never returned. */
  function Health(ctx: Ctx, st: State, r: Request): (o: Outcome)
    ensures st.world.statusCheck.Some? ==> o == Respond(ctx, st, HealthBody("db not ready"), StatusInternalServerError)
    ensures st.world.statusCheck.None? ==> o == Respond(ctx, st, HealthBody("OK"), StatusOK)
    ensures ctx.hasValues && st.writer.failure.None? ==> o.err.None?
  {
    if st.world.statusCheck.Some? then Respond(ctx, st, HealthBody("db not ready"), StatusInternalServerError)
    else Respond(ctx, st, HealthBody("OK"), StatusOK)
  }

  /** The health check only reads the World, and a dispatch of it keeps the
      World as it was. */
  lemma HealthKeepsWorld(r: Request, st: State)
    ensures KeepsWorld(Health)
    ensures Dispatch(Health, r, st).world == st.world
  {
  }

  /** What the client receives on a fresh, working connection. */
  lemma HealthAnswers(ctx: Ctx, st: State, r: Request)
    requires ctx.hasValues && st.writer.Fresh() && st.writer.failure.None?
    ensures var o := Health(ctx, st, r);
      var status := if st.world.statusCheck.None? then "OK" else "db not ready";
      var code := if st.world.statusCheck.None? then StatusOK else StatusInternalServerError;
      o.err.None? && o.st.values.statusCode == code &&
      o.st.writer.sent == Some(Head(code, st.writer.header[ContentType := JsonContentType])) &&
      o.st.writer.body == [JObj(map["status" := JStr(status)])]
  {
  }
}
