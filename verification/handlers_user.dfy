/** cmd/sales-api/internal/handlers/user.go: issuing a token for a user who
    presents an email and a password with HTTP Basic authentication. */
module UserHandlers {
  import opened Wrappers
  import opened WebErrors
  import opened AuthRoles
  import opened Auth
  import opened Users
  import opened Web
  import opened WebResponse

  const ErrNoBasicAuth: Err := Plain("must provide email and password in Basic auth")

  /** Users.Token: needs the ContexValues (its start time is the `now` of the
      claims) and Basic credentials (401 without them); an unknown email or a
      wrong password is a 401; any other authentication failure and a signing
      failure are wrapped (so they become 500s) and nothing is written;
      otherwise 200 with the signed token. */
  function Token(a: Authenticator, ctx: Ctx, st: State, r: Request): (o: Outcome)
    ensures !ctx.hasValues ==> o == Outcome(st, Some(ErrContextValueMissing))
    ensures ctx.hasValues && r.basicAuth.None? ==>
      o == Outcome(st, Some(NewRequestError(ErrNoBasicAuth, StatusUnauthorized)))
    ensures ctx.hasValues && r.basicAuth.Some? ==>
      var auth := Users.Authenticate(st.db.users, st.world.selectUserErr, st.world.passwordMatches,
                                     st.values.start, r.basicAuth.value.0, r.basicAuth.value.1);
      (auth.Failure? && auth.error == ErrAuthenticationFailure ==>
        o == Outcome(st, Some(NewRequestError(ErrAuthenticationFailure, StatusUnauthorized)))) &&
      (auth.Failure? && auth.error != ErrAuthenticationFailure ==>
        o == Outcome(st, Some(Wrapped("auth", auth.error)))) &&
      (auth.Success? ==>
        var signed := GenerateToken(a, auth.value, st.world.sign);
        (signed.Failure? ==> o == Outcome(st, Some(Wrapped("generating token", signed.error)))) &&
        (signed.Success? ==> o == Respond(ctx, st, TokenBody(signed.value), StatusOK)))
  {
    if !ctx.hasValues then Outcome(st, Some(ErrContextValueMissing))
    else match r.basicAuth
      case None => Outcome(st, Some(NewRequestError(ErrNoBasicAuth, StatusUnauthorized)))
      case Some((email, pass)) =>
        match Users.Authenticate(st.db.users, st.world.selectUserErr, st.world.passwordMatches, st.values.start, email, pass)
        case Failure(e) =>
          if e == ErrAuthenticationFailure then Outcome(st, Some(NewRequestError(e, StatusUnauthorized)))
          else Outcome(st, Some(Wrapped("auth", e)))
        case Success(claims) =>
          match GenerateToken(a, claims, st.world.sign)
          case Failure(e) => Outcome(st, Some(Wrapped("generating token", e)))
          case Success(tkn) => Respond(ctx, st, TokenBody(tkn), StatusOK)
  }

  /** Users.Token bound to an authenticator, as a handler. */
  function TokenHandler(a: Authenticator): Handler
  {
    (ctx: Ctx, st: State, r: Request) => Token(a, ctx, st, r)
  }

  /** A successful login on a fresh, working connection: 200 with
      {"token": t}, where t is the signature of one-hour claims for the user,
      issued at the request's start time, whose token header names the active
      key id, which for an authenticator NewAuthenticator built is never blank. */
  lemma TokenIssued(a: Authenticator, ctx: Ctx, st: State, r: Request, u: User)
    requires Built(a)
    requires ctx.hasValues && st.writer.Fresh() && st.writer.failure.None?
    requires r.basicAuth.Some? && st.world.selectUserErr.None?
    requires FindByEmail(st.db.users, r.basicAuth.value.0) == Some(u)
    requires st.world.passwordMatches(u.passwordHash, r.basicAuth.value.1)
    requires st.world.sign(NewToken(a, NewClaims(u.id, u.roles, st.values.start, Hour)), a.privateKey).Success?
    ensures var tkn := st.world.sign(NewToken(a, NewClaims(u.id, u.roles, st.values.start, Hour)), a.privateKey).value;
      var o := Token(a, ctx, st, r);
      o.err.None? &&
      o.st.values.statusCode == StatusOK &&
      o.st.writer.sent == Some(Head(StatusOK, st.writer.header[ContentType := JsonContentType])) &&
      o.st.writer.body == [Marshal(TokenBody(tkn), st.world).value] &&
      NewToken(a, NewClaims(u.id, u.roles, st.values.start, Hour)).header["kid"] == a.activeKID &&
      NewToken(a, NewClaims(u.id, u.roles, st.values.start, Hour)).header["kid"] != "" &&
      NewToken(a, NewClaims(u.id, u.roles, st.values.start, Hour)).header["alg"] in SigningMethods
  {
  }

  /** An unknown email and a wrong password get the same 401 answer. */
  lemma TokenRefusals(a: Authenticator, ctx: Ctx, st: State, r: Request)
    requires ctx.hasValues && r.basicAuth.Some? && st.world.selectUserErr.None?
    requires FindByEmail(st.db.users, r.basicAuth.value.0).None? ||
             !st.world.passwordMatches(FindByEmail(st.db.users, r.basicAuth.value.0).value.passwordHash, r.basicAuth.value.1)
    ensures Token(a, ctx, st, r) == Outcome(st, Some(NewRequestError(ErrAuthenticationFailure, StatusUnauthorized)))
    ensures ErrorStatus(Token(a, ctx, st, r).err.value) == StatusUnauthorized
  {
  }

  /** A database failure while looking the user up is not a 401: it is wrapped
      twice and answered with a 500. */
  lemma TokenDatabaseFailure(a: Authenticator, ctx: Ctx, st: State, r: Request)
    requires ctx.hasValues && r.basicAuth.Some?
    requires st.world.selectUserErr.Some? && st.world.selectUserErr.value != Sentinel(SqlNoRows)
    requires !Cause(st.world.selectUserErr.value).WebError?
    ensures Token(a, ctx, st, r) ==
      Outcome(st, Some(Wrapped("auth", Wrapped("selecting single user", st.world.selectUserErr.value))))
    ensures ErrorStatus(Token(a, ctx, st, r).err.value) == StatusInternalServerError
  {
    var e := st.world.selectUserErr.value;
    CauseOfWrap("selecting single user", e);
    CauseOfWrap("auth", Wrapped("selecting single user", e));
  }
}
