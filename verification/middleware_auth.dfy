/** internal/middleware/auth.go: the bearer-token gate and the role gate. */
module AuthMiddleware {
  import opened Wrappers
  import opened WebErrors
  import AuthRoles
  import opened Auth
  import opened Web

  /** strings.Split(s, string(sep)): the pieces between separators; n separators
      give n + 1 pieces, possibly empty. */
  function Split(s: string, sep: char): (parts: seq<string>)
    ensures |parts| >= 1
    ensures forall i :: 0 <= i < |parts| ==> sep !in parts[i]
    decreases |s|
  {
    if s == [] then [""]
    else
      var rest := Split(s[1..], sep);
      if s[0] == sep then [""] + rest else [[s[0]] + rest[0]] + rest[1..]
  }

  /** strings.Join(parts, string(sep)). */
  function Join(parts: seq<string>, sep: char): string
    requires |parts| >= 1
    decreases |parts|
  {
    if |parts| == 1 then parts[0] else parts[0] + [sep] + Join(parts[1..], sep)
  }

  /** Splitting loses nothing: joining the pieces gives the text back. */
  lemma {:induction false} SplitJoin(s: string, sep: char)
    ensures Join(Split(s, sep), sep) == s
    decreases |s|
  {
    if s != [] {
      var rest := Split(s[1..], sep);
      SplitJoin(s[1..], sep);
      if s[0] == sep {
        assert Split(s, sep)[1..] == rest;
        assert s == [sep] + s[1..];
      } else {
        var parts := Split(s, sep);
        if |rest| == 1 {
          assert s == [s[0]] + s[1..];
        } else {
          assert parts[1..] == rest[1..];
          assert Join(rest, sep) == rest[0] + [sep] + Join(rest[1..], sep);
          assert s == [s[0]] + s[1..];
        }
      }
    }
  }

  /** A text without the separator is a single piece. */
  lemma {:induction false} SplitNoSep(a: string, sep: char)
    requires sep !in a
    ensures Split(a, sep) == [a]
    decreases |a|
  {
    if a != [] {
      SplitNoSep(a[1..], sep);
      assert [a[0]] + a[1..] == a;
    }
  }

  /** The first separator ends the first piece. */
  lemma {:induction false} SplitAt(a: string, b: string, sep: char)
    requires sep !in a
    ensures Split(a + [sep] + b, sep) == [a] + Split(b, sep)
    decreases |a|
  {
    var s := a + [sep] + b;
    if a == [] {
      assert s[0] == sep && s[1..] == b;
    } else {
      assert s[0] == a[0] && s[1..] == a[1..] + [sep] + b;
      SplitAt(a[1..], b, sep);
      assert [a[0]] + a[1..] == a;
    }
  }

  /** strings.ToLower on ASCII letters. */
  function LowerChar(c: char): (l: char)
    ensures 'A' <= c <= 'Z' ==> l as int == c as int + 32
    ensures !('A' <= c <= 'Z') ==> l == c
  {
    if 'A' <= c <= 'Z' then (c as int + 32) as char else c
  }

  function ToLower(s: string): (l: string)
    ensures |l| == |s|
    ensures forall i :: 0 <= i < |s| ==> l[i] == LowerChar(s[i])
  {
    seq(|s|, i requires 0 <= i < |s| => LowerChar(s[i]))
  }

  /** The token of an `Authorization: Bearer <token>` header: the header must
      split on " " into exactly two pieces, the first being "bearer" in any
      letter case. */
  function BearerToken(header: string): (token: Option<string>)
    ensures token.Some? ==> ' ' !in token.value && |token.value| < |header|
  {
    var parts := Split(header, ' ');
    if |parts| != 2 || ToLower(parts[0]) != "bearer" then None
    else
      SplitJoin(header, ' ');
      Some(parts[1])
  }

  /** Accepted headers are exactly a space-free scheme spelling "bearer" in any
      case, one space, and a space-free token; the token is what follows the
      space. */
  lemma BearerAccepts(scheme: string, token: string)
    requires ' ' !in scheme && ' ' !in token && ToLower(scheme) == "bearer"
    ensures BearerToken(scheme + " " + token) == Some(token)
  {
    SplitAt(scheme, token, ' ');
    SplitNoSep(token, ' ');
  }

  lemma BearerSound(header: string)
    requires BearerToken(header).Some?
    ensures var token := BearerToken(header).value;
      var scheme := Split(header, ' ')[0];
      header == scheme + " " + token && ' ' !in scheme && ToLower(scheme) == "bearer"
  {
    SplitJoin(header, ' ');
    var parts := Split(header, ' ');
    assert Join(parts, ' ') == parts[0] + [' '] + Join(parts[1..], ' ');
  }

  /** An empty header, a bare scheme, a double space and another scheme are
      all refused. */
  lemma BearerRejects(token: string)
    requires ' ' !in token
    ensures BearerToken("") == None
    ensures BearerToken("Bearer") == None
    ensures BearerToken("Bearer  " + token) == None
    ensures BearerToken("Basic " + token) == None
  {
    SplitNoSep("Bearer", ' ');
    assert "Bearer  " + token == "Bearer" + [' '] + ("" + [' '] + token);
    SplitAt("Bearer", "" + [' '] + token, ' ');
    SplitAt("", token, ' ');
    assert "Basic " + token == "Basic" + [' '] + token;
    SplitAt("Basic", token, ' ');
    SplitNoSep(token, ' ');
  }

  const BearerFormatText := "Expected Authorization header format: 'Bearer <token>'"

  /** The handler Authenticate(a) wraps around `after`. A malformed header is a
      401 request error and a token the authenticator does not accept is a 401
      carrying the parser's error; in both cases nothing else runs and nothing
      changes. Otherwise `after` runs once, with the parsed claims in the
      context. */
  function ServeAuthenticated(a: Authenticator, after: Handler, ctx: Ctx, st: State, r: Request): (o: Outcome)
    ensures BearerToken(r.authorization).None? ==>
      o == Outcome(st, Some(NewRequestError(Plain(BearerFormatText), StatusUnauthorized)))
    ensures BearerToken(r.authorization).Some? ==>
      var parsed := st.world.parseClaims(a, BearerToken(r.authorization).value);
      (parsed.Failure? ==> o == Outcome(st, Some(NewRequestError(parsed.error, StatusUnauthorized)))) &&
      (parsed.Success? ==> o == after(ctx.(claims := Some(parsed.value)), st, r))
  {
    match BearerToken(r.authorization)
    case None => Outcome(st, Some(NewRequestError(Plain(BearerFormatText), StatusUnauthorized)))
    case Some(token) =>
      match st.world.parseClaims(a, token)
      case Failure(e) => Outcome(st, Some(NewRequestError(e, StatusUnauthorized)))
      case Success(claims) => after(ctx.(claims := Some(claims)), st, r)
  }

  /** Authenticate(authenticator) as a middleware. */
  function Authenticate(a: Authenticator): Middleware
  {
    (after: Handler) => (ctx: Ctx, st: State, r: Request) => ServeAuthenticated(a, after, ctx, st, r)
  }

  const ErrForbidden: Err := NewRequestError(Plain("you are not authorized for that action"), StatusForbidden)
  const ErrClaimsMissing: Err := Plain("claims missing from context")

  /** The handler HasRoles(roles...) wraps around `after`: without claims it
      returns a plain error (not a request error); with claims holding none of
      the roles it returns ErrForbidden; otherwise `after` runs with the same
      context. */
  function ServeWithRoles(roles: seq<string>, after: Handler, ctx: Ctx, st: State, r: Request): (o: Outcome)
    ensures ctx.claims.None? ==> o == Outcome(st, Some(ErrClaimsMissing))
    ensures ctx.claims.Some? && !AuthRoles.HasRoles(ctx.claims.value, roles) ==> o == Outcome(st, Some(ErrForbidden))
    ensures ctx.claims.Some? && AuthRoles.HasRoles(ctx.claims.value, roles) ==> o == after(ctx, st, r)
  {
    if ctx.claims.None? then Outcome(st, Some(ErrClaimsMissing))
    else if !AuthRoles.HasRoles(ctx.claims.value, roles) then Outcome(st, Some(ErrForbidden))
    else after(ctx, st, r)
  }

  /** HasRoles(roles...) as a middleware. */
  function HasRoles(roles: seq<string>): Middleware
  {
    (after: Handler) => (ctx: Ctx, st: State, r: Request) => ServeWithRoles(roles, after, ctx, st, r)
  }

  /** ErrForbidden is a 403 request error; the missing-claims error is not a
      request error at all, so it ends up as a 500. */
  lemma GateErrors()
    ensures Cause(ErrForbidden).WebError? && Cause(ErrForbidden).status == 403
    ensures Message(ErrForbidden) == "you are not authorized for that action"
    ensures !Cause(ErrClaimsMissing).WebError?
  {
  }

  /** With a single required role, the gate opens exactly for claims that hold it. */
  lemma SingleRoleGate(c: AuthRoles.Claims, role: string)
    ensures AuthRoles.HasRoles(c, [role]) <==> role in c.roles
  {
    if role in c.roles {
      assert role in [role];
    }
  }
}
