/** internal/platform/user/user.go: creating users and checking their
    credentials. The `users` table is a sequence of rows; bcrypt, the uuid
    generator and the database's verdicts are inputs. */
module Users {
  import opened Wrappers
  import opened WebErrors
  import opened AuthRoles

  /** User: one row of the `users` table; times are UTC nanoseconds. */
  datatype User = User(
    id: string,
    name: string,
    email: string,
    roles: seq<string>,
    passwordHash: string,
    dateCreated: int,
    dateUpdated: int)

  /** NewUser: what is needed to create a user. */
  datatype NewUser = NewUser(name: string, email: string, roles: seq<string>, password: string, passwordConfirm: string)

  /** bcrypt.CompareHashAndPassword(hash, password) == nil */
  type PasswordCheck = (string, string) -> bool

  /** The first row with the given email, as a single-row SELECT returns it. */
  function FindByEmail(rows: seq<User>, email: string): (r: Option<User>)
    ensures r.Some? <==> exists u :: u in rows && u.email == email
    ensures r.Some? ==> r.value in rows && r.value.email == email
    decreases |rows|
  {
    if rows == [] then None
    else if rows[0].email == email then Some(rows[0])
    else FindByEmail(rows[1..], email)
  }

  /** db.GetContext on `SELECT * FROM users WHERE email = $1`: a failing query
      reports its error, no row reports sql.ErrNoRows. */
  function SelectUser(rows: seq<User>, queryErr: Option<Err>, email: string): (r: Result<User, Err>)
    ensures queryErr.Some? ==> r == Failure(queryErr.value)
    ensures queryErr.None? && r.Failure? ==> r.error == Sentinel(SqlNoRows)
    ensures r.Success? ==> r.value in rows && r.value.email == email
    ensures queryErr.None? ==> (r.Success? <==> exists u :: u in rows && u.email == email)
  {
    if queryErr.Some? then Failure(queryErr.value)
    else match FindByEmail(rows, email)
      case None => Failure(Sentinel(SqlNoRows))
      case Some(u) => Success(u)
  }

  /** Authenticate: an unknown email and a wrong password both give the same
      ErrAuthenticationFailure, so a caller cannot tell which one it was; any
      other database error is wrapped; success yields one-hour claims for the
      user, with the user's id as subject and the user's roles. */
  function Authenticate(rows: seq<User>, queryErr: Option<Err>, matches: PasswordCheck,
                        now: int, email: string, password: string): (r: Result<Claims, Err>)
    ensures r.Success? <==>
      queryErr.None? && FindByEmail(rows, email).Some? &&
      matches(FindByEmail(rows, email).value.passwordHash, password)
    ensures queryErr.Some? && queryErr.value != Sentinel(SqlNoRows) ==>
      r == Failure(Wrapped("selecting single user", queryErr.value))
    ensures r.Failure? && (queryErr.None? || queryErr.value == Sentinel(SqlNoRows)) ==>
      r.error == ErrAuthenticationFailure
    ensures r.Success? ==>
      var u := FindByEmail(rows, email).value;
      r.value.subject == u.id && r.value.roles == u.roles &&
      r.value.expiresAt == r.value.issuedAt + 3600 &&
      r.value.issuedAt * NanosPerSecond <= now < (r.value.issuedAt + 1) * NanosPerSecond
  {
    match SelectUser(rows, queryErr, email)
    case Failure(e) =>
      if e == Sentinel(SqlNoRows) then Failure(ErrAuthenticationFailure)
      else Failure(Wrapped("selecting single user", e))
    case Success(u) =>
      if !matches(u.passwordHash, password) then Failure(ErrAuthenticationFailure)
      else
        OneHourClaims(u.id, u.roles, now);
        Success(NewClaims(u.id, u.roles, now, Hour))
  }

  /** Whatever the reason a login fails that is not a database failure, the
      error is the same: an unknown email and a wrong password cannot be told
      apart. */
  lemma AuthenticationFailureIsUniform(rows: seq<User>, matches: PasswordCheck, now: int,
                                       unknown: string, known: string, password: string)
    requires FindByEmail(rows, unknown).None?
    requires FindByEmail(rows, known).Some?
    requires !matches(FindByEmail(rows, known).value.passwordHash, password)
    ensures Authenticate(rows, None, matches, now, unknown, password)
         == Authenticate(rows, None, matches, now, known, password)
         == Failure(ErrAuthenticationFailure)
  {
  }

  /** The `users` table, changed in place by Create. */
  class UserTable {
    var rows: seq<User>

    constructor ()
      ensures rows == []
    {
      rows := [];
    }

    /** Create: hash the password (a hashing failure is wrapped and nothing is
        inserted), build the row with both dates set to `now`, insert it (an
        insert failure is returned as it is and the table is unchanged). */
    method Create(nu: NewUser, now: int, hash: Result<string, Err>, id: string, insertErr: Option<Err>)
      returns (r: Result<User, Err>)
      modifies this
      ensures hash.Failure? ==> r == Failure(Wrapped("generate password hash", hash.error)) && rows == old(rows)
      ensures hash.Success? && insertErr.Some? ==> r == Failure(insertErr.value) && rows == old(rows)
      ensures r.Success? <==> hash.Success? && insertErr.None?
      ensures r.Success? ==>
        rows == old(rows) + [r.value] &&
        r.value == User(id, nu.name, nu.email, nu.roles, hash.value, now, now)
    {
      if hash.Failure? {
        return Failure(Wrapped("generate password hash", hash.error));
      }
      var u := User(id, nu.name, nu.email, nu.roles, hash.value, now, now);
      if insertErr.Some? {
        return Failure(insertErr.value);
      }
      rows := rows + [u];
      r := Success(u);
    }
  }
}
