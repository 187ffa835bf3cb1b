/** internal/platform/auth/roles.go: the claims carried by a token and the
    role names. Times are Go `time.Time` values given as integer nanoseconds
    since the Unix epoch; durations are integer nanoseconds. */
module AuthRoles {

  /** The expected values of Claims.Roles. */
  const RoleAdmin: string := "ADMIN"
  const RoleUser: string := "USER"

  const NanosPerSecond: int := 1_000_000_000
  /** time.Hour */
  const Hour: int := 3600 * NanosPerSecond

  /** Claims: the role list plus the standard JWT claims the service sets
      (`sub`, `iat` and `exp` of RFC 7519 section 4.1, the last two as
      NumericDate seconds). The standard claims it leaves empty are not modelled. */
  datatype Claims = Claims(roles: seq<string>, subject: string, issuedAt: int, expiresAt: int)

  /** time.Time.Unix: whole seconds since the epoch, rounded down (the
      nanosecond part of a Go time is always in [0, 1e9)). */
  function Unix(t: int): (s: int)
    ensures s * NanosPerSecond <= t < (s + 1) * NanosPerSecond
  {
    t / NanosPerSecond
  }

  /** NewClaims: the claims of `subject` with `roles`, issued at `now` and
      expiring `expires` after it. */
  function NewClaims(subject: string, roles: seq<string>, now: int, expires: int): (c: Claims)
    ensures c.subject == subject && c.roles == roles
    ensures c.issuedAt * NanosPerSecond <= now < (c.issuedAt + 1) * NanosPerSecond
    ensures c.expiresAt * NanosPerSecond <= now + expires < (c.expiresAt + 1) * NanosPerSecond
  {
    Claims(roles, subject, Unix(now), Unix(now + expires))
  }

  /** A whole number of seconds added to `now` moves `Unix` by exactly that many seconds. */
  lemma {:induction false} UnixShift(now: int, seconds: int)
    ensures Unix(now + seconds * NanosPerSecond) == Unix(now) + seconds
  {
    var s := Unix(now);
    var t := Unix(now + seconds * NanosPerSecond);
    assert s * NanosPerSecond <= now < (s + 1) * NanosPerSecond;
    assert t * NanosPerSecond <= now + seconds * NanosPerSecond < (t + 1) * NanosPerSecond;
    assert (t - seconds) * NanosPerSecond <= now < (t - seconds + 1) * NanosPerSecond;
  }

  /** Claims made for one hour expire exactly 3600 seconds after they were issued. */
  lemma OneHourClaims(subject: string, roles: seq<string>, now: int)
    ensures NewClaims(subject, roles, now, Hour).expiresAt == NewClaims(subject, roles, now, Hour).issuedAt + 3600
  {
    UnixShift(now, 3600);
  }

  /** A non-negative lifetime never yields claims that expire before they are issued. */
  lemma {:induction false} ExpiryNotBeforeIssue(subject: string, roles: seq<string>, now: int, expires: int)
    requires expires >= 0
    ensures NewClaims(subject, roles, now, expires).expiresAt >= NewClaims(subject, roles, now, expires).issuedAt
  {
  }

  /** Claims.HasRoles: the claims hold at least one of the wanted roles. */
  predicate HasRoles(c: Claims, wanted: seq<string>)
  {
    exists r :: r in wanted && r in c.roles
  }
}
