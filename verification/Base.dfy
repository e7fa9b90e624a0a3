/** Time, identifiers and the constants bauth fixes in its source. */
module Base {

  datatype Option<+T> = None | Some(value: T)

  /** Instants and durations in microseconds, the resolution of a Postgres `timestamptz`. */
  type Time = int

  const SECOND: Time := 1_000_000
  const MINUTE: Time := 60 * SECOND
  const HOUR: Time := 60 * MINUTE
  const DAY: Time := 24 * HOUR

  /** Row identifiers. One counter hands them out, so an identifier is never used twice. The secret
      mailed or returned for a row (link token, authorization code, refresh token) is unique to it and
      stored as a digest, so presenting the secret is naming the row. */
  type Id = nat

  /** Addresses are already normalised (trimmed, lower case). */
  type Email = string
  type ClientId = string

  const SESSION_TTL: Time := 30 * DAY
  const REFRESH_REUSE_GRACE: Time := 30 * SECOND
  const ACCESS_TOKEN_TTL: Time := 15 * MINUTE
  const FLOW_TTL: Time := 15 * MINUTE
  const AUTHORIZATION_CODE_TTL: Time := 60 * SECOND
  const EMAIL_CHANGE_TTL: Time := HOUR
  /** How long an emailed code, and the link next to it, works. */
  const CODE_TTL: Time := 15 * MINUTE
  const MAX_EMAILS_PER_FLOW: nat := 3
  const MAX_FAILURES_PER_CODE: nat := 5
  const MAX_FAILURES_PER_DAY: nat := 10

  /** `x < t` in SQL on a nullable column: NULL is not before anything. */
  predicate Before(x: Option<Time>, t: Time) {
    x.Some? && x.value < t
  }

  function Max(a: Time, b: Time): Time {
    if a < b then b else a
  }
}
