/** A JWT claim set (section 4.1 of RFC 7519) and the checks the token
    validator applies to one: "exp" (section 4.1.4) and "nbf" (section 4.1.5)
    against the current time, "iss" and "aud" against configured values. */
module Claims {

  datatype Claim = Number(n: int) | Text(s: string)

  type ClaimSet = map<string, Claim>

  /** The registered claim names the login handler sets. */
  const LoginClaimNames: set<string> := {"sub", "exp", "iat", "nbf", "iss", "aud"}

  const NanosPerSecond: int := 1_000_000_000

  /** `time.Time.Unix()` of a time given in nanoseconds since the epoch:
      whole seconds, rounded down. */
  function Unix(t: int): (s: int)
    ensures s * NanosPerSecond <= t < (s + 1) * NanosPerSecond
  {
    t / NanosPerSecond
  }

  /** A token carrying `c` is accepted at time `now` (nanoseconds): `now` is
      strictly before "exp" and not before "nbf", and "iss" and "aud" are the
      expected strings. */
  predicate AcceptedAt(c: ClaimSet, now: int, iss: string, aud: string)
  {
    && "exp" in c && c["exp"].Number? && now < c["exp"].n * NanosPerSecond
    && ("nbf" in c ==> c["nbf"].Number? && c["nbf"].n * NanosPerSecond <= now)
    && "iss" in c && c["iss"] == Text(iss)
    && "aud" in c && c["aud"] == Text(aud)
  }
}
