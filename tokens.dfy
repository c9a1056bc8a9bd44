/** The claim checks of the JWT authenticator (internal/auth/jwt.go). The
    HMAC signature itself is not modelled: a token stands for the claim set
    it carries, and only the checks on that set are stated. */
module Tokens {
  import opened Claims

  /** JWTAuthenticator: the signing secret and the audience and issuer it
      validates against. */
  datatype Authenticator = Authenticator(secret: string, aud: string, iss: string)

  /** NewJWTAuthenticator(secret, aud, iss): the fields are filled by
      position, so the `aud` field receives the `iss` argument and the `iss`
      field the `aud` argument. */
  function NewAuthenticator(secret: string, aud: string, iss: string): (a: Authenticator)
    ensures a.secret == secret
    ensures a.aud == iss && a.iss == aud
  {
    Authenticator(secret, iss, aud)
  }

  /** ValidateToken's claim checks at time `now`: an "exp" is required and
      must lie after `now`, an "nbf" must not, and both the audience and the
      issuer are compared with the `aud` field. */
  predicate Validates(a: Authenticator, c: ClaimSet, now: int)
  {
    AcceptedAt(c, now, a.aud, a.aud)
  }

  /** Because of the positional fill and the doubled `aud`, what an
      authenticator accepts depends only on its `iss` argument: both "iss" and
      "aud" of a token must equal it, and the `aud` argument is never
      consulted. */
  lemma ValidationUsesOnlyIssArgument(secret: string, aud: string, iss: string, c: ClaimSet, now: int)
    ensures Validates(NewAuthenticator(secret, aud, iss), c, now) <==>
              && "exp" in c && c["exp"].Number? && now < c["exp"].n * NanosPerSecond
              && ("nbf" in c ==> c["nbf"].Number? && c["nbf"].n * NanosPerSecond <= now)
              && "iss" in c && c["iss"] == Text(iss)
              && "aud" in c && c["aud"] == Text(iss)
  {
  }

  /** A token whose "aud" is the audience argument is rejected whenever that
      argument differs from the issuer argument. */
  lemma DistinctAudienceRejected(secret: string, aud: string, iss: string, c: ClaimSet, now: int)
    requires aud != iss
    requires "aud" in c && c["aud"] == Text(aud)
    ensures !Validates(NewAuthenticator(secret, aud, iss), c, now)
  {
  }
}
