/** The registration and login handlers of cmd/api/auth.go, with the token
    configuration of cmd/api/api.go and its defaults from cmd/api/main.go.
    The password hasher, the password comparison, the token signer, the
    email-format rule of the validator, the database and the clock are
    parameters. */
module AuthHandlers {
  import opened Results
  import opened Sql
  import opened StoreErrors
  import opened Http
  import opened Claims
  import Strconv
  import Tokens
  import UsersStore

  // ---------------------------------------------------------------- register

  /** RegisterUserPayload */
  datatype RegisterPayload = RegisterPayload(username: string, email: string, password: string)

  /** Its validation rules: every field is required, the username has at most
      20 characters, the email at most 200, the password 6 to 30. */
  predicate RegisterPayloadValid(p: RegisterPayload)
  {
    && p.username != "" && |p.username| <= 20
    && p.email != "" && |p.email| <= 200
    && p.password != "" && 6 <= |p.password| <= 30
  }

  /** The answer to a failed user creation: a duplicate email or username is
      the client's fault (400), anything else the server's (500); either way
      the store's error is what is reported. */
  function RegistrationErrorResponse(e: StoreError): (r: Response)
    ensures r.status == StatusBadRequest <==> e == DuplicateEmail || e == DuplicateUsername
    ensures r.status == StatusBadRequest || r.status == StatusInternalServerError
    ensures r.body == ErrorBody(StoreFailure(e))
  {
    match e
    case DuplicateEmail => BadRequest(StoreFailure(e))
    case DuplicateUsername => BadRequest(StoreFailure(e))
    case _ => InternalError(StoreFailure(e))
  }

  /** The outcome of registering a user from a payload: a hashing failure is
      an internal error and nothing is stored; otherwise the user is inserted
      under its username, hash and email, and the store's outcome decides the
      answer, success being 200 with no data. */
  predicate RegistrationOutcome(p: RegisterPayload, hasher: string -> Result<UsersStore.Bytes, string>,
                                insert: Statement -> Result<UsersStore.CreatedRow, DbError>,
                                resp: Response, trace: seq<Effect>)
  {
    && (hasher(p.password).Err? ==>
          resp == InternalError(HashFailure(hasher(p.password).error)) && trace == [Hashed(p.password)])
    && (hasher(p.password).Ok? ==>
          var st := UsersStore.InsertStatement(p.username, hasher(p.password).value, p.email);
          && trace == [Hashed(p.password), Executed(st)]
          && (insert(st).Ok? ==> resp == OkNoData)
          && (insert(st).Err? ==> resp == RegistrationErrorResponse(UsersStore.CreateError(insert(st).error))))
  }

  /** RegisterUserHandler. A body that does not decode, or does not pass the
      rules, is a bad request and nothing is hashed or stored; otherwise the
      user is registered as RegistrationOutcome describes. */
  method RegisterUser(decoded: Decoded<RegisterPayload>, hasher: string -> Result<UsersStore.Bytes, string>,
                      insert: Statement -> Result<UsersStore.CreatedRow, DbError>)
    returns (resp: Response, trace: seq<Effect>)
    ensures !decoded.ok ==> resp == BadRequest(DecodeError) && trace == []
    ensures decoded.ok && !RegisterPayloadValid(decoded.payload) ==> resp == BadRequest(ValidationError) && trace == []
    ensures decoded.ok && RegisterPayloadValid(decoded.payload) ==>
              RegistrationOutcome(decoded.payload, hasher, insert, resp, trace)
  {
    if !decoded.ok {
      return BadRequest(DecodeError), [];
    }
    if !RegisterPayloadValid(decoded.payload) {
      return BadRequest(ValidationError), [];
    }
    resp, trace := RegisterValidated(decoded.payload, hasher, insert);
  }

  /** The part of RegisterUserHandler after validation: hash, then store. */
  method RegisterValidated(p: RegisterPayload, hasher: string -> Result<UsersStore.Bytes, string>,
                           insert: Statement -> Result<UsersStore.CreatedRow, DbError>)
    returns (resp: Response, trace: seq<Effect>)
    ensures RegistrationOutcome(p, hasher, insert, resp, trace)
  {
    var user := new UsersStore.User(p.username, p.email);
    trace := [Hashed(p.password)];
    var hashErr := user.password.SetPassword(p.password, hasher);
    if hashErr.Some? {
      return InternalError(HashFailure(hashErr.value)), trace;
    }
    assert user.username == p.username && user.email == p.email;
    var st := UsersStore.InsertStatement(p.username, hasher(p.password).value, p.email);
    trace := trace + [Executed(st)];
    var err := UsersStore.Create(user, insert);
    if err.Some? {
      return RegistrationErrorResponse(err.value), trace;
    }
    resp := OkNoData;
  }

  // ---------------------------------------------------------------- token configuration

  /** tokenConfig: the signing secret, the token lifetime in nanoseconds (a
      time.Duration) and the issuer. */
  datatype TokenConfig = TokenConfig(secret: string, exp: int, iss: string)

  const NanosPerHour: int := 3600 * NanosPerSecond

  /** The configuration the server starts with: a lifetime of three days and
      the issuer "open-todo-go"; the secret comes from the environment. */
  function DefaultTokenConfig(secret: string): (cfg: TokenConfig)
    ensures cfg.secret == secret && cfg.iss == "open-todo-go"
    ensures cfg.exp == 259200 * NanosPerSecond
  {
    TokenConfig(secret, NanosPerHour * 24 * 3, "open-todo-go")
  }

  /** The server's authenticator: both its audience and its issuer argument
      are the configured issuer. */
  function ServerAuthenticator(cfg: TokenConfig): (a: Tokens.Authenticator)
    ensures a.aud == cfg.iss && a.iss == cfg.iss && a.secret == cfg.secret
  {
    Tokens.NewAuthenticator(cfg.secret, cfg.iss, cfg.iss)
  }

  // ---------------------------------------------------------------- login

  /** CreateUserTokenPayload */
  datatype LoginPayload = LoginPayload(email: string, password: string)

  /** Its validation rules: a required email in email format of at most 255
      characters, and a required password of 3 to 72 characters. */
  predicate LoginPayloadValid(p: LoginPayload, isEmail: string -> bool)
  {
    && p.email != "" && isEmail(p.email) && |p.email| <= 255
    && p.password != "" && 3 <= |p.password| <= 72
  }

  /** The answer to a failed lookup: an unknown email is unauthorised (401),
      any other failure an internal error (500), reporting the store's error. */
  function LookupErrorResponse(e: StoreError): (r: Response)
    ensures r.status == StatusUnauthorized <==> e == NotFound
    ensures r.status == StatusUnauthorized || r.status == StatusInternalServerError
    ensures r.body == ErrorBody(StoreFailure(e))
  {
    if e == NotFound then Unauthorized(StoreFailure(e)) else InternalError(StoreFailure(e))
  }

  /** The three readings of the clock the handler takes, in nanoseconds since
      the epoch: for "exp", for "iat" and for "nbf", in that order. */
  datatype ClockReadings = ClockReadings(forExp: int, forIat: int, forNbf: int)

  /** The claims of a login token. */
  function LoginClaims(userID: int, cfg: TokenConfig, clock: ClockReadings): (c: ClaimSet)
    ensures c.Keys == LoginClaimNames
    ensures c["sub"] == Number(userID)
    ensures c["iss"] == c["aud"] == Text(cfg.iss)
  {
    map["sub" := Number(userID),
        "exp" := Number(Unix(clock.forExp + cfg.exp)),
        "iat" := Number(Unix(clock.forIat)),
        "nbf" := Number(Unix(clock.forNbf)),
        "iss" := Text(cfg.iss),
        "aud" := Text(cfg.iss)]
  }

  /** The data of a successful login answer. */
  function TokenBody(token: string, userID: int): (data: map<string, string>)
    ensures data.Keys == {"token", "userID"} && data["token"] == token
  {
    map["token" := token, "userID" := Strconv.FormatInt(userID)]
  }

  /** LoginHandler. A body that does not decode or pass the rules is a bad
      request and the store is not consulted. A failed lookup is answered by
      LookupErrorResponse. A password that does not match the stored hash is
      unauthorised and nothing is signed. A signing failure is an internal
      error; otherwise the answer is 200 with the token and the user's id. */
  method Login(decoded: Decoded<LoginPayload>, isEmail: string -> bool,
               query: Statement -> Result<UsersStore.UserRow, DbError>,
               verify: (string, UsersStore.Bytes) -> bool,
               sign: ClaimSet -> Result<string, string>,
               cfg: TokenConfig, clock: ClockReadings)
    returns (resp: Response, trace: seq<Effect>)
    ensures !decoded.ok ==> resp == BadRequest(DecodeError) && trace == []
    ensures decoded.ok && !LoginPayloadValid(decoded.payload, isEmail) ==> resp == BadRequest(ValidationError) && trace == []
    ensures decoded.ok && LoginPayloadValid(decoded.payload, isEmail) ==>
              var p := decoded.payload;
              var lookup := UsersStore.SelectByEmailStatement(p.email);
              && (query(lookup).Err? ==>
                    && resp == LookupErrorResponse(UsersStore.LookupError(query(lookup).error))
                    && trace == [Executed(lookup)])
              && (query(lookup).Ok? && !verify(p.password, query(lookup).value.password) ==>
                    && resp == Unauthorized(Plain("invalid email or password"))
                    && trace == [Executed(lookup), Verified(p.password)])
              && (query(lookup).Ok? && verify(p.password, query(lookup).value.password) ==>
                    var claims := LoginClaims(query(lookup).value.id, cfg, clock);
                    && trace == [Executed(lookup), Verified(p.password), Signed(claims)]
                    && (sign(claims).Err? ==> resp == InternalError(SigningFailure(sign(claims).error)))
                    && (sign(claims).Ok? ==>
                          resp == Response(StatusOK, Fields(TokenBody(sign(claims).value, query(lookup).value.id)))))
  {
    if !decoded.ok {
      return BadRequest(DecodeError), [];
    }
    var p := decoded.payload;
    if !LoginPayloadValid(p, isEmail) {
      return BadRequest(ValidationError), [];
    }
    trace := [Executed(UsersStore.SelectByEmailStatement(p.email))];
    var user, err := UsersStore.GetByEmail(p.email, query);
    if err.Some? {
      return LookupErrorResponse(err.value), trace;
    }
    trace := trace + [Verified(p.password)];
    if !verify(p.password, user.password.hash) {
      return Unauthorized(Plain("invalid email or password")), trace;
    }
    var userID := user.id;
    var claims := LoginClaims(user.id, cfg, clock);
    trace := trace + [Signed(claims)];
    var token := sign(claims);
    if token.Err? {
      return InternalError(SigningFailure(token.error)), trace;
    }
    resp := Response(StatusOK, Fields(TokenBody(token.value, userID)));
  }

  // ---------------------------------------------------------------- properties of the token

  /** Rounding down to whole seconds commutes with adding whole seconds. */
  lemma UnixShift(t: int, k: int)
    ensures Unix(t + k * NanosPerSecond) == Unix(t) + k
  {
    var s := Unix(t);
    var u := Unix(t + k * NanosPerSecond);
    assert (s + k) * NanosPerSecond <= t + k * NanosPerSecond < (s + k + 1) * NanosPerSecond;
  }

  /** With a lifetime of whole seconds, a login token is accepted by the
      server's authenticator exactly from the second of its "nbf" reading up
      to, and not including, the second of its "exp" reading plus the
      lifetime. */
  lemma LoginTokenWindow(userID: int, cfg: TokenConfig, clock: ClockReadings, now: int)
    requires cfg.exp % NanosPerSecond == 0
    ensures Tokens.Validates(ServerAuthenticator(cfg), LoginClaims(userID, cfg, clock), now) <==>
              Unix(clock.forNbf) * NanosPerSecond <= now < Unix(clock.forExp) * NanosPerSecond + cfg.exp
  {
    var k := cfg.exp / NanosPerSecond;
    assert cfg.exp == k * NanosPerSecond;
    UnixShift(clock.forExp, k);
    assert Unix(clock.forExp + cfg.exp) * NanosPerSecond == Unix(clock.forExp) * NanosPerSecond + cfg.exp;
  }

  /** A token issued at a single instant `t` with a positive whole-second
      lifetime is accepted at `t` itself and rejected once the lifetime has
      passed, and before the second `t` falls in. */
  lemma LoginTokenLifetime(userID: int, cfg: TokenConfig, t: int)
    requires cfg.exp > 0 && cfg.exp % NanosPerSecond == 0
    ensures Tokens.Validates(ServerAuthenticator(cfg), LoginClaims(userID, cfg, ClockReadings(t, t, t)), t)
    ensures !Tokens.Validates(ServerAuthenticator(cfg), LoginClaims(userID, cfg, ClockReadings(t, t, t)), t + cfg.exp)
    ensures !Tokens.Validates(ServerAuthenticator(cfg), LoginClaims(userID, cfg, ClockReadings(t, t, t)), Unix(t) * NanosPerSecond - 1)
  {
    var clock := ClockReadings(t, t, t);
    LoginTokenWindow(userID, cfg, clock, t);
    LoginTokenWindow(userID, cfg, clock, t + cfg.exp);
    LoginTokenWindow(userID, cfg, clock, Unix(t) * NanosPerSecond - 1);
  }

  /** Under the default configuration a token is good for exactly 259200
      seconds (three days) from the second it was issued in, and its "exp"
      lies 259200 after its "iat". */
  lemma DefaultTokenLifetime(secret: string, userID: int, t: int, now: int)
    ensures var c := LoginClaims(userID, DefaultTokenConfig(secret), ClockReadings(t, t, t));
            && c["exp"].n - c["iat"].n == 259200
            && (Tokens.Validates(ServerAuthenticator(DefaultTokenConfig(secret)), c, now) <==>
                  Unix(t) * NanosPerSecond <= now < (Unix(t) + 259200) * NanosPerSecond)
  {
    var cfg := DefaultTokenConfig(secret);
    UnixShift(t, 259200);
    LoginTokenWindow(userID, cfg, ClockReadings(t, t, t), now);
  }

  /** The id in a login answer is the decimal text of the user's id: a client
      parsing it back as an int64 gets the id. */
  lemma TokenBodyUserIDParsesBack(token: string, userID: int)
    requires Strconv.IsInt64(userID)
    ensures Strconv.ParseInt(TokenBody(token, userID)["userID"]) == Ok(userID)
  {
    Strconv.ParseFormatRoundTrip(userID);
  }
}
