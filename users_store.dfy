/** The users store (internal/store/users.go): the password credential with
    its in-place SetPassword, user creation with its constraint-name error
    classification, and the two lookups with their not-found mapping. The
    bcrypt hasher and the database are oracles. */
module UsersStore {
  import opened Results
  import opened Sql
  import opened StoreErrors

  type Bytes = seq<bv8>

  /** The credential of a user: the plaintext it was set from, if it was set
      in this process, and the hash that is stored. */
  class Password {
    var text: Option<string>
    var hash: Bytes

    /** The zero value: no plaintext, an empty hash. */
    constructor ()
      ensures text == None && hash == []
    {
      text := None;
      hash := [];
    }

    /** SetPassword: hashes `plain` with `hasher`; only when hashing succeeds
        are the plaintext and the hash stored, otherwise the credential is
        left as it was and the hasher's error is returned. */
    method SetPassword(plain: string, hasher: string -> Result<Bytes, string>) returns (err: Option<string>)
      modifies this
      ensures hasher(plain).Err? ==> err == Some(hasher(plain).error) && text == old(text) && hash == old(hash)
      ensures hasher(plain).Ok? ==> err == None && text == Some(plain) && hash == hasher(plain).value
    {
      var hashed := hasher(plain);
      if hashed.Err? {
        return Some(hashed.error);
      }
      text := Some(plain);
      hash := hashed.value;
      err := None;
    }
  }

  /** A user record. The credential is a value inside the record in the
      source, so here it is an object no other user shares. */
  class User {
    var id: int
    var username: string
    var email: string
    const password: Password
    var createdAt: string

    constructor (username: string, email: string)
      ensures this.username == username && this.email == email
      ensures id == 0 && createdAt == ""
      ensures fresh(password) && password.text == None && password.hash == []
    {
      id := 0;
      this.username := username;
      this.email := email;
      password := new Password();
      createdAt := "";
    }
  }

  // ---------------------------------------------------------------- create

  const EmailKeyViolation: string := "pq: duplicate key value violates unique constraint \"users_email_key\""
  const UsernameKeyViolation: string := "pq: duplicate key value violates unique constraint \"users_username_key\""

  /** The classification in Create: an error whose text is exactly the
      violation of the email (username) unique constraint becomes
      ErrDuplicateEmail (ErrDuplicateUsername); any other error passes through. */
  function CreateError(e: DbError): (r: StoreError)
    ensures r == DuplicateEmail <==> ErrorText(e) == EmailKeyViolation
    ensures r == DuplicateUsername <==> ErrorText(e) == UsernameKeyViolation
    ensures ErrorText(e) != EmailKeyViolation && ErrorText(e) != UsernameKeyViolation ==> r == Database(e)
  {
    if ErrorText(e) == EmailKeyViolation then DuplicateEmail
    else if ErrorText(e) == UsernameKeyViolation then DuplicateUsername
    else Database(e)
  }

  /** The match is on the whole text: the same violation reported with any
      extra text is not recognised. */
  lemma CreateErrorNeedsExactText(suffix: string)
    requires suffix != ""
    ensures CreateError(Driver(EmailKeyViolation + suffix)) == Database(Driver(EmailKeyViolation + suffix))
    ensures CreateError(Driver(UsernameKeyViolation + suffix)) == Database(Driver(UsernameKeyViolation + suffix))
  {
    assert |EmailKeyViolation + suffix| != |EmailKeyViolation|;
    assert |UsernameKeyViolation + suffix| != |UsernameKeyViolation|;
    assert |UsernameKeyViolation + suffix| != |EmailKeyViolation|;
    assert (EmailKeyViolation + suffix)[58] != UsernameKeyViolation[58];
  }

  const InsertQuery: string := "INSERT INTO users (username, password, email) VALUES($1, $2, $3) RETURNING id, created_at"
  const SelectByEmailQuery: string := "SELECT id, username, email, password, created_at FROM users WHERE email = $1"
  const SelectByIdQuery: string := "SELECT users.id, username, email, password, created_at FROM users WHERE users.id = $1"

  /** The insert: username, password hash and email, returning the new id and
      creation time. */
  function InsertStatement(username: string, hash: Bytes, email: string): Statement
  {
    Statement(InsertQuery,
              [Str(username), Blob(hash), Str(email)])
  }

  datatype CreatedRow = CreatedRow(id: int, createdAt: string)

  /** Create: sends the user's name, hash and email; on success the returned
      id and creation time are written into the user, on failure the user is
      untouched and the classified error is returned. */
  method Create(user: User, insert: Statement -> Result<CreatedRow, DbError>) returns (err: Option<StoreError>)
    modifies user
    ensures user.username == old(user.username) && user.email == old(user.email)
    ensures insert(InsertStatement(user.username, user.password.hash, user.email)).Err? ==>
              && err == Some(CreateError(insert(InsertStatement(user.username, user.password.hash, user.email)).error))
              && user.id == old(user.id) && user.createdAt == old(user.createdAt)
    ensures insert(InsertStatement(user.username, user.password.hash, user.email)).Ok? ==>
              var row := insert(InsertStatement(user.username, user.password.hash, user.email)).value;
              err == None && user.id == row.id && user.createdAt == row.createdAt
  {
    var outcome := insert(InsertStatement(user.username, user.password.hash, user.email));
    match outcome
    case Err(e) =>
      err := Some(CreateError(e));
    case Ok(row) =>
      user.id := row.id;
      user.createdAt := row.createdAt;
      err := None;
  }

  // ---------------------------------------------------------------- lookups

  /** A row of the `users` table as the lookups select it. */
  datatype UserRow = UserRow(id: int, username: string, email: string, password: Bytes, createdAt: string)

  /** The switch in GetByEmail and GetByID: "no rows" is ErrNotFound, any
      other error passes through. */
  function LookupError(e: DbError): (r: StoreError)
    ensures r == NotFound <==> e == NoRows
    ensures e != NoRows ==> r == Database(e)
  {
    if e == NoRows then NotFound else Database(e)
  }

  function SelectByEmailStatement(email: string): Statement
  {
    Statement(SelectByEmailQuery, [Str(email)])
  }

  function SelectByIdStatement(userID: int): Statement
  {
    Statement(SelectByIdQuery, [Int(userID)])
  }

  /** GetByEmail: no user and the classified error on failure; otherwise a
      new user holding the row, whose credential is the stored hash with no
      plaintext. */
  method GetByEmail(email: string, query: Statement -> Result<UserRow, DbError>) returns (user: User?, err: Option<StoreError>)
    ensures query(SelectByEmailStatement(email)).Err? ==>
              user == null && err == Some(LookupError(query(SelectByEmailStatement(email)).error))
    ensures query(SelectByEmailStatement(email)).Ok? ==>
              var row := query(SelectByEmailStatement(email)).value;
              && err == None && user != null && fresh(user) && fresh(user.password)
              && user.id == row.id && user.username == row.username && user.email == row.email
              && user.createdAt == row.createdAt
              && user.password.text == None && user.password.hash == row.password
  {
    var outcome := query(SelectByEmailStatement(email));
    match outcome
    case Err(e) =>
      return null, Some(LookupError(e));
    case Ok(row) =>
      var u := new User(row.username, row.email);
      u.id := row.id;
      u.createdAt := row.createdAt;
      u.password.text := None;
      u.password.hash := row.password;
      return u, None;
  }

  /** GetByID: as GetByEmail, keyed by id. */
  method GetByID(userID: int, query: Statement -> Result<UserRow, DbError>) returns (user: User?, err: Option<StoreError>)
    ensures query(SelectByIdStatement(userID)).Err? ==>
              user == null && err == Some(LookupError(query(SelectByIdStatement(userID)).error))
    ensures query(SelectByIdStatement(userID)).Ok? ==>
              var row := query(SelectByIdStatement(userID)).value;
              && err == None && user != null && fresh(user) && fresh(user.password)
              && user.id == row.id && user.username == row.username && user.email == row.email
              && user.createdAt == row.createdAt
              && user.password.text == None && user.password.hash == row.password
  {
    var outcome := query(SelectByIdStatement(userID));
    match outcome
    case Err(e) =>
      return null, Some(LookupError(e));
    case Ok(row) =>
      var u := new User(row.username, row.email);
      u.id := row.id;
      u.password.hash := row.password;
      u.createdAt := row.createdAt;
      return u, None;
  }
}
