/** Every error value the two stores hand back to their callers: the sentinel
    errors of internal/store/store.go and internal/store/users.go, the
    `fmt.Errorf` errors of internal/store/todos.go, and driver errors passed
    through unchanged. */
module StoreErrors {
  import opened Sql
  import Strconv

  datatype StoreError =
    | NotFound                      // store.ErrNotFound
    | Conflict                      // store.ErrConflict (declared; nothing in the stores returns it)
    | DuplicateEmail                // store.ErrDuplicateEmail
    | DuplicateUsername             // store.ErrDuplicateUsername
    | NoFieldsToUpdate              // "no fields to update"
    | NoTodoFound(id: int)          // "no todo found with ID %d"
    | UpdateFailed(cause: DbError)  // "error updating todo: %w"
    | Database(cause: DbError)      // the driver's error itself

  /** `err.Error()` of each store error. */
  function Message(e: StoreError): string
  {
    match e
    case NotFound => "resource not found"
    case Conflict => "resource already exists"
    case DuplicateEmail => "a user with that email already exists"
    case DuplicateUsername => "a user with that username already exists"
    case NoFieldsToUpdate => "no fields to update"
    case NoTodoFound(id) => "no todo found with ID " + Strconv.FormatInt(id)
    case UpdateFailed(cause) => "error updating todo: " + ErrorText(cause)
    case Database(cause) => ErrorText(cause)
  }

  /** The errors with fixed texts that callers compare against. */
  const Sentinels: set<StoreError> := {NotFound, Conflict, DuplicateEmail, DuplicateUsername, NoFieldsToUpdate}

  /** No two of them share a text. */
  lemma SentinelMessagesDistinct()
    ensures forall e1, e2 :: e1 in Sentinels && e2 in Sentinels && e1 != e2 ==> Message(e1) != Message(e2)
  {
    assert |Message(NotFound)| == 18 && |Message(Conflict)| == 23;
    assert |Message(DuplicateEmail)| == 37 && |Message(DuplicateUsername)| == 40;
    assert |Message(NoFieldsToUpdate)| == 19;
  }

  /** The "no todo found" text names the id it was made for. */
  lemma NoTodoFoundMessageNamesId(a: int, b: int)
    requires Strconv.IsInt64(a) && Strconv.IsInt64(b)
    requires Message(NoTodoFound(a)) == Message(NoTodoFound(b))
    ensures a == b
  {
    var prefix := "no todo found with ID ";
    assert Message(NoTodoFound(a))[|prefix|..] == Strconv.FormatInt(a);
    assert Message(NoTodoFound(b))[|prefix|..] == Strconv.FormatInt(b);
    Strconv.FormatIntInjective(a, b);
  }
}
