/** The todo handlers of cmd/api/todos.go that create, update and delete, the
    update-map construction, and the caller-identity placeholder. The path
    parameter `{todoID}` arrives as text, the body as a Decoded payload, and
    the database as an oracle. */
module TodoHandlers {
  import opened Results
  import opened Sql
  import opened StoreErrors
  import opened Http
  import Strconv
  import TodosStore

  /** getUserIDFromContext: a placeholder that ignores the request and
      always answers user 1. */
  function UserIDFromContext(): (userID: int)
    ensures userID == 1
  {
    1
  }

  // ---------------------------------------------------------------- update map

  /** UpdatedTodoPayload: every field may be absent (a nil pointer or a nil
      slice). A present priority is any int64 the decoder accepted. */
  datatype UpdatePayload = UpdatePayload(
    title: Option<string>,
    description: Option<string>,
    priority: Option<int>,
    completed: Option<bool>,
    tags: Option<seq<string>>)

  /** The column names an update map can name. */
  const UpdatableFields: set<string> := {"title", "description", "priority", "completed", "tags"}

  /** The value the payload supplies under a column name, if it supplies one. */
  function FieldValue(p: UpdatePayload, field: string): Option<Value>
  {
    if field == "title" && p.title.Some? then Some(Str(p.title.value))
    else if field == "description" && p.description.Some? then Some(Str(p.description.value))
    else if field == "priority" && p.priority.Some? then Some(Int(p.priority.value))
    else if field == "completed" && p.completed.Some? then Some(Bool(p.completed.value))
    else if field == "tags" && p.tags.Some? then Some(StrArray(p.tags.value))
    else None
  }

  /** The update map a payload stands for: each column the payload supplies,
      bound to the supplied value. */
  function UpdatesOf(p: UpdatePayload): map<string, Value>
  {
    map f | f in UpdatableFields && FieldValue(p, f).Some? :: FieldValue(p, f).value
  }

  /** The names of the payload fields that are present. */
  function PresentFields(p: UpdatePayload): set<string>
  {
    (if p.title.Some? then {"title"} else {})
    + (if p.description.Some? then {"description"} else {})
    + (if p.priority.Some? then {"priority"} else {})
    + (if p.completed.Some? then {"completed"} else {})
    + (if p.tags.Some? then {"tags"} else {})
  }

  /** The column-by-column description of a payload's update map. */
  predicate DescribesUpdates(p: UpdatePayload, m: map<string, Value>)
  {
    && m.Keys == PresentFields(p)
    && (p.title.Some? ==> m["title"] == Str(p.title.value))
    && (p.description.Some? ==> m["description"] == Str(p.description.value))
    && (p.priority.Some? ==> m["priority"] == Int(p.priority.value))
    && (p.completed.Some? ==> m["completed"] == Bool(p.completed.value))
    && (p.tags.Some? ==> m["tags"] == StrArray(p.tags.value))
  }

  /** buildUpdatesMap: starts from an empty map and inserts one entry per
      present payload field. */
  method BuildUpdatesMap(p: UpdatePayload) returns (updates: map<string, Value>)
    ensures updates == UpdatesOf(p)
  {
    updates := map[];
    if p.title.Some? {
      updates := updates["title" := Str(p.title.value)];
    }
    if p.description.Some? {
      updates := updates["description" := Str(p.description.value)];
    }
    if p.priority.Some? {
      updates := updates["priority" := Int(p.priority.value)];
    }
    if p.completed.Some? {
      updates := updates["completed" := Bool(p.completed.value)];
    }
    if p.tags.Some? {
      updates := updates["tags" := StrArray(p.tags.value)];
    }
    assert DescribesUpdates(p, updates);
    OnlyUpdatesOfDescribesUpdates(p, updates);
  }

  /** The column-by-column description pins the update map down: each value
      is the payload's own, with no range check (a priority outside 0..5 is
      passed on as it is). */
  lemma OnlyUpdatesOfDescribesUpdates(p: UpdatePayload, m: map<string, Value>)
    ensures DescribesUpdates(p, m) <==> m == UpdatesOf(p)
  {
    UpdateKeysArePresentFields(p);
    if DescribesUpdates(p, m) {
      forall f | f in m
        ensures m[f] == UpdatesOf(p)[f]
      {
      }
    }
  }

  /** The keys of the update map are exactly the present fields, always
      among the five updatable columns. */
  lemma UpdateKeysArePresentFields(p: UpdatePayload)
    ensures UpdatesOf(p).Keys == PresentFields(p)
    ensures UpdatesOf(p).Keys <= UpdatableFields
  {
  }

  /** The map is empty exactly when every payload field is absent. */
  lemma EmptyUpdatesIffAllAbsent(p: UpdatePayload)
    ensures UpdatesOf(p) == map[] <==>
              p.title.None? && p.description.None? && p.priority.None? && p.completed.None? && p.tags.None?
  {
    UpdateKeysArePresentFields(p);
    if p.title.Some? {
      assert "title" in UpdatesOf(p);
    } else if p.description.Some? {
      assert "description" in UpdatesOf(p);
    } else if p.priority.Some? {
      assert "priority" in UpdatesOf(p);
    } else if p.completed.Some? {
      assert "completed" in UpdatesOf(p);
    } else if p.tags.Some? {
      assert "tags" in UpdatesOf(p);
    }
  }

  // ---------------------------------------------------------------- update

  /** The update handler. A `{todoID}` that is not a base-10 int64 is a bad
      request, as is a body that does not decode; neither reaches the store.
      (The payload type carries no validation rules, so its validation step
      never fails.) An empty update map is refused by the store, which the
      handler answers as an internal error; otherwise the store's statement
      for the order it visited the map in (returned as `order`) is sent, and
      its failure is an internal error, its success 200. */
  method UpdateTodo(idParam: string, decoded: Decoded<UpdatePayload>, exec: Statement -> Option<DbError>)
    returns (resp: Response, trace: seq<Effect>, order: seq<string>)
    ensures Strconv.ParseInt(idParam).Err? ==>
              resp == BadRequest(Wrapped("invalid todo ID", ParseError(Strconv.ParseInt(idParam).error))) && trace == []
    ensures Strconv.ParseInt(idParam).Ok? && !decoded.ok ==> resp == BadRequest(DecodeError) && trace == []
    ensures Strconv.ParseInt(idParam).Ok? && decoded.ok && UpdatesOf(decoded.payload) == map[] ==>
              resp == InternalError(Wrapped("failed to update todo", StoreFailure(NoFieldsToUpdate))) && trace == []
    ensures Strconv.ParseInt(idParam).Ok? && decoded.ok && UpdatesOf(decoded.payload) != map[] ==>
              && |trace| == 1 && trace[0].Executed?
              && TodosStore.IsOrderOf(order, UpdatesOf(decoded.payload))
              && trace[0].statement == TodosStore.UpdateStatement(Strconv.ParseInt(idParam).value, UpdatesOf(decoded.payload), order)
              && (exec(trace[0].statement).None? ==> resp == OkNoData)
              && (exec(trace[0].statement).Some? ==>
                    resp == InternalError(Wrapped("failed to update todo", StoreFailure(UpdateFailed(exec(trace[0].statement).value)))))
  {
    var parsed := Strconv.ParseInt(idParam);
    if parsed.Err? {
      return BadRequest(Wrapped("invalid todo ID", ParseError(parsed.error))), [], [];
    }
    var todoID := parsed.value;
    if !decoded.ok {
      return BadRequest(DecodeError), [], [];
    }
    var updates := BuildUpdatesMap(decoded.payload);
    var err, issued;
    err, issued, order := TodosStore.UpdateTodo(todoID, updates, exec);
    trace := if issued.Some? then [Executed(issued.value)] else [];
    if err.Some? {
      return InternalError(Wrapped("failed to update todo", StoreFailure(err.value))), trace, order;
    }
    resp := OkNoData;
  }

  // ---------------------------------------------------------------- delete

  /** The answer of the delete handler as written to the store's outcome:
      the wrapped error is the id-parse error, nil by then. */
  function DeleteAnswerAsWritten(storeErr: Option<StoreError>): Response
  {
    if storeErr.Some? then InternalError(Wrapped("failed to delete todo", Nil)) else OkNoData
  }

  /** The intended answer: the store's error is the one wrapped. */
  function DeleteAnswer(storeErr: Option<StoreError>): Response
  {
    if storeErr.Some? then InternalError(Wrapped("failed to delete todo", StoreFailure(storeErr.value))) else OkNoData
  }

  /** As written, two different store failures get the same answer, both
      reporting a nil cause; the intended answer tells them apart. Both send
      the same statuses. */
  lemma DeleteAnswerLosesStoreError(e1: StoreError, e2: StoreError)
    requires e1 != e2
    ensures DeleteAnswerAsWritten(Some(e1)) == DeleteAnswerAsWritten(Some(e2))
    ensures DeleteAnswerAsWritten(Some(e1)).body == ErrorBody(Wrapped("failed to delete todo", Nil))
    ensures DeleteAnswer(Some(e1)) != DeleteAnswer(Some(e2))
    ensures forall r :: DeleteAnswer(r).status == DeleteAnswerAsWritten(r).status
  {
  }

  /** The delete handler as written: a bad `{todoID}` is a bad request that
      never reaches the store; a store error is an internal error, but the
      error it wraps is the (nil) error of the id parse, not the store's. */
  method DeleteTodo(idParam: string, exec: Statement -> Result<TodosStore.ExecSummary, DbError>)
    returns (resp: Response, trace: seq<Effect>)
    ensures Strconv.ParseInt(idParam).Err? ==>
              resp == BadRequest(Wrapped("invalid todo ID", ParseError(Strconv.ParseInt(idParam).error))) && trace == []
    ensures Strconv.ParseInt(idParam).Ok? ==>
              var todoID := Strconv.ParseInt(idParam).value;
              && trace == [Executed(TodosStore.DeleteStatement(todoID))]
              && resp == DeleteAnswerAsWritten(TodosStore.DeleteTodo(todoID, exec))
  {
    var parsed := Strconv.ParseInt(idParam);
    if parsed.Err? {
      return BadRequest(Wrapped("invalid todo ID", ParseError(parsed.error))), [];
    }
    var parseErr := Nil;
    var todoID := parsed.value;
    trace := [Executed(TodosStore.DeleteStatement(todoID))];
    var storeErr := TodosStore.DeleteTodo(todoID, exec);
    if storeErr.Some? {
      return InternalError(Wrapped("failed to delete todo", parseErr)), trace;
    }
    resp := OkNoData;
  }

  /** The delete handler with the store's error wrapped, as intended; the
      status of every answer is that of DeleteTodo. */
  method DeleteTodoReportingStoreError(idParam: string, exec: Statement -> Result<TodosStore.ExecSummary, DbError>)
    returns (resp: Response, trace: seq<Effect>)
    ensures Strconv.ParseInt(idParam).Err? ==>
              resp == BadRequest(Wrapped("invalid todo ID", ParseError(Strconv.ParseInt(idParam).error))) && trace == []
    ensures Strconv.ParseInt(idParam).Ok? ==>
              var todoID := Strconv.ParseInt(idParam).value;
              && trace == [Executed(TodosStore.DeleteStatement(todoID))]
              && resp == DeleteAnswer(TodosStore.DeleteTodo(todoID, exec))
  {
    var parsed := Strconv.ParseInt(idParam);
    if parsed.Err? {
      return BadRequest(Wrapped("invalid todo ID", ParseError(parsed.error))), [];
    }
    var todoID := parsed.value;
    trace := [Executed(TodosStore.DeleteStatement(todoID))];
    var storeErr := TodosStore.DeleteTodo(todoID, exec);
    if storeErr.Some? {
      return InternalError(Wrapped("failed to delete todo", StoreFailure(storeErr.value))), trace;
    }
    resp := OkNoData;
  }

  // ---------------------------------------------------------------- create

  /** CreateTodoPayload */
  datatype CreatePayload = CreatePayload(title: string, description: string, priority: int, completed: bool, tags: seq<string>)

  /** Its validation rules: a title is required, priority lies in 0..5. */
  predicate CreatePayloadValid(p: CreatePayload)
  {
    p.title != "" && 0 <= p.priority <= 5
  }

  /** The todo the handler builds for the store: the caller's id and the
      payload's fields; id and timestamps are left to the database. */
  function NewTodo(p: CreatePayload): (t: TodosStore.Todo)
    ensures t.userID == 1
    ensures t.title == p.title && t.description == p.description && t.priority == p.priority
    ensures t.completed == p.completed && t.tags == p.tags
  {
    TodosStore.Todo(0, UserIDFromContext(), p.title, p.description, p.completed, p.priority, p.tags, 0, "")
  }

  /** The responses a failed store call adds. */
  function CreateFailureWrites(r: Result<TodosStore.Todo, StoreError>): seq<Response>
  {
    match r
    case Ok(_) => []
    case Err(e) => [BadRequest(Wrapped("failed to create todo", StoreFailure(e)))]
  }

  /** The responses the create handler as written produces, in order: one
      for a decoding failure, one for a validation failure, one for a store
      failure, each independent of the others. */
  function CreateWritesAsWritten(decoded: Decoded<CreatePayload>, insert: Statement -> Result<TodosStore.InsertedRow, DbError>): seq<Response>
  {
    (if decoded.ok then [] else [BadRequest(DecodeError)])
    + (if CreatePayloadValid(decoded.payload) then [] else [BadRequest(ValidationError)])
    + CreateFailureWrites(TodosStore.Create(NewTodo(decoded.payload), insert))
  }

  /** A todo without a title is answered 400 and still stored when the
      database accepts it; when the database refuses it, the one request gets
      two responses. */
  lemma UntitledTodoAsWritten(p: CreatePayload, insert: Statement -> Result<TodosStore.InsertedRow, DbError>)
    requires p.title == ""
    ensures insert(TodosStore.InsertStatement(NewTodo(p))).Ok? ==>
              && CreateWritesAsWritten(Decoded(p, true), insert) == [BadRequest(ValidationError)]
              && TodosStore.Create(NewTodo(p), insert).Ok?
    ensures insert(TodosStore.InsertStatement(NewTodo(p))).Err? ==>
              |CreateWritesAsWritten(Decoded(p, true), insert)| == 2
  {
  }

  /** The create handler as written. Its two bad-request branches do not
      return, so every request reaches the store with whatever was decoded,
      and one request can produce several responses. A store error is a bad
      request; success writes nothing (the server then answers 200 with an
      empty body). */
  method CreateTodo(decoded: Decoded<CreatePayload>, insert: Statement -> Result<TodosStore.InsertedRow, DbError>)
    returns (writes: seq<Response>, trace: seq<Effect>)
    ensures trace == [Executed(TodosStore.InsertStatement(NewTodo(decoded.payload)))]
    ensures writes == CreateWritesAsWritten(decoded, insert)
  {
    writes := [];
    if !decoded.ok {
      writes := writes + [BadRequest(DecodeError)];
    }
    if !CreatePayloadValid(decoded.payload) {
      writes := writes + [BadRequest(ValidationError)];
    }
    var todo := NewTodo(decoded.payload);
    trace := [Executed(TodosStore.InsertStatement(todo))];
    var created := TodosStore.Create(todo, insert);
    if created.Err? {
      writes := writes + [BadRequest(Wrapped("failed to create todo", StoreFailure(created.error)))];
      return;
    }
  }

  /** The create handler with the missing returns in place: an undecodable or
      invalid payload gets one bad request and never reaches the store, so
      only valid todos are inserted. */
  method CreateTodoReturningEarly(decoded: Decoded<CreatePayload>, insert: Statement -> Result<TodosStore.InsertedRow, DbError>)
    returns (writes: seq<Response>, trace: seq<Effect>)
    ensures |writes| <= 1
    ensures !decoded.ok ==> writes == [BadRequest(DecodeError)] && trace == []
    ensures decoded.ok && !CreatePayloadValid(decoded.payload) ==> writes == [BadRequest(ValidationError)] && trace == []
    ensures decoded.ok && CreatePayloadValid(decoded.payload) ==>
              && trace == [Executed(TodosStore.InsertStatement(NewTodo(decoded.payload)))]
              && writes == CreateFailureWrites(TodosStore.Create(NewTodo(decoded.payload), insert))
  {
    if !decoded.ok {
      return [BadRequest(DecodeError)], [];
    }
    if !CreatePayloadValid(decoded.payload) {
      return [BadRequest(ValidationError)], [];
    }
    var todo := NewTodo(decoded.payload);
    trace := [Executed(TodosStore.InsertStatement(todo))];
    var created := TodosStore.Create(todo, insert);
    if created.Err? {
      return [BadRequest(Wrapped("failed to create todo", StoreFailure(created.error)))], trace;
    }
    writes := [];
  }
}
