/** The todos store (internal/store/todos.go): the partial-update statement
    builder, result mapping for lookup and delete, and the two list queries
    with their row loops. The database is an oracle from statements to what
    the driver reports. */
module TodosStore {
  import opened Results
  import opened Sql
  import opened StoreErrors
  import Strconv

  /** A row of the `todos` table. `createdAt` is a point in time in
      nanoseconds since the Unix epoch; `updatedAt` is scanned into text. */
  datatype Todo = Todo(
    id: int,
    userID: int,
    title: string,
    description: string,
    completed: bool,
    priority: int,
    tags: seq<string>,
    createdAt: int,
    updatedAt: string)

  const TodoColumns: string := "id, user_id, title, description, completed, priority, tags, created_at, updated_at"

  const InsertQuery: string := "INSERT INTO todos (user_id, title, description, completed, priority, tags) "
                               + "VALUES ($1, $2, $3, $4, $5, $6) RETURNING id, created_at, updated_at"
  const SelectByIdQuery: string := "SELECT " + TodoColumns + " FROM todos WHERE id = $1"
  const DeleteQuery: string := "DELETE FROM todos WHERE id = $1"
  const OwnerQuery: string := "SELECT " + TodoColumns + " FROM todos WHERE user_id = $1 ORDER BY created_at DESC"
  const TagQuery: string := "SELECT " + TodoColumns + " FROM todos WHERE user_id = $1 AND $2 = ANY(tags) ORDER BY created_at DESC"

  // ---------------------------------------------------------------- create

  /** The insert Create sends: owner, title, description, completed,
      priority and tags, returning the generated id and timestamps. */
  function InsertStatement(todo: Todo): Statement
  {
    Statement(InsertQuery,
              [Int(todo.userID), Str(todo.title), Str(todo.description), Bool(todo.completed),
               Int(todo.priority), StrArray(todo.tags)])
  }

  datatype InsertedRow = InsertedRow(id: int, createdAt: int, updatedAt: string)

  /** Create: the driver's error is passed through; on success the todo comes
      back with the id and timestamps the database generated and every other
      field as it was sent. */
  function Create(todo: Todo, insert: Statement -> Result<InsertedRow, DbError>): (r: Result<Todo, StoreError>)
    ensures insert(InsertStatement(todo)).Err? ==> r == Err(Database(insert(InsertStatement(todo)).error))
    ensures insert(InsertStatement(todo)).Ok? ==>
              var row := insert(InsertStatement(todo)).value;
              r.Ok? && r.value.id == row.id && r.value.createdAt == row.createdAt && r.value.updatedAt == row.updatedAt
              && r.value.(id := todo.id, createdAt := todo.createdAt, updatedAt := todo.updatedAt) == todo
  {
    match insert(InsertStatement(todo))
    case Err(e) => Err(Database(e))
    case Ok(row) => Ok(todo.(id := row.id, createdAt := row.createdAt, updatedAt := row.updatedAt))
  }

  // ---------------------------------------------------------------- lookup by id

  function SelectByIdStatement(todoID: int): Statement
  {
    Statement(SelectByIdQuery, [Int(todoID)])
  }

  /** What GetTodoByID makes of a failed scan: "no rows" becomes its own
      "no todo found with ID <id>" error, never store.ErrNotFound; any other
      driver error passes through. */
  function TodoLookupError(todoID: int, e: DbError): (r: StoreError)
    ensures r != NotFound
    ensures e == NoRows <==> r == NoTodoFound(todoID)
    ensures e != NoRows ==> r == Database(e)
    ensures e == NoRows ==> Message(r) == "no todo found with ID " + Strconv.FormatInt(todoID)
  {
    if e == NoRows then NoTodoFound(todoID) else Database(e)
  }

  /** GetTodoByID: one row by primary key; there is no owner condition. */
  function GetTodoByID(todoID: int, query: Statement -> Result<Todo, DbError>): (r: Result<Todo, StoreError>)
    ensures query(SelectByIdStatement(todoID)).Ok? <==> r.Ok?
    ensures r.Ok? ==> r.value == query(SelectByIdStatement(todoID)).value
    ensures r.Err? ==> r.error == TodoLookupError(todoID, query(SelectByIdStatement(todoID)).error)
  {
    match query(SelectByIdStatement(todoID))
    case Ok(t) => Ok(t)
    case Err(e) => Err(TodoLookupError(todoID, e))
  }

  // ---------------------------------------------------------------- delete

  function DeleteStatement(todoID: int): Statement
  {
    Statement(DeleteQuery, [Int(todoID)])
  }

  /** What ExecContext reports for a statement that ran: RowsAffected gives a
      count or fails. */
  datatype ExecSummary = ExecSummary(rowsAffected: Result<int, DbError>)

  /** DeleteTodo: an error only when the statement or RowsAffected fails. A
      delete that matched no row returns the (nil) error variable, so it
      succeeds. */
  function DeleteTodo(todoID: int, exec: Statement -> Result<ExecSummary, DbError>): (r: Option<StoreError>)
    ensures r.None? <==> exec(DeleteStatement(todoID)).Ok? && exec(DeleteStatement(todoID)).value.rowsAffected.Ok?
    ensures exec(DeleteStatement(todoID)).Err? ==> r == Some(Database(exec(DeleteStatement(todoID)).error))
    ensures exec(DeleteStatement(todoID)).Ok? && exec(DeleteStatement(todoID)).value.rowsAffected.Err? ==>
              r == Some(Database(exec(DeleteStatement(todoID)).value.rowsAffected.error))
  {
    match exec(DeleteStatement(todoID))
    case Err(e) => Some(Database(e))
    case Ok(summary) =>
      match summary.rowsAffected
      case Err(e) => Some(Database(e))
      case Ok(n) => if n == 0 then None else None
  }

  /** Deleting an id that matches no row is reported as success. */
  lemma DeleteOfMissingRowSucceeds(todoID: int, exec: Statement -> Result<ExecSummary, DbError>)
    requires exec(DeleteStatement(todoID)) == Ok(ExecSummary(Ok(0)))
    ensures DeleteTodo(todoID, exec) == None
  {
  }

  // ---------------------------------------------------------------- partial update

  /** `strings.Join(parts, sep)` */
  function Join(parts: seq<string>, sep: string): string
    decreases |parts|
  {
    if |parts| == 0 then ""
    else if |parts| == 1 then parts[0]
    else parts[0] + sep + Join(parts[1..], sep)
  }

  /** One SET assignment, `"<field>" = $<k>`: the field name is copied as it
      is, between double quotes. */
  function Assignment(field: string, k: nat): string
  {
    "\"" + field + "\" = $" + Strconv.Digits(k)
  }

  /** `order` is one enumeration of the keys of `m`: every key exactly once. */
  predicate IsOrderOf(order: seq<string>, m: map<string, Value>)
  {
    && |order| == |m|
    && (forall i, j :: 0 <= i < j < |order| ==> order[i] != order[j])
    && (forall f :: f in m ==> f in order)
    && (forall i :: 0 <= i < |order| ==> order[i] in m)
  }

  /** The SET assignments for fields enumerated in `order`, numbered from 1. */
  function Assignments(order: seq<string>): (parts: seq<string>)
    ensures |parts| == |order|
    ensures forall i :: 0 <= i < |order| ==> parts[i] == Assignment(order[i], i + 1)
  {
    seq(|order|, i requires 0 <= i < |order| => Assignment(order[i], i + 1))
  }

  /** The statement UpdateTodo issues when the map's keys come out in `order`:
      `UPDATE todos SET <assignments> WHERE id = $<n+1>`, with the n values in
      the same order and then the todo's id. */
  function UpdateStatement(todoID: int, updates: map<string, Value>, order: seq<string>): Statement
    requires IsOrderOf(order, updates)
  {
    Statement(
      "UPDATE todos SET " + Join(Assignments(order), ", ") + " WHERE id = $" + Strconv.Digits(|order| + 1),
      seq(|order|, i requires 0 <= i < |order| => updates[order[i]]) + [Int(todoID)])
  }

  /** The loop of UpdateTodo: visits the keys of `updates` in an unspecified
      order (returned as `order`), appending one assignment and one value per
      key and counting placeholders from 1. Its promises hold for every order. */
  method BuildAssignments(updates: map<string, Value>)
    returns (queryFields: seq<string>, args: seq<Value>, argCounter: int, order: seq<string>)
    ensures IsOrderOf(order, updates)
    ensures |queryFields| == |args| == |order|
    ensures argCounter == |order| + 1
    ensures forall i :: 0 <= i < |order| ==>
              queryFields[i] == Assignment(order[i], i + 1) && args[i] == updates[order[i]]
  {
    queryFields, args, argCounter, order := [], [], 1, [];
    var remaining := updates.Keys;
    while remaining != {}
      invariant remaining <= updates.Keys
      invariant |order| + |remaining| == |updates|
      invariant forall f :: f in updates <==> f in remaining || f in order
      invariant forall f :: f in remaining ==> f !in order
      invariant forall i, j :: 0 <= i < j < |order| ==> order[i] != order[j]
      invariant |queryFields| == |args| == |order|
      invariant argCounter == |order| + 1
      invariant forall i :: 0 <= i < |order| ==>
                  queryFields[i] == Assignment(order[i], i + 1) && args[i] == updates[order[i]]
      decreases |remaining|
    {
      var field :| field in remaining;
      var value := updates[field];
      queryFields := queryFields + [Assignment(field, argCounter)];
      args := args + [value];
      argCounter := argCounter + 1;
      order := order + [field];
      remaining := remaining - {field};
    }
  }

  /** UpdateTodo: an empty update set is refused with "no fields to update" and
      nothing is sent to the database; otherwise the statement for the order
      the map was visited in is executed, and a driver failure comes back
      wrapped as "error updating todo: ...". */
  method UpdateTodo(todoID: int, updates: map<string, Value>, exec: Statement -> Option<DbError>)
    returns (err: Option<StoreError>, issued: Option<Statement>, order: seq<string>)
    ensures |updates| == 0 <==> issued.None?
    ensures |updates| == 0 ==> err == Some(NoFieldsToUpdate)
    ensures issued.Some? ==>
              && IsOrderOf(order, updates)
              && issued.value == UpdateStatement(todoID, updates, order)
              && (exec(issued.value).None? ==> err.None?)
              && (exec(issued.value).Some? ==> err == Some(UpdateFailed(exec(issued.value).value)))
  {
    if |updates| == 0 {
      return Some(NoFieldsToUpdate), None, [];
    }
    var queryFields, args, argCounter;
    queryFields, args, argCounter, order := BuildAssignments(updates);
    var query := "UPDATE todos SET " + Join(queryFields, ", ") + " WHERE id = $" + Strconv.Digits(argCounter);
    args := args + [Int(todoID)];
    var statement := Statement(query, args);
    assert queryFields == Assignments(order);
    assert args[..|order|] == seq(|order|, i requires 0 <= i < |order| => updates[order[i]]);
    issued := Some(statement);
    var failure := exec(statement);
    if failure.Some? {
      err := Some(UpdateFailed(failure.value));
    } else {
      err := None;
    }
  }

  /** Placeholders and values line up: the k-th assignment binds the k-th
      enumerated field to `$k` and the k-th argument is that field's value;
      the WHERE clause uses `$(n+1)` and the last argument is the todo id. */
  lemma UpdateStatementAlignment(todoID: int, updates: map<string, Value>, order: seq<string>)
    requires IsOrderOf(order, updates)
    ensures var st := UpdateStatement(todoID, updates, order);
            && |st.args| == |updates| + 1
            && st.args[|updates|] == Int(todoID)
            && (forall i :: 0 <= i < |updates| ==> st.args[i] == updates[order[i]])
            && st.query == "UPDATE todos SET " + Join(Assignments(order), ", ") + " WHERE id = $" + Strconv.Digits(|updates| + 1)
  {
  }

  /** Every key of the update map is bound exactly once, whatever the order. */
  lemma EveryFieldBoundOnce(todoID: int, updates: map<string, Value>, order: seq<string>, f: string)
    requires IsOrderOf(order, updates) && f in updates
    ensures exists i :: 0 <= i < |order| && order[i] == f && UpdateStatement(todoID, updates, order).args[i] == updates[f]
    ensures forall i, j :: 0 <= i < |order| && 0 <= j < |order| && order[i] == f && order[j] == f ==> i == j
  {
    var i :| 0 <= i < |order| && order[i] == f;
    var st := UpdateStatement(todoID, updates, order);
    assert st.args[i] == updates[f];
  }

  /** Number of occurrences of `c` in `s`. */
  function Count(s: string, c: char): nat
  {
    if s == [] then 0 else (if s[0] == c then 1 else 0) + Count(s[1..], c)
  }

  lemma {:induction false} CountConcat(a: string, b: string, c: char)
    ensures Count(a + b, c) == Count(a, c) + Count(b, c)
    decreases |a|
  {
    if a == [] {
      assert a + b == b;
    } else {
      assert (a + b)[1..] == a[1..] + b;
      CountConcat(a[1..], b, c);
    }
  }

  lemma {:induction false} CountOfDigits(n: nat)
    ensures Count(Strconv.Digits(n), ',') == 0
    decreases n
  {
    if n >= 10 {
      CountConcat(Strconv.Digits(n / 10), [Strconv.DigitChar(n % 10)], ',');
      CountOfDigits(n / 10);
    }
  }

  lemma {:induction false} JoinCommas(parts: seq<string>)
    requires |parts| > 0
    requires forall i :: 0 <= i < |parts| ==> Count(parts[i], ',') == 0
    ensures Count(Join(parts, ", "), ',') == |parts| - 1
    decreases |parts|
  {
    if |parts| > 1 {
      CountConcat(parts[0], ", ", ',');
      CountConcat(parts[0] + ", ", Join(parts[1..], ", "), ',');
      JoinCommas(parts[1..]);
    }
  }

  /** For n fields whose names hold no comma the SET clause has exactly n-1
      commas, so it is n comma-separated assignments. */
  lemma SetClauseCommas(order: seq<string>)
    requires |order| > 0
    requires forall i :: 0 <= i < |order| ==> Count(order[i], ',') == 0
    ensures Count(Join(Assignments(order), ", "), ',') == |order| - 1
  {
    var parts := Assignments(order);
    forall i | 0 <= i < |parts|
      ensures Count(parts[i], ',') == 0
    {
      var f := order[i];
      CountConcat("\"", f, ',');
      CountConcat("\"" + f, "\" = $", ',');
      CountConcat("\"" + f + "\" = $", Strconv.Digits(i + 1), ',');
      CountOfDigits(i + 1);
    }
    JoinCommas(parts);
  }

  /** There is no allow-list: any text given as a field name, quotes and all,
      lands verbatim in the SET clause. */
  lemma FieldNamesCopiedVerbatim(todoID: int, f: string, v: Value)
    ensures UpdateStatement(todoID, map[f := v], [f]).query
            == "UPDATE todos SET " + ("\"" + f + "\" = $" + "1") + " WHERE id = $" + "2"
    ensures UpdateStatement(todoID, map[f := v], [f]).args == [v, Int(todoID)]
  {
    var m, order := map[f := v], [f];
    assert IsOrderOf(order, m);
    assert Strconv.Digits(1) == "1";
    assert Strconv.Digits(2) == "2";
    assert Join(Assignments(order), ", ") == Assignment(f, 1);
  }

  // ---------------------------------------------------------------- list queries

  /** The row conditions of the two list queries. */
  datatype Condition = OwnedBy(userID: int) | OwnedAndTagged(userID: int, tag: string) | Tagged(tag: string)

  /** `user_id = $1`, and `$2 = ANY(tags)`: exact, case-sensitive membership. */
  predicate Matches(cond: Condition, t: Todo)
  {
    match cond
    case OwnedBy(u) => t.userID == u
    case OwnedAndTagged(u, tag) => t.userID == u && tag in t.tags
    case Tagged(tag) => tag in t.tags
  }

  /** The rows of `table` that satisfy `cond`, in table order. */
  function Select(table: seq<Todo>, cond: Condition): (r: seq<Todo>)
    ensures |r| <= |table|
    decreases |table|
  {
    if table == [] then []
    else (if Matches(cond, table[0]) then [table[0]] else []) + Select(table[1..], cond)
  }

  /** `ORDER BY created_at DESC`: rows with equal timestamps may come in any order. */
  predicate NewestFirst(rows: seq<Todo>)
  {
    forall i, j :: 0 <= i < j < |rows| ==> rows[i].createdAt >= rows[j].createdAt
  }

  /** What the database may answer to a list query over `table`: the rows
      matching `cond`, each as often as in the table, newest first. */
  predicate Answers(table: seq<Todo>, cond: Condition, rows: seq<Todo>)
  {
    multiset(rows) == multiset(Select(table, cond)) && NewestFirst(rows)
  }

  lemma {:induction false} SelectMultiplicity(table: seq<Todo>, cond: Condition, t: Todo)
    ensures multiset(Select(table, cond))[t] == if Matches(cond, t) then multiset(table)[t] else 0
    decreases |table|
  {
    if table != [] {
      assert table == [table[0]] + table[1..];
      SelectMultiplicity(table[1..], cond, t);
    }
  }

  /** An answer to the owner query holds exactly the caller's rows, each as
      often as the table does. */
  lemma OwnerAnswerContents(table: seq<Todo>, userID: int, rows: seq<Todo>)
    requires Answers(table, OwnedBy(userID), rows)
    ensures forall t :: t in rows <==> t in table && t.userID == userID
    ensures forall t: Todo :: t.userID == userID ==> multiset(rows)[t] == multiset(table)[t]
    ensures forall t: Todo :: t in rows && t.userID == userID ==> rows[0].createdAt >= t.createdAt
  {
    forall t
      ensures (t in rows <==> t in table && t.userID == userID)
      ensures t.userID == userID ==> multiset(rows)[t] == multiset(table)[t]
    {
      SelectMultiplicity(table, OwnedBy(userID), t);
      assert t in rows <==> t in multiset(rows);
      assert t in table <==> t in multiset(table);
    }
  }

  /** An answer to the tag query is exactly the tagged part of an answer to
      the owner query (as multisets: ties in created_at may be ordered
      differently by the two queries). */
  lemma TagAnswerIsTaggedPartOfOwnerAnswer(table: seq<Todo>, userID: int, tag: string, all: seq<Todo>, tagged: seq<Todo>)
    requires Answers(table, OwnedBy(userID), all)
    requires Answers(table, OwnedAndTagged(userID, tag), tagged)
    ensures multiset(tagged) == multiset(Select(all, Tagged(tag)))
    ensures forall t :: t in tagged <==> t in table && t.userID == userID && tag in t.tags
  {
    forall t
      ensures multiset(tagged)[t] == multiset(Select(all, Tagged(tag)))[t]
      ensures t in tagged <==> t in table && t.userID == userID && tag in t.tags
    {
      SelectMultiplicity(table, OwnedAndTagged(userID, tag), t);
      SelectMultiplicity(table, OwnedBy(userID), t);
      SelectMultiplicity(all, Tagged(tag), t);
      assert t in tagged <==> t in multiset(tagged);
      assert t in table <==> t in multiset(table);
    }
  }

  function OwnerStatement(userID: int): Statement
  {
    Statement(OwnerQuery, [Int(userID)])
  }

  function TagStatement(userID: int, tag: string): Statement
  {
    Statement(TagQuery,
              [Int(userID), Str(tag)])
  }

  /** What a successful QueryContext hands back: the rows `rows.Next()`
      delivered, each scanned into a Todo or failing to scan, then what
      `rows.Err()` reports once `rows.Next()` has returned false. */
  datatype Cursor = Cursor(scans: seq<Result<Todo, DbError>>, iterationError: Option<DbError>)

  /** The error of the first row that fails to scan, if any. */
  function FirstScanError(scans: seq<Result<Todo, DbError>>): (r: Option<DbError>)
    ensures r.None? <==> forall i :: 0 <= i < |scans| ==> scans[i].Ok?
    decreases |scans|
  {
    if scans == [] then None
    else if scans[0].Err? then Some(scans[0].error)
    else FirstScanError(scans[1..])
  }

  lemma {:induction false} FirstScanErrorAt(scans: seq<Result<Todo, DbError>>, i: int)
    requires 0 <= i < |scans| && scans[i].Err?
    requires forall j :: 0 <= j < i ==> scans[j].Ok?
    ensures FirstScanError(scans) == Some(scans[i].error)
    decreases i
  {
    if i > 0 {
      FirstScanErrorAt(scans[1..], i - 1);
    }
  }

  /** `todos` are the scanned rows, one for one, in the order they came. */
  predicate ScannedInOrder(scans: seq<Result<Todo, DbError>>, todos: seq<Todo>)
  {
    |todos| == |scans| && forall i :: 0 <= i < |scans| ==> scans[i] == Ok(todos[i])
  }

  /** The row loop shared by both list queries: appends each scanned row and
      stops at the first row that fails to scan. */
  method ScanRows(scans: seq<Result<Todo, DbError>>) returns (todos: seq<Todo>, err: Option<DbError>)
    ensures err == FirstScanError(scans)
    ensures err.Some? ==> todos == []
    ensures err.None? ==> ScannedInOrder(scans, todos)
  {
    todos := [];
    var i := 0;
    while i < |scans|
      invariant 0 <= i <= |scans|
      invariant forall j :: 0 <= j < i ==> scans[j].Ok?
      invariant |todos| == i && forall j :: 0 <= j < i ==> scans[j] == Ok(todos[j])
    {
      match scans[i]
      case Err(e) =>
        FirstScanErrorAt(scans, i);
        return [], Some(e);
      case Ok(t) =>
        todos := todos + [t];
        i := i + 1;
    }
    err := None;
  }

  /** GetAllTodos: a failed query, a row that fails to scan, or an iteration
      error each give no todos and that error; otherwise every row, in the
      order the database sent it. */
  method GetAllTodos(userID: int, query: Statement -> Result<Cursor, DbError>)
    returns (todos: seq<Todo>, err: Option<DbError>)
    ensures query(OwnerStatement(userID)).Err? ==> todos == [] && err == Some(query(OwnerStatement(userID)).error)
    ensures query(OwnerStatement(userID)).Ok? ==>
              var c := query(OwnerStatement(userID)).value;
              if FirstScanError(c.scans).Some? then todos == [] && err == FirstScanError(c.scans)
              else if c.iterationError.Some? then todos == [] && err == c.iterationError
              else err.None? && ScannedInOrder(c.scans, todos)
  {
    match query(OwnerStatement(userID))
    case Err(e) =>
      return [], Some(e);
    case Ok(c) =>
      todos, err := ScanRows(c.scans);
      if err.Some? {
        return;
      }
      if c.iterationError.Some? {
        return [], c.iterationError;
      }
  }

  /** GetTodosByTag: like GetAllTodos, except that an iteration error is
      returned together with the rows scanned before it. */
  method GetTodosByTag(userID: int, tag: string, query: Statement -> Result<Cursor, DbError>)
    returns (todos: seq<Todo>, err: Option<DbError>)
    ensures query(TagStatement(userID, tag)).Err? ==> todos == [] && err == Some(query(TagStatement(userID, tag)).error)
    ensures query(TagStatement(userID, tag)).Ok? ==>
              var c := query(TagStatement(userID, tag)).value;
              if FirstScanError(c.scans).Some? then todos == [] && err == FirstScanError(c.scans)
              else err == c.iterationError && ScannedInOrder(c.scans, todos)
  {
    match query(TagStatement(userID, tag))
    case Err(e) =>
      return [], Some(e);
    case Ok(c) =>
      todos, err := ScanRows(c.scans);
      if err.Some? {
        return;
      }
      err := c.iterationError;
  }

  // ---------------------------------------------------------------- list queries against a table

  /** The cursor of a query whose every row scans, with `iterationError` as
      what `rows.Err()` reports at the end. */
  function CursorOf(rows: seq<Todo>, iterationError: Option<DbError>): Cursor
  {
    Cursor(seq(|rows|, i requires 0 <= i < |rows| => Ok(rows[i])), iterationError)
  }

  lemma CursorOfScansInOrder(rows: seq<Todo>, iterationError: Option<DbError>)
    ensures FirstScanError(CursorOf(rows, iterationError).scans).None?
    ensures forall todos :: ScannedInOrder(CursorOf(rows, iterationError).scans, todos) <==> todos == rows
  {
  }

  /** When the database answers the owner query over `table` with an answer
      that is delivered intact, GetAllTodos returns exactly the caller's rows,
      each as often as the table holds it, newest first. */
  method GetAllTodosOfTable(table: seq<Todo>, userID: int, rows: seq<Todo>, query: Statement -> Result<Cursor, DbError>)
    returns (todos: seq<Todo>, err: Option<DbError>)
    requires query(OwnerStatement(userID)) == Ok(CursorOf(rows, None))
    requires Answers(table, OwnedBy(userID), rows)
    ensures err.None? && todos == rows
    ensures forall t :: t in todos <==> t in table && t.userID == userID
    ensures forall t: Todo :: t.userID == userID ==> multiset(todos)[t] == multiset(table)[t]
    ensures NewestFirst(todos)
  {
    CursorOfScansInOrder(rows, None);
    todos, err := GetAllTodos(userID, query);
    OwnerAnswerContents(table, userID, rows);
  }

  /** When the database answers the tag query over `table` with rows that all
      scan, GetTodosByTag returns exactly the caller's rows carrying `tag`,
      newest first, together with whatever iteration error came after them. */
  method GetTodosByTagOfTable(table: seq<Todo>, userID: int, tag: string, rows: seq<Todo>,
                              iterationError: Option<DbError>, query: Statement -> Result<Cursor, DbError>)
    returns (todos: seq<Todo>, err: Option<DbError>)
    requires query(TagStatement(userID, tag)) == Ok(CursorOf(rows, iterationError))
    requires Answers(table, OwnedAndTagged(userID, tag), rows)
    ensures err == iterationError && todos == rows
    ensures forall t :: t in todos <==> t in table && t.userID == userID && tag in t.tags
    ensures forall t: Todo :: t.userID == userID && tag in t.tags ==> multiset(todos)[t] == multiset(table)[t]
    ensures NewestFirst(todos)
  {
    CursorOfScansInOrder(rows, iterationError);
    todos, err := GetTodosByTag(userID, tag, query);
    forall t
      ensures t in todos <==> t in table && t.userID == userID && tag in t.tags
      ensures t.userID == userID && tag in t.tags ==> multiset(todos)[t] == multiset(table)[t]
    {
      SelectMultiplicity(table, OwnedAndTagged(userID, tag), t);
      assert t in todos <==> t in multiset(todos);
      assert t in table <==> t in multiset(table);
    }
  }
}
