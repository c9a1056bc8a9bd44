# open-todo-go in Dafny

A model of the core of open-todo-go, a small JSON-over-HTTP todo service in
Go that is backed by PostgreSQL and authenticated with JWTs. The model covers:

- the todos store (`internal/store/todos.go`): create, lookup by id, the
  two list queries, delete, and the dynamically built partial `UPDATE`;
- the users store (`internal/store/users.go`): the password credential,
  creation with its unique-constraint error classification, and the two
  lookups;
- the sentinel and wrapped errors the stores return, with their texts;
- the decisions of the todo handlers (`cmd/api/todos.go`: create, update,
  delete, `buildUpdatesMap`, `getUserIDFromContext`) and of the auth handlers
  (`cmd/api/auth.go`: register, login with the token's claim set);
- the claim checks of the JWT authenticator (`internal/auth/jwt.go`) and the
  token configuration (`cmd/api/api.go`, `cmd/api/main.go`);
- `strconv.ParseInt(s, 10, 64)` and `strconv.FormatInt(i, 10)`, which the
  handlers use on ids. Which texts are accepted, the values they give and
  the kind of each error follow Go's base-10 definitions; the error message
  text is not modelled.

The database, bcrypt, the password comparison, the token signer, the
validator's email-format rule and JSON decoding all become function-typed
parameters. Each store operation is stated for every answer those
parameters could give. A database call is modelled by the `Statement` (query
text and arguments) it receives. A handler returns its `Response` (status
and body) together with a trace of the external calls it made, in order.
Go's random map iteration order becomes an order the update loop chooses
for itself and returns; every promise about the update holds for every
order. Times are integers of nanoseconds since the epoch. The login handler
reads the clock three times, and the three readings are parameters.

Modules: `Results` (Option, Result), `Strconv`, `Sql` (driver errors,
values, statements), `StoreErrors`, `TodosStore`, `UsersStore`, `Claims`,
`Tokens`, `Http` (responses, error causes, effects), `TodoHandlers` and
`AuthHandlers`.

The store does not allow-list field names: every key is copied into the SET
clause between double quotes (`TodosStore.FieldNamesCopiedVerbatim`). Only
`buildUpdatesMap` limits the keys to the five columns
(`TodoHandlers.UpdateKeysArePresentFields`).

## Model

| member | source | states |
|---|---|---|
| Strconv.Accumulate | cmd/api/todos.go:88 | the digit loop of ParseUint, read left to right so the leftmost problem wins: a non-digit is a syntax error and a digit that takes the value past 2^64-1 a range error; an accepted text is all digits with a value of at most 2^64-1 |
| Strconv.ParseUint | cmd/api/todos.go:88 | the unsigned step inside ParseInt: the empty text is a syntax error, and an accepted text is non-empty with a value of at most 2^64-1 |
| Strconv.ParseInt | cmd/api/todos.go:88 | base-10 int64 parsing: an accepted text is non-empty, has an optional sign then only digits, and its value lies in the int64 range; its full meaning is ParseIntMeaning |
| Strconv.ParseIntMeaning | cmd/api/todos.go:88-92 | ParseInt accepts exactly the well-formed texts (optional sign, one or more digits) whose value is an int64, and returns that value; a well-formed text out of range is a range error, and anything else an error |
| Strconv.AccumulateValue | cmd/api/todos.go:116 | the digit loop yields the positional value of a digit string, and a range error exactly when that value passes 2^64-1 |
| Strconv.DecimalValueDigits | cmd/api/auth.go:131 | the digits FormatInt writes for n (here the userID text; also the id in "no todo found with ID <id>", internal/store/todos.go:113) have positional value n |
| Strconv.ParseIntRangeEdges | cmd/api/todos.go:116-120 | 2^63 is a range error, -2^63 is accepted, and a magnitude of 2^64 is a range error with either sign |
| Strconv.ParseIntSignsAndZeros | cmd/api/todos.go:88-92 | "+5" is 5, "007" is 7, "-0" is 0, and "+-5" is a syntax error |
| Strconv.FormatInt | cmd/api/auth.go:131 | decimal text: non-empty, starts with '-' exactly for negative numbers, otherwise digits of the magnitude |
| Strconv.ParseFormatRoundTrip | cmd/api/auth.go:131 | every int64 formatted by FormatInt parses back to itself with ParseInt |
| Strconv.FormatIntInjective | cmd/api/auth.go:131 | two int64 values with the same decimal text are equal |
| Strconv.NonDigitRejected | cmd/api/todos.go:88-92 | a text with a non-digit after its first character is refused |
| Strconv.EmptyAndSignOnlyRejected | cmd/api/todos.go:116-120 | "", "-" and "+" are syntax errors |
| Strconv.AccumulateDigits | cmd/api/todos.go:88 | the digit loop reads back every decimal numeral up to 2^64-1 |
| TodosStore.Create | internal/store/todos.go:31-57 | a driver error is returned as is; on success the todo gets the generated id and timestamps, and every other field is what was sent |
| TodosStore.TodoLookupError | internal/store/todos.go:112-117 | "no rows" becomes exactly "no todo found with ID <id>" (never ErrNotFound); any other driver error passes through |
| TodosStore.GetTodoByID | internal/store/todos.go:101-119 | succeeds exactly when the lookup by primary key does, with that row; otherwise TodoLookupError |
| TodosStore.DeleteTodo | internal/store/todos.go:185-205 | fails exactly when the statement or RowsAffected fails, with that error; zero affected rows is success |
| TodosStore.DeleteOfMissingRowSucceeds | internal/store/todos.go:200-202 | deleting an id that matches no row reports no error |
| TodosStore.Assignments | internal/store/todos.go:133 | the i-th SET assignment is `"<field i>" = $<i>`, numbered from 1 |
| TodosStore.BuildAssignments | internal/store/todos.go:127-137 | the loop visits every key exactly once, in some order; assignment and value i both belong to the i-th key, and the counter ends at n+1 |
| TodosStore.UpdateTodo | internal/store/todos.go:121-157 | an empty map is refused with "no fields to update" and nothing is sent; otherwise the UPDATE for the visiting order is sent, and a driver error comes back wrapped as "error updating todo" |
| TodosStore.UpdateStatement | internal/store/todos.go:139-144 | the closed form of the statement UpdateTodo sends for a visiting order: `UPDATE todos SET <assignments joined by ", "> WHERE id = $<n+1>`, with the values in that order and then the todo id (defined for visiting orders only) |
| TodosStore.UpdateStatementAlignment | internal/store/todos.go:139-144 | n+1 arguments: argument i is the value of the i-th key, the last is the todo id, and the WHERE clause uses $(n+1) |
| TodosStore.EveryFieldBoundOnce | internal/store/todos.go:131-137 | every key of the map is bound exactly once, to its own value, whatever the order |
| TodosStore.SetClauseCommas | internal/store/todos.go:141 | for n comma-free field names the SET clause has exactly n-1 commas |
| TodosStore.JoinCommas | internal/store/todos.go:141 | joining n comma-free parts with ", " yields n-1 commas |
| TodosStore.CountOfDigits | internal/store/todos.go:133 | placeholder numbers contain no comma |
| TodosStore.FieldNamesCopiedVerbatim | internal/store/todos.go:133 | there is no allow-list: any text given as a field name lands in the SET clause unchanged |
| TodosStore.Matches | internal/store/todos.go:64 | the row conditions `user_id = $1` and `user_id = $1 AND $2 = ANY(tags)`, with exact tag membership (definition) |
| TodosStore.NewestFirst | internal/store/todos.go:65 | `ORDER BY created_at DESC`: each row is at least as new as every row after it, ties in any order (definition) |
| TodosStore.Answers | internal/store/todos.go:163-164 | a correct answer to a list query: the rows matching the condition, each as often as the table holds it, newest first (definition) |
| TodosStore.Select | internal/store/todos.go:62-65 | the matching rows of a table, never more rows than the table has |
| TodosStore.SelectMultiplicity | internal/store/todos.go:161-164 | a matching row occurs in the selection as often as in the table, a non-matching row not at all |
| TodosStore.OwnerAnswerContents | internal/store/todos.go:60-66 | an answer to the owner query holds exactly the caller's rows, each as often as the table does, newest first |
| TodosStore.TagAnswerIsTaggedPartOfOwnerAnswer | internal/store/todos.go:159-165 | the tag query answers exactly the tagged part of the owner query's answer, as multisets |
| TodosStore.FirstScanError | internal/store/todos.go:88-90 | there is no scan error exactly when every row scans |
| TodosStore.FirstScanErrorAt | internal/store/todos.go:175-179 | the reported scan error is that of the first failing row |
| TodosStore.ScanRows | internal/store/todos.go:74-92 | the row loop stops at the first failing row with its error and no todos; otherwise it returns every row, in order |
| TodosStore.GetAllTodos | internal/store/todos.go:59-99 | a failed query, scan or iteration yields no todos and that error; otherwise every row in the order sent |
| TodosStore.GetTodosByTag | internal/store/todos.go:159-183 | as GetAllTodos, except that an iteration error comes back together with the rows scanned before it |
| TodosStore.CursorOfScansInOrder | internal/store/todos.go:74-92 | a cursor whose every row scans has no scan error, and the row loop over it yields exactly those rows, in order |
| TodosStore.GetAllTodosOfTable | internal/store/todos.go:59-99 | when the database answers the owner query with an intact answer over a table, GetAllTodos returns exactly the caller's rows, each as often as the table holds it, newest first |
| TodosStore.GetTodosByTagOfTable | internal/store/todos.go:159-183 | when the database answers the tag query over a table with rows that all scan, GetTodosByTag returns exactly the caller's rows carrying the tag, newest first, with the iteration error that followed them |
| StoreErrors.Message | internal/store/store.go:11-12 | the texts of the store errors: the two sentinels of store.go, the duplicate-email and duplicate-username sentinels, "no fields to update", "no todo found with ID <id>", "error updating todo: <cause>", and a driver error's own text (definition; properties in the next two rows) |
| StoreErrors.SentinelMessagesDistinct | internal/store/users.go:13-14 | the five fixed error texts are pairwise different |
| StoreErrors.NoTodoFoundMessageNamesId | internal/store/todos.go:113 | the "no todo found" text determines the int64 id it names |
| UsersStore.Password.SetPassword | internal/store/users.go:31-41 | on a hashing failure the credential is unchanged and the error is returned; otherwise the plaintext and the hash are both stored |
| UsersStore.CreateError | internal/store/users.go:53-61 | exactly the email-key violation text gives ErrDuplicateEmail, exactly the username-key text gives ErrDuplicateUsername; any other error passes through |
| UsersStore.CreateErrorNeedsExactText | internal/store/users.go:55-58 | a violation text with anything appended is not recognised |
| UsersStore.Create | internal/store/users.go:47-64 | sends username, hash and email; on success id and creation time are written into the user, on failure the user is untouched and the classified error is returned |
| UsersStore.LookupError | internal/store/users.go:84-91 | "no rows" becomes ErrNotFound, and only "no rows" does |
| UsersStore.GetByEmail | internal/store/users.go:66-95 | no user and the classified error on failure; otherwise a new user holding the row, whose credential is the stored hash and no plaintext |
| UsersStore.GetByID | internal/store/users.go:97-129 | as GetByEmail, keyed by id |
| Claims.Unix | cmd/api/auth.go:116-118 | whole seconds rounded down: s*10^9 <= t < (s+1)*10^9 |
| Tokens.NewAuthenticator | internal/auth/jwt.go:16-22 | the positional fill stores the iss argument as the audience and the aud argument as the issuer |
| Tokens.ValidationUsesOnlyIssArgument | internal/auth/jwt.go:42-45 | an authenticator requires "exp", checks "exp" and "nbf" against the time, and requires both "iss" and "aud" to equal its iss argument |
| Tokens.DistinctAudienceRejected | internal/auth/jwt.go:42-45 | a token addressed to the aud argument is refused whenever aud and iss differ |
| Claims.AcceptedAt | internal/auth/jwt.go:42-45 | the claim checks the validation options turn on: "exp" required and after now, "nbf" if present not after now, "iss" and "aud" equal to the expected strings (definition) |
| Tokens.Validates | internal/auth/jwt.go:42-45 | ValidateToken's claim checks: exp present and after now, nbf (if present) not after now, and both audience and issuer compared with the authenticator's aud field (definition; its consequences in the next two rows) |
| TodoHandlers.UserIDFromContext | cmd/api/todos.go:155-158 | the caller is always user 1 |
| TodoHandlers.BuildUpdatesMap | cmd/api/todos.go:132-153 | the map holds exactly the columns the payload supplies, each bound to the supplied value |
| TodoHandlers.OnlyUpdatesOfDescribesUpdates | cmd/api/todos.go:136-150 | a map is the update map of a payload exactly when its keys are the present fields and each value is the payload's, unchecked |
| TodoHandlers.UpdateKeysArePresentFields | cmd/api/todos.go:132-153 | the keys are the present fields, always among the five updatable columns |
| TodoHandlers.EmptyUpdatesIffAllAbsent | cmd/api/todos.go:105-108 | the map is empty exactly when every payload field is absent |
| TodoHandlers.UpdateTodo | cmd/api/todos.go:87-113 | a bad id or body is 400 and reaches no store; an empty map is 500 "no fields to update"; otherwise exactly one UPDATE for the present fields, 500 on a driver error and 200 otherwise |
| TodoHandlers.DeleteTodo | cmd/api/todos.go:115-129 | a bad id is 400 and reaches no store; otherwise one DELETE, 200 on success, and on a store error 500 wrapping the nil parse error |
| TodoHandlers.DeleteTodoReportingStoreError | cmd/api/todos.go:115-129 | as DeleteTodo, but a store error is 500 wrapping the store's error |
| TodoHandlers.DeleteAnswerLosesStoreError | cmd/api/todos.go:122-126 | as written, different store failures get identical answers with a nil cause; the corrected answer tells them apart at the same status |
| TodoHandlers.CreatePayloadValid | cmd/api/todos.go:14-20 | the create rules: a non-empty title and a priority from 0 to 5; description, completed and tags are unconstrained (definition) |
| TodoHandlers.NewTodo | cmd/api/todos.go:41-50 | the stored todo belongs to user 1 and carries the payload's fields |
| TodoHandlers.CreateTodo | cmd/api/todos.go:30-57 | as written: the insert is always sent, and a decode failure, a validation failure and a store failure each add their own 400 |
| TodoHandlers.UntitledTodoAsWritten | cmd/api/todos.go:37-51 | an untitled todo is answered 400 and still stored; if the store then fails, one request gets two responses |
| TodoHandlers.CreateTodoReturningEarly | cmd/api/todos.go:30-57 | with the returns in place: at most one response, and only a decoded, valid payload reaches the store |
| AuthHandlers.RegisterPayloadValid | cmd/api/auth.go:13-17 | the register rules: username required and at most 20 characters, email required and at most 200, password 6 to 30 (definition) |
| AuthHandlers.RegistrationOutcome | cmd/api/auth.go:44-72 | after validation: a hashing failure is 500 with only the hash attempted; otherwise one insert of username, hash and email, then 200 with no data or RegistrationErrorResponse of the classified store error (definition) |
| AuthHandlers.RegistrationErrorResponse | cmd/api/auth.go:60-70 | 400 exactly for a duplicate email or username, 500 otherwise, reporting the store's error |
| AuthHandlers.RegisterUser | cmd/api/auth.go:24-73 | a bad body or one breaking the length rules is 400 before any hashing or storing; otherwise as RegisterValidated |
| AuthHandlers.RegisterValidated | cmd/api/auth.go:38-72 | a hashing failure is 500 and nothing is stored; otherwise one insert of username, hash and email, 200 with no data on success and RegistrationErrorResponse on failure |
| AuthHandlers.DefaultTokenConfig | cmd/api/main.go:28-32 | tokens live 259200 seconds (three days) and are issued by "open-todo-go" |
| AuthHandlers.ServerAuthenticator | cmd/api/main.go:37-41 | the server's authenticator expects the configured issuer as both audience and issuer |
| AuthHandlers.LoginPayloadValid | cmd/api/auth.go:75-78 | the login rules: email required, in email format and at most 255 characters; password 3 to 72 characters (definition) |
| AuthHandlers.LookupErrorResponse | cmd/api/auth.go:95-102 | 401 exactly for ErrNotFound, 500 otherwise, reporting the store's error |
| AuthHandlers.LoginClaims | cmd/api/auth.go:114-121 | the claim set has exactly sub, exp, iat, nbf, iss and aud; sub is the user id, iss = aud = the configured issuer |
| AuthHandlers.TokenBody | cmd/api/auth.go:131 | the success data has exactly the fields token and userID |
| AuthHandlers.Login | cmd/api/auth.go:80-134 | a bad body is 400 before any lookup; a failed lookup is LookupErrorResponse; a wrong password is 401 "invalid email or password" and nothing is signed; a signing failure is 500; otherwise 200 with the token and the user id |
| AuthHandlers.UnixShift | cmd/api/auth.go:116 | adding whole seconds commutes with rounding to seconds |
| AuthHandlers.LoginTokenWindow | cmd/api/auth.go:114-121 | with a whole-second lifetime, the server accepts a login token exactly from its nbf second until its exp reading's second plus the lifetime |
| AuthHandlers.LoginTokenLifetime | cmd/api/auth.go:116-118 | a token issued at one instant is accepted at that instant, and refused before its second and once the lifetime has passed |
| AuthHandlers.DefaultTokenLifetime | cmd/api/main.go:30 | under the defaults, exp - iat = 259200 and the token is accepted for exactly the 259200 seconds from its issue second |
| AuthHandlers.TokenBodyUserIDParsesBack | cmd/api/auth.go:131 | the userID text parses back to the user's int64 id |

## Left out

- SQL execution, row scanning and connection handling are oracles. Query texts keep the source's wording, but the line breaks and indentation inside the Go raw strings are not kept.
- A Scan that fails midway, after writing some fields into the todo or user, is not modelled: a failed scan yields no value.
- bcrypt hashing and comparison are parameters (`hasher`, `verify`), as are the validator's email-format rule and JSON decoding.
- JWT signing is a parameter (`sign`). ValidateToken's signature check and its signing-method checks (internal/auth/jwt.go:34-37, 45) are not modelled. Only its claim checks are, in `Tokens.Validates`, and no middleware calls it here.
- Routing, the middleware chain, basic auth, expvar, logging, `fmt.Println` output, query timeouts, contexts and server start-up (`cmd/api/api.go`, `cmd/api/main.go` beyond the token configuration) are not modelled.
- The JSON envelope of error and data responses (`writeJSONError`, `jsonResponse`) is left out. A response carries its status and the error value or data map. The failure branch of the final `jsonResponse` in the login handler (cmd/api/auth.go:131-133) fails only on an encoding or write error, and is not modelled.
- The GetAllTodos and GetTodoById handlers (cmd/api/todos.go:59-85) are not modelled; the store operations they call are. GetAllTodos answers any store error with a plain-text 500 "Failed to fetch todos" through `http.Error`. GetTodoById answers a bad id with 400 and every store error, "no todo found" included, with a plain-text 500 "Failed to fetch todo id".
- TodosStore.GetAllTodos, TodosStore.GetTodosByTag: Go returns a nil slice on a query or scan error, on GetAllTodos's iteration error, and wherever no row was scanned; GetTodosByTag returns the rows it scanned together with an iteration error. The model returns the empty sequence where Go returns nil, so an empty result encoded as JSON `null` is not distinguished from `[]`.
- TodoHandlers.CreatePayload: the priority is an int16 in Go. JSON values outside that range fail decoding, which the model covers only as a decode failure; the width is not enforced.
- AuthHandlers.RegisterPayloadValid, AuthHandlers.LoginPayloadValid: the validator counts runes, and the model counts `char`s (Unicode scalar values). The two agree on valid UTF-8; the model has no representation for invalid UTF-8 bytes, each of which Go counts as one rune.
- TodoHandlers.NewTodo, TodosStore.InsertStatement: in Go an absent or `null` "tags" leaves a nil slice, which `pq.Array` sends as SQL NULL; `"tags": []` is sent as the empty array `'{}'`. The model has one `seq<string>` and sends the empty array in both cases, so it does not tell an absent tags list from an empty one (an insert oracle cannot answer them differently). Reading back, a NULL tags column scans to a nil slice (JSON `null`), not to `[]`, and this is not told apart either.
- Tokens.ValidationUsesOnlyIssArgument, Tokens.DistinctAudienceRejected: these describe the claim checks for a non-empty issuer, which the server always uses ("open-todo-go", cmd/api/main.go:31). golang-jwt itself skips the issuer check for an empty expected issuer (and, before version 5.3, the audience check for an empty audience); that library behaviour is not modelled.
- TodosStore.Create: the database's `created_at` is an integer of nanoseconds, not a `time.Time`.
- Strconv.ParseInt: an error keeps only its kind (syntax or range). The text it carries in Go, `strconv.ParseInt: parsing "<input>": invalid syntax` (or `value out of range`), which the handlers wrap into their 400 answers, is not modelled.
- Claims.Claim: section 4.1.3 of RFC 7519 allows "aud" to be an array of strings, and golang-jwt accepts a token whose "aud" array contains the expected audience. A claim here is a number or a single string, so `Claims.AcceptedAt` and `Tokens.Validates` cannot express such a token; the login handler never issues one.
- Integer ids are unbounded integers. The int64 range matters, and is enforced, only where text is parsed (`Strconv.ParseInt`) and in the round-trip lemmas.
- `store.ErrConflict` is declared but nothing returns it. It appears only in `StoreErrors.StoreError`.
- The three `time.Now()` calls of the login handler are parameters.
- Tokens.NewAuthenticator: the server passes its issuer as both arguments (cmd/api/main.go:37-41), so the swapped fields do not change its behaviour. The model states the swap and its consequence without treating it as a defect.

## Findings

| source | as written | input that shows it | evidently intended | confidence | as-written member | corrected member |
|---|---|---|---|---|---|---|
| cmd/api/todos.go:33-39 | the decode and validation failure branches write a 400 but do not return | a body `{"title": ""}`: answered 400 and still inserted; with a failing insert as well, a second 400 is written to the same response | return after each bad-request response, so an invalid payload never reaches the store | not executed | TodoHandlers.CreateTodo, TodoHandlers.UntitledTodoAsWritten | TodoHandlers.CreateTodoReturningEarly |
| cmd/api/todos.go:125 | the delete handler wraps `err`, the already-nil parse error, instead of the store's `error` | any delete whose store call fails (a lost connection): the 500 reports `failed to delete todo: %!w(<nil>)` | wrap the store's error | not executed | TodoHandlers.DeleteTodo, TodoHandlers.DeleteAnswerLosesStoreError | TodoHandlers.DeleteTodoReportingStoreError |
