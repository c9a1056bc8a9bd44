/** The database as the stores see it through `database/sql`: a statement is
    query text plus the values bound to its `$n` placeholders, and whatever the
    driver answers is given to the model as an oracle over statements. */
module Sql {

  /** An error from the driver: `sql.ErrNoRows` (compared by identity in the
      source), or any other driver error, known only by its `Error()` text. */
  datatype DbError = NoRows | Driver(message: string)

  const NoRowsText: string := "sql: no rows in result set"

  /** `err.Error()` */
  function ErrorText(e: DbError): string
  {
    match e
    case NoRows => NoRowsText
    case Driver(m) => m
  }

  /** A value bound to a placeholder (an `interface{}` in an argument list):
      text, an integer, a boolean, a `pq.Array` of text, or raw bytes. */
  datatype Value = Str(s: string) | Int(i: int) | Bool(b: bool) | StrArray(items: seq<string>) | Blob(bytes: seq<bv8>)

  datatype Statement = Statement(query: string, args: seq<Value>)
}
