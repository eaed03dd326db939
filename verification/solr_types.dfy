/** Values shared by the result materialiser and the statement: the search
    engine's schema-less documents, and the driver's failure signal. */
module SolrTypes {

  /** A field value of a search-engine document. The driver itself only ever
      writes `Long` values (the total-match count); the other cases stand for
      whatever the engine returned. */
  datatype Value = Long(n: int) | Text(s: string) | Flag(b: bool)

  /** A SolrDocument: field name to value. */
  type Document = map<string, Value>

  datatype Option<+T> = None | Some(value: T)

  datatype Result<+T, +E> = Success(value: T) | Failure(error: E)

  /** The failures the statement can raise, by cause. */
  datatype Failure =
    | SyntaxError                // the SQL parser rejected the text
    | CommandError(code: nat)    // a DbException raised by a command, by its error code
    | NullConnection             // the statement's connection was dereferenced after close()
    | InvalidValue(name: string) // an argument outside its allowed values
}
