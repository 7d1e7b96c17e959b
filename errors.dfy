/**
 * The exceptions that the ingestion code can raise, and the text that
 * `str(exc)` gives for each (it becomes a failed run's error message).
 */
module Errors {

  datatype Error =
    /** `row[key]` on a row without that key. */
    | KeyError(key: string)
    /** `int(...)`, `float(...)`, `fromisoformat(...)` or an unknown source name. */
    | ValueError(message: string)
    /** The HTTP request of the remote adapter failed (timeout, non-2xx status). */
    | FetchError(message: string)
    /** The unique constraint on (source, external_id) rejected a flush. */
    | IntegrityError

  /** The unique constraint's name in the unified table. */
  const UniqueConstraintName: string := "uix_source_external"

  /** `str(exc)`: a KeyError prints its key between single quotes. */
  function Message(e: Error): string
  {
    match e
    case KeyError(k) => "'" + k + "'"
    case ValueError(msg) => msg
    case FetchError(msg) => msg
    case IntegrityError => "UNIQUE constraint failed: " + UniqueConstraintName
  }
}
