/** Vocabulary shared by every module: optional values, service errors, identifiers and database time. */
module Base {

  datatype Option<+T> = None | Some(value: T)

  /** A raised ServiceError, reduced to the two fields the callers branch on. */
  datatype ServiceError = ServiceError(code: string, statusCode: int)

  datatype Result<+T> = Ok(value: T) | Err(error: ServiceError)

  /** An identifier in text form: event ids, trace ids, claim tokens, model names. */
  datatype Id = Id(text: string)

  /** Timestamps in microseconds, the resolution of the database. */
  type Time = int

  const SECOND: int := 1_000_000

  function Min(a: int, b: int): int {
    if a <= b then a else b
  }

  predicate IsSpace(c: char) {
    c == ' ' || '\t' <= c <= '\r' || '\U{1c}' <= c <= '\U{1f}'
  }

  /** Whether stripping the text leaves nothing. */
  predicate Blank(s: string) {
    s == "" || (IsSpace(s[0]) && Blank(s[1..]))
  }
}
