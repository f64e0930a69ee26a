/** Small wrapper types shared by every handler of the application. */
module Outcomes {

  /** A value that may be absent: a missing session field, a `parseInt`
      that gave NaN, a product lookup that found no row. */
  datatype Option<+T> = None | Some(value: T) {

    /** The value, or `default` when absent (the `x || default` idiom). */
    function GetOr(default: T): T {
      match this
      case Some(v) => v
      case None => default
    }
  }

  /** The answer of a read from the database: the rows, or an error. */
  datatype Store<+T> = Rows(value: T) | StoreError

  /** The answer of a write to the database. */
  datatype Write = Written | WriteFailed

  /** What a middleware or a handler does with the request:
      hand it on (`next()`), redirect, or answer with a bare status. */
  datatype Outcome = Pass | Redirect(path: string) | Status(code: int)
}
