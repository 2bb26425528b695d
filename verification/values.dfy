/**
  Shared value types of the authorizer: Python's "key present or not",
  JSON's "null or a value", and the two kinds of exception the request
  handler distinguishes.
 */
module Values {

  /** A dictionary lookup: the key is absent (None) or present (Some). */
  datatype Option<+T> = None | Some(value: T)

  /** A JSON value that may be `null` (Python's None). */
  datatype Nullable<+T> = Null | Value(value: T)

  /** Why a step of the authorizer stopped.
      Domain: the authorizer's own exception, carrying its message; the
      handler answers 400. Unexpected: any other Python exception,
      carrying its stringified cause; the handler answers 500. */
  datatype Fault = Domain(reason: string) | Unexpected(reason: string)

  /** The outcome of one step: a value, or the fault it raised. */
  datatype Result<+T> = Ok(value: T) | Err(fault: Fault) {

    predicate IsFailure() {
      Err?
    }

    function PropagateFailure<U>(): Result<U>
      requires Err?
    {
      Err(fault)
    }

    function Extract(): T
      requires Ok?
    {
      value
    }
  }

  /** The message of the TypeError Python raises for `key in None`. */
  const NoneNotIterable: string := "argument of type 'NoneType' is not iterable"
}
