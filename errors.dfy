/**
 * Failure-carrying results. The glTF loader signals malformed input by
 * throwing one of a family of "misformatted" exceptions, each naming the
 * offending field; the model returns them as values instead. The
 * standard library's own exceptions (a negative vector or array size) are
 * errors too, and so is an unchecked subscript out of range, which has no
 * defined behaviour in the source: the model stops there instead.
 */
module Errors {

  datatype Option<+T> = None | Some(value: T)

  /** The exceptions the loader throws, with the field path it reports. */
  datatype LoadError =
    | IsRequired(field: string)          // MisformattedExceptionIsRequired
    | NotString(field: string)           // MisformattedExceptionNotString
    | NotNumber(field: string)           // MisformattedExceptionNotNumber
    | NotArray(field: string)            // MisformattedExceptionNotArray
    | NotObject(field: string)           // MisformattedExceptionNotObject
    | NotBoolean(field: string)          // MisformattedExceptionNotBoolean
    | NotGoodSizeArray(field: string)    // MisformattedExceptionNotGoodSizeArray
    | Misformatted(field: string, reason: string)
    | TypeError                          // the JSON library's own conversion error
    | CannotOpen                         // std::runtime_error("can't load file!")
    | OutOfRange(what: string)           // an index the source dereferences unchecked (undefined there)
    | LengthError(what: string)          // std::length_error: a vector resized to a negative size
    | BadArrayLength(what: string)       // std::bad_array_new_length: an array new[] of a negative size

  datatype Result<+T> = Ok(value: T) | Err(error: LoadError) {
    predicate IsFailure() {
      Err?
    }

    function PropagateFailure<U>(): Result<U>
      requires Err?
    {
      Err(error)
    }

    function Extract(): T
      requires Ok?
    {
      value
    }
  }
}
