/** Option and Result, the two wrappers the rest of the model uses for Kotlin's
    nullable values and for `Result<T>` (a failure carries the exception's message). */
module Base {

  datatype Option<+T> = None | Some(value: T)

  datatype Result<+T> = Ok(value: T) | Failure(message: string)
}
