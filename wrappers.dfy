/** The optional reference the C# code expresses with `null`, and the
    outcome of an operation that the C# code would abort with an exception. */
module Wrappers {

  datatype Option<+T> = None | Some(value: T)

  datatype Result<+T, +E> = Success(value: T) | Failure(error: E)
}
