/** Success-or-failure values for the operations of the question answerer whose
    underlying collaborators can raise: the symbolic math engine and the text
    generator. An exception's message becomes the `Err` payload. */
module Wrappers {

  datatype Option<+T> = None | Some(value: T)

  datatype Result<+T, +E> = Ok(value: T) | Err(error: E)
}
