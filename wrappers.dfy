/** Option and Result types shared by every module of the model.
    An error is carried as its message, the way Go code passes `error` values around. */
module Wrappers {

  datatype Option<+T> = None | Some(value: T)

  datatype Result<+T> = Ok(value: T) | Err(error: string)
}
