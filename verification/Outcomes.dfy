/** Result types shared by the models: a source exception becomes a `Refused` value. */
module Outcomes {

  datatype Option<+T> = None | Some(value: T)

  datatype Result<+T, +E> = Ok(value: T) | Refused(reason: E)
}
