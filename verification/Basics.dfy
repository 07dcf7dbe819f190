/** Names shared by the models of the contracts and of the SDK. */
module Basics {

  /** A contract or account address in its text form. */
  type Address = string
  type Symbol = string

  datatype Option<+T> = None | Some(value: T)
}
