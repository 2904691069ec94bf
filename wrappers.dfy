/** Small result types shared by the other modules. */
module Wrappers {

  datatype Option<+T> = None | Some(value: T)

  /** How a JavaScript call ends: normally with a value, or by throwing
      (a TypeError from reading a property of `undefined`, say). */
  datatype Completion<+T> = Normal(value: T) | Thrown(error: string)
}
