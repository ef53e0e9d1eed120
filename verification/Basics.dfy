/** Values shared by the models. */
module Basics {
  datatype Option<+T> = None | Some(value: T)

  /** What became of a call to another system: done, not done, or done although its caller sees a failure. */
  datatype Reply = Acked | Refused | AckLost
}
