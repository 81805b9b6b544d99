/** Small value wrappers shared by the logger and the dispatcher. */
module Wrappers {

  datatype Option<+T> = None | Some(value: T)

  /** How a Go call ends: it returns normally, or it panics with a value.
      A panic travels up to the nearest recover; the model passes it back
      explicitly as a result. */
  datatype Outcome = Done | Panic(value: string)
}
