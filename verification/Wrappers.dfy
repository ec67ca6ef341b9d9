/** Small datatypes shared by every module. */
module Wrappers {

  datatype Option<+T> = None | Some(value: T)

  /** How a call ended: normally, with an exception, or not at all because the
      process died during it. A dead process runs no handler and no finalizer. */
  datatype Outcome = Done | Threw | Died
}
