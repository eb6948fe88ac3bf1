/** Types shared by the whole project. */
module Wrappers {
  datatype Option<+T> = None | Some(value: T)

  /** The fate of one store call: it goes through, it fails before or after transmission without
      being applied, or it is applied and its reply is lost. */
  datatype Fault = Pass | PreTransmit | PostTransmit | PostTransmitAfter
}
