/** Shared vocabulary of the model. */
module Basics {
  datatype Option<+T> = None | Some(value: T)

  /** IPv4 node addresses are opaque strings; "" is the zero value the program uses for "no node". */
  type Ip = string

  /** Instants and durations, in nanoseconds. */
  type Time = int

  newtype Byte = x: int | 0 <= x < 256
}
