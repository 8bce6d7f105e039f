/** Instants and their RFC 3339 texts. */
module Clocks {
  import opened Wrappers

  /** The text of an instant, in nanoseconds, and back. */
  datatype Clock = Clock(show: int -> string, parse: string -> Option<int>)

  const SEVEN_DAYS := 7 * 24 * 3600 * 1_000_000_000
}
