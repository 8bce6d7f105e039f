/** Byte strings. */
module Bytes {
  type bytes = seq<bv8>
}
