/** The 64-bit integers of the source, where the model has to mention their width. */
module Widths {

  const INT64_MAX: int := 0x7FFF_FFFF_FFFF_FFFF

  predicate Int64(n: int) {
    -INT64_MAX - 1 <= n <= INT64_MAX
  }
}
