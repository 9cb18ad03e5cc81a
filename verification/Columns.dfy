/** Column types that several tables of the master share (master/db.go). */
module Columns {

  /** SERIAL: ids are drawn from a sequence. */
  type ServerId = nat

  /** INTEGER. */
  predicate IsInt32(n: int) {
    -0x8000_0000 <= n < 0x8000_0000
  }
}
