/** Points in time, which the caller supplies in place of the clock. */
module Instants {

  /** An instant (`java.sql.Timestamp`). */
  type Stamp = int
}
