/**
  What the parts of the model share.
*/
module Basics {
  datatype Option<+T> = None | Some(value: T)

  type Value = int

  /** Blocks, and registrations in a waiter list, are known by number. */
  type Id = nat

  /** Threads: those running the steps of the queue, and the tasks polling its futures. */
  type Tid = nat

  /** A claimed position: who claimed it, and the value pushed there. */
  datatype Claimed = Claimed(who: Tid, v: Value)
}
