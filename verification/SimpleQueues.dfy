/**
  The queue as its callers see it: values in the order they were claimed, a head, and the claims
  whose values are still being written.
*/
module SimpleQueues {
  import opened Basics

  /** `log[i]` is the i-th value pushed; the first `head` of them are taken; the pending ones are
      claimed and not yet published. */
  datatype SimpleQueue = SimpleQueue(head: nat, log: seq<Claimed>, pending: set<nat>)

  datatype Event =
    | Stutter
    | Push(x: Claimed)
    | Written(k: nat)
    | Take(n: nat)

  /** What each operation does, and when it may happen: a push only below the capacity, a take
      only of published values, all of them next in line. */
  predicate SimpleStep(capacity: Option<nat>, q: SimpleQueue, e: Event, q': SimpleQueue) {
    match e
    case Stutter => q' == q
    case Push(x) =>
      && (capacity.Some? ==> |q.log| < q.head + capacity.value)
      && q' == q.(log := q.log + [x], pending := q.pending + {|q.log|})
    case Written(k) => k in q.pending && q' == q.(pending := q.pending - {k})
    case Take(n) =>
      && n > 0 && q.head + n <= |q.log| && (forall k :: q.head <= k < q.head + n ==> k !in q.pending)
      && q' == q.(head := q.head + n)
  }
}
