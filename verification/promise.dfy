/**
 The settle-once rule of a JavaScript `Promise` executor: the executor may call
 `resolve` and `reject` any number of times, but only the first call settles the
 promise; every later call is silently ignored.
 */
module Promise {

  /** The state of a promise. */
  datatype Settlement<+T, +E> = Pending | Fulfilled(value: T) | Rejected(reason: E)

  /** One call the executor makes to its `resolve` or `reject` argument. */
  datatype SettleCall<+T, +E> = Resolve(value: T) | Reject(reason: E)

  /** The state a single call would settle a pending promise to. */
  function SettledBy<T, E>(c: SettleCall<T, E>): Settlement<T, E> {
    match c
    case Resolve(v) => Fulfilled(v)
    case Reject(e) => Rejected(e)
  }

  /** The effect of one call: it settles a pending promise and does nothing to a settled one. */
  function Step<T, E>(p: Settlement<T, E>, c: SettleCall<T, E>): (q: Settlement<T, E>)
    ensures !q.Pending?
    ensures !p.Pending? ==> q == p
  {
    if p.Pending? then SettledBy(c) else p
  }

  /** The state of promise `p` after the executor makes `calls` in order. */
  function Run<T, E>(p: Settlement<T, E>, calls: seq<SettleCall<T, E>>): (q: Settlement<T, E>)
    ensures !p.Pending? ==> q == p
    ensures p.Pending? && |calls| > 0 ==> q == SettledBy(calls[0])
    ensures p.Pending? && |calls| == 0 ==> q.Pending?
    decreases |calls|
  {
    if |calls| == 0 then p else Run(Step(p, calls[0]), calls[1..])
  }

  /** Once the first calls have settled the promise, whatever the executor calls afterwards has no effect. */
  lemma LaterCallsIgnored<T, E>(p: Settlement<T, E>, first: seq<SettleCall<T, E>>, later: seq<SettleCall<T, E>>)
    requires !Run(p, first).Pending?
    ensures Run(p, first + later) == Run(p, first)
  {
  }
}
