// What one call of an action's `Query` method does, for all kinds of action.

module Turns {
  import opened Types
  import opened SocketStatus

  /** What the outside world contributes to one visit of an action: the state of the socket, the
      number of worker-thread steps taken since the previous visit, and the number taken between the
      spawning of a worker and the test that follows it. */
  datatype Env = Env(ready: Readiness, before: nat, burst: nat)

  /** `Query` returned false, or left by an exception, or returned true. */
  datatype Verdict = Waiting | Threw | Done

  /** The action and `socket_state` afterwards, the non-blocking call issued if any, the value
      passed to `reject` if it was called, and how `Query` ended. */
  datatype Turn<+M> = Turn(m: M, socket: Flags, call: Option<Call>, reject: Option<Payload>, verdict: Verdict)

  /** One start or continue call of an operation with these suspensions still ahead of it. */
  function Issue(waits: seq<Wait>): (Flags, seq<Wait>) {
    if waits == [] then (0, []) else (waits[0], waits[1..])
  }

  /** The outcome of a promise after a turn that may have called `reject`: only the first counts. */
  function ResultAfter(result: Option<Settlement>, reject: Option<Payload>): Option<Settlement> {
    if result.None? && reject.Some? then Some(Settlement(false, reject.value)) else result
  }
}
