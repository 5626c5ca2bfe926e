// Whole runs of one query, for every sequence of socket states and every rejection handler.

module QueryRuns {
  import opened Types
  import opened SocketStatus
  import opened Rows
  import opened Connector
  import opened Turns
  import opened Delivery
  import opened QueryMachine

  /** A run so far: the action, `socket_state`, the outcome of the promise, whether `Query` has
      returned true and `Finish` has run, and four counts: calls of `Query`, those that ended with
      a nonzero `socket_state`, completed frees of the result set, and stray continue calls, made
      while no operation was suspended. */
  datatype Run = Run(s: State, socket: Flags, result: Option<Settlement>, done: bool,
                     calls: nat, suspended: nat, frees: nat, strays: nat)

  function Begin(q: QueryServer): Run {
    Run(Init(q), 0, None, false, 0, 0, 0, 0)
  }

  /** One tick; the promise absorbs everything after its first settlement, so a rejection handler can
      throw only out of the first `reject`. */
  function Step(q: QueryServer, r: Run, ready: Readiness, throws: bool): Run {
    if r.done then r
    else
      var t := Query(q, r.s, r.socket, ready, throws && r.result.None?);
      var result := ResultAfter(r.result, t.reject);
      Run(t.m, t.socket,
          if t.verdict == Done && result.None? then Some(Resolution(q, t.m)) else result,
          t.verdict == Done,
          r.calls + 1,
          r.suspended + (if t.socket != 0 then 1 else 0),
          r.frees + (if r.s.phase == Freeing && t.call.Some? && t.socket == 0 then 1 else 0),
          r.strays + (if r.socket == 0 && t.call.Some? && t.call.value.ContinueCall? then 1 else 0))
  }

  function RunQuery(q: QueryServer, r: Run, schedule: seq<Readiness>, throws: bool): Run
    decreases |schedule|
  {
    if schedule == [] then r else RunQuery(q, Step(q, r, schedule[0], throws), schedule[1..], throws)
  }

  predicate RunInv(q: QueryServer, r: Run) {
    if r.done then
      && r.result == Some(Expected(q))
      && (r.result.value.success && q.hasResult ==> r.frees == 1 && r.calls == |q.rows| + 3 + r.suspended)
    else
      && Inv(q, r.s, r.socket, r.result)
      && (r.result.None? ==> r.frees == 0 && r.calls == OperationsDone(q, r.s) + r.suspended)
  }

  /** A rejection handler that has thrown has led to one stray call, or is about to. */
  predicate StrayInv(q: QueryServer, r: Run, throws: bool) {
    if r.done then
      r.strays == if throws && !BlockingQuery(q).success then 1 else 0
    else
      && (r.result.Some? ==> throws)
      && r.strays + (if Interrupted(r.s, r.socket) then 1 else 0) == (if r.result.Some? then 1 else 0)
  }

  lemma StepKeepsInv(q: QueryServer, r: Run, ready: Readiness, throws: bool)
    requires RunInv(q, r)
    ensures RunInv(q, Step(q, r, ready, throws))
  {
    if !r.done {
      QueryKeepsInv(q, r.s, r.socket, ready, throws && r.result.None?, r.result);
      if r.result.None? {
        QueryTally(q, r.s, r.socket, ready, throws);
        QueryEnds(q, r.s, r.socket, ready, throws);
      }
    }
  }

  lemma StepStrays(q: QueryServer, r: Run, ready: Readiness, throws: bool)
    requires RunInv(q, r) && StrayInv(q, r, throws)
    ensures StrayInv(q, Step(q, r, ready, throws), throws)
  {
    hide Query, Tables;
    if !r.done {
      StepKeepsInv(q, r, ready, throws);
      QueryCalls(q, r.s, r.socket, ready, throws && r.result.None?);
      QueryKeepsInv(q, r.s, r.socket, ready, throws && r.result.None?, r.result);
      RejectEndsQuery(q, r.s, r.socket, ready, throws && r.result.None?);
    }
  }

  /** A rejection ends the query, one way or the other. */
  lemma RejectEndsQuery(q: QueryServer, s: State, socket: Flags, ready: Readiness, rejectThrows: bool)
    ensures var t := Query(q, s, socket, ready, rejectThrows);
            t.reject.Some? ==> t.verdict == if rejectThrows then Threw else Done
  {
  }

  /** Schedule independence: whenever a query finishes, under any readiness schedule, its promise has
      the expected settlement; and if it delivers a result set of k rows, `Query` was called
      k + 3 + s times, s of them leaving the operation suspended, and the set was freed once. */
  lemma {:induction false} QueryIsScheduleIndependent(q: QueryServer, r: Run, schedule: seq<Readiness>, throws: bool)
    requires RunInv(q, r) && StrayInv(q, r, throws)
    ensures RunInv(q, RunQuery(q, r, schedule, throws)) && StrayInv(q, RunQuery(q, r, schedule, throws), throws)
    decreases |schedule|
  {
    hide RunInv, StrayInv, Step;
    if schedule != [] {
      StepKeepsInv(q, r, schedule[0], throws);
      StepStrays(q, r, schedule[0], throws);
      QueryIsScheduleIndependent(q, Step(q, r, schedule[0], throws), schedule[1..], throws);
    }
  }

  lemma BeginInv(q: QueryServer)
    ensures RunInv(q, Begin(q)) && forall throws :: StrayInv(q, Begin(q), throws)
  {
  }

  /** The statement about whole runs: whatever the readiness of the socket, and whether or not the
      rejection handler throws, a finished query has settled its promise as the blocking program
      would, except that rows are lost if freeing the result loses the server; and delivering k rows
      took k + 3 + s calls of `Query` and one free. One continue call was made while no operation was
      suspended if the query fails and its rejection handler throws, and otherwise none. `QueryDelivers`
      says what the callback is given, field by field. */
  lemma QuerySettlesAsBlocking(q: QueryServer, schedule: seq<Readiness>, throws: bool)
    ensures var r := RunQuery(q, Begin(q), schedule, throws);
            r.done ==>
              && (r.result == Some(BlockingQuery(q)) <==> !(RowsLost(q) && q.rows != []))
              && (r.result.Some? && r.result.value.success == BlockingQuery(q).success)
              && (BlockingQuery(q).success && q.hasResult
                  ==> r.frees == 1 && r.calls == |q.rows| + 3 + r.suspended)
              && r.strays == (if throws && !BlockingQuery(q).success then 1 else 0)
              && QueryDelivers(q, r.result)
  {
    hide QueryDelivers;
    BeginInv(q);
    QueryIsScheduleIndependent(q, Begin(q), schedule, throws);
    ExpectedIsBlocking(q);
    QueryExactly(q, Some(Expected(q)));
  }

  /** Ticks of a schedule at which the environment lets the unfinished query take a step. */
  function HelpfulTicks(q: QueryServer, r: Run, schedule: seq<Readiness>, throws: bool): nat
    decreases |schedule|
  {
    if schedule == [] || r.done then 0
    else
      (if Helpful(r.s, r.socket, schedule[0]) then 1 else 0)
      + HelpfulTicks(q, Step(q, r, schedule[0], throws), schedule[1..], throws)
  }

  /** The steps a run may still need; an exception out of `reject` costs one, and can happen once. */
  function Budget(q: QueryServer, r: Run): nat {
    Rank(q, r.s) + if r.result.None? then 1 else 0
  }

  /** No query is wedged, not even by a rejection handler that throws: a schedule with enough helpful
      ticks finishes it. */
  lemma {:induction false} QueryFinishes(q: QueryServer, r: Run, schedule: seq<Readiness>, throws: bool)
    ensures RunQuery(q, r, schedule, throws).done || HelpfulTicks(q, r, schedule, throws) <= Budget(q, r)
    decreases |schedule|
  {
    hide Advance, FinishPhase, Helpful;
    if schedule != [] && !r.done {
      QueryRank(q, r.s, r.socket, schedule[0], throws && r.result.None?);
      QueryFinishes(q, Step(q, r, schedule[0], throws), schedule[1..], throws);
    } else if schedule != [] {
      QueryFinishes(q, r, schedule[1..], throws);
    }
  }

  // ----- which queries can finish -----

  function Ahead(q: QueryServer, r: Run, throws: bool): seq<Flags> {
    WaitsAhead(q, r.s, r.socket, throws && r.result.None?)
  }

  lemma StepWaits(q: QueryServer, r: Run, ready: Readiness, throws: bool)
    requires !r.done && (!r.s.started ==> r.socket == 0)
    ensures var r' := Step(q, r, ready, throws);
            && (!r'.s.started ==> r'.socket == 0)
            && (r'.done ==> AllWakeable(Ahead(q, r, throws)))
            && (!r'.done ==> (AllWakeable(Ahead(q, r', throws)) <==> AllWakeable(Ahead(q, r, throws))))
  {
    hide Query, WaitsAhead;
    QueryWaits(q, r.s, r.socket, ready, throws && r.result.None?);
  }

  lemma {:induction false} StuckStays(q: QueryServer, r: Run, schedule: seq<Readiness>, throws: bool)
    requires !r.done && (!r.s.started ==> r.socket == 0) && !AllWakeable(Ahead(q, r, throws))
    ensures !RunQuery(q, r, schedule, throws).done
    decreases |schedule|
  {
    hide Ahead, Step, AllWakeable;
    if schedule != [] {
      StepWaits(q, r, schedule[0], throws);
      StuckStays(q, Step(q, r, schedule[0], throws), schedule[1..], throws);
    }
  }

  /** With every wait wakeable, each tick on a ready socket helps. */
  lemma {:induction false} ReadyHelps(q: QueryServer, r: Run, n: nat, throws: bool)
    requires (!r.s.started ==> r.socket == 0) && (!r.done ==> AllWakeable(Ahead(q, r, throws)))
    ensures RunQuery(q, r, AllReady(n), throws).done || HelpfulTicks(q, r, AllReady(n), throws) == n
    decreases n
  {
    hide Step, Query;
    if n != 0 {
      assert AllReady(n)[1..] == AllReady(n - 1);
      if r.done {
        DoneStays(q, r, AllReady(n), throws);
      } else {
        StepWaits(q, r, ALL_READY, throws);
        ReadyHelps(q, Step(q, r, ALL_READY, throws), n - 1, throws);
        assert Helpful(r.s, r.socket, ALL_READY) by {
          HeadWakeable(q, r, throws);
        }
      }
    }
  }

  lemma HeadWakeable(q: QueryServer, r: Run, throws: bool)
    requires (!r.s.started ==> r.socket == 0) && AllWakeable(Ahead(q, r, throws))
    ensures Helpful(r.s, r.socket, ALL_READY)
  {
    if r.socket != 0 {
      assert Ahead(q, r, throws)[0] == r.socket;
    }
    WakeableExactly(r.socket);
  }

  lemma {:induction false} DoneStays(q: QueryServer, r: Run, schedule: seq<Readiness>, throws: bool)
    requires r.done
    ensures RunQuery(q, r, schedule, throws) == r
    decreases |schedule|
  {
    if schedule != [] {
      DoneStays(q, r, schedule[1..], throws);
    }
  }

  /** A query can finish if and only if no wait on its path is for a timeout alone. */
  lemma QueryFinishesExactly(q: QueryServer, throws: bool)
    ensures (exists schedule :: RunQuery(q, Begin(q), schedule, throws).done)
            <==> AllWakeable(WaitsOfQuery(q, throws))
  {
    var r := Begin(q);
    assert Ahead(q, r, throws) == WaitsOfQuery(q, throws) by {
      FromTheStart(q, throws);
    }
    if AllWakeable(WaitsOfQuery(q, throws)) {
      var n := Budget(q, r) + 1;
      ReadyHelps(q, r, n, throws);
      QueryFinishes(q, r, AllReady(n), throws);
      assert RunQuery(q, r, AllReady(n), throws).done;
    } else {
      forall schedule ensures !RunQuery(q, Begin(q), schedule, throws).done {
        StuckStays(q, r, schedule, throws);
      }
    }
  }

  lemma FromTheStart(q: QueryServer, throws: bool)
    ensures Ahead(q, Begin(q), throws) == WaitsOfQuery(q, throws)
  {
  }
}
