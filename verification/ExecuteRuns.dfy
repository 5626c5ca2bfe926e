// Whole runs of one statement execution, for every interleaving of ticks with worker steps.

module ExecuteRuns {
  import opened Types
  import opened SocketStatus
  import opened Rows
  import opened Connector
  import opened Turns
  import opened Delivery
  import opened ExecuteMachine

  /** The scheduler lets the worker take one step, or visits the action; a visit that spawns a worker
      may be overtaken by `burst` of its steps before it tests the flag. */
  datatype Event = Work | Visit(ready: Readiness, burst: nat)

  datatype Run = Run(s: State, socket: Flags, result: Option<Settlement>, done: bool)

  function Begin(e: ExecuteServer): Run {
    Run(Init(e), 0, None, false)
  }

  function Step(e: ExecuteServer, r: Run, event: Event, throws: bool): Run {
    if r.done then r
    else
      match event
      case Work => r.(s := WorkerStep(e, r.s))
      case Visit(ready, burst) =>
        var t := Query(e, r.s, r.socket, ready, burst, throws && r.result.None?);
        var result := ResultAfter(r.result, t.reject);
        Run(t.m, t.socket,
            if t.verdict == Done && result.None? then Some(Resolution(e, t.m)) else result,
            t.verdict == Done)
  }

  function RunExecute(e: ExecuteServer, r: Run, schedule: seq<Event>, throws: bool): Run
    decreases |schedule|
  {
    if schedule == [] then r else RunExecute(e, Step(e, r, schedule[0], throws), schedule[1..], throws)
  }

  predicate RunInv(e: ExecuteServer, r: Run) {
    if r.done then
      && r.result == Some(BlockingExecute(e))
      && r.s.worker == Idle && r.s.stored == []
      && r.s.freed == if HasRows(e) then |e.rows| else 0
    else
      Inv(e, r.s, r.socket, r.result)
  }

  lemma StepKeepsInv(e: ExecuteServer, r: Run, event: Event, throws: bool)
    requires RunInv(e, r)
    ensures RunInv(e, Step(e, r, event, throws))
  {
    if !r.done {
      match event
      case Work => WorkerStepKeepsInv(e, r.s, r.socket, r.result);
      case Visit(ready, burst) =>
        ExecuteKeepsInv(e, r.s, r.socket, ready, burst, throws && r.result.None?, r.result);
    }
  }

  /** Schedule independence: whenever an execution finishes, under any interleaving and any rejection
      handler, its promise has the settlement of the blocking program, no worker is left, and every
      stored row has been freed, once. */
  lemma {:induction false} ExecuteIsScheduleIndependent(e: ExecuteServer, r: Run, schedule: seq<Event>, throws: bool)
    requires RunInv(e, r)
    ensures RunInv(e, RunExecute(e, r, schedule, throws))
    decreases |schedule|
  {
    if schedule != [] {
      StepKeepsInv(e, r, schedule[0], throws);
      ExecuteIsScheduleIndependent(e, Step(e, r, schedule[0], throws), schedule[1..], throws);
    }
  }

  lemma BeginInv(e: ExecuteServer)
    ensures RunInv(e, Begin(e))
  {
  }

  /** The statement about whole runs: in every interleaving an unfinished worker is the only one, the
      tick side only waits for it, and a finished execution has settled its promise as the blocking
      program would, with every stored row freed. `ExecuteDelivers` says what the callback is given, field
      by field: above all, when the rows end with 100, the table of each row fetched, in order. */
  lemma ExecuteSettlesAsBlocking(e: ExecuteServer, schedule: seq<Event>, throws: bool)
    ensures var r := RunExecute(e, Begin(e), schedule, throws);
            && (!r.done ==> HandoffSafe(r.s, r.socket))
            && (r.done ==> && r.result == Some(BlockingExecute(e))
                           && r.s.worker == Idle && r.s.stored == []
                           && r.s.freed == (if HasRows(e) then |e.rows| else 0)
                           && ExecuteDelivers(e, r.result))
            && (r.done && HasRows(e) && e.endOut == 100 ==>
                  && r.result.value.data.ResultTable?
                  && |r.result.value.data.rows| == |e.rows|
                  && forall i :: 0 <= i < |e.rows| ==> r.result.value.data.rows[i] == RowTable(e.rows[i], true))
  {
    hide ExecuteDelivers;
    BeginInv(e);
    ExecuteIsScheduleIndependent(e, Begin(e), schedule, throws);
    ExecuteExactly(e, Some(BlockingExecute(e)));
  }

  /** A failed bind whose rejection handler throws: no schedule ever finishes the action. */
  predicate MustWedge(e: ExecuteServer, r: Run) {
    && e.bindOut != 0 && !r.done
    && (r.result.None? ==> r.s == Init(e) && r.socket == 0)
    && (r.result.Some? ==> Wedged(e, r.s) && r.s.worker == Idle && !r.s.threadFinished)
  }

  lemma {:induction false} FailedBindWedges(e: ExecuteServer, r: Run, schedule: seq<Event>)
    requires MustWedge(e, r)
    ensures MustWedge(e, RunExecute(e, r, schedule, true))
    decreases |schedule|
  {
    if schedule != [] {
      assert MustWedge(e, Step(e, r, schedule[0], true));
      FailedBindWedges(e, Step(e, r, schedule[0], true), schedule[1..]);
    }
  }

  lemma FailedBindNeverFinishes(e: ExecuteServer, schedule: seq<Event>)
    requires e.bindOut != 0
    ensures !RunExecute(e, Begin(e), schedule, true).done
  {
    FailedBindWedges(e, Begin(e), schedule);
  }

  /** Events of a schedule that move the unfinished execution. */
  function HelpfulEvents(e: ExecuteServer, r: Run, schedule: seq<Event>, throws: bool): nat
    decreases |schedule|
  {
    if schedule == [] || r.done then 0
    else
      (match schedule[0]
       case Work => if r.s.worker != Idle then 1 else 0
       case Visit(ready, _) => if Helpful(e, r.s, r.socket, ready) then 1 else 0)
      + HelpfulEvents(e, Step(e, r, schedule[0], throws), schedule[1..], throws)
  }

  function Budget(e: ExecuteServer, r: Run): nat {
    Rank(e, r.s) + if r.result.None? then 1 else 0
  }

  lemma StepBudget(e: ExecuteServer, r: Run, event: Event, throws: bool)
    requires RunInv(e, r) && !r.done && !(throws && e.bindOut != 0)
    ensures var r' := Step(e, r, event, throws);
            r'.done || HelpfulEvents(e, r, [event], throws) + Budget(e, r') <= Budget(e, r)
  {
    match event
    case Work =>
      if r.s.worker != Idle {
        WorkerStepRank(e, r.s, r.socket, r.result);
      }
    case Visit(ready, burst) =>
      var rejectThrows := throws && r.result.None?;
      ExecuteRank(e, r.s, r.socket, ready, burst, rejectThrows, r.result);
      ExecuteKeepsInv(e, r.s, r.socket, ready, burst, rejectThrows, r.result);
  }

  /** Apart from that case nothing wedges an execution, not even a rejection handler that throws: a
      schedule with enough helpful events finishes it. */
  lemma {:induction false} ExecuteFinishes(e: ExecuteServer, r: Run, schedule: seq<Event>, throws: bool)
    requires RunInv(e, r) && !(throws && e.bindOut != 0)
    ensures RunExecute(e, r, schedule, throws).done || HelpfulEvents(e, r, schedule, throws) <= Budget(e, r)
    decreases |schedule|
  {
    if schedule != [] {
      var r' := Step(e, r, schedule[0], throws);
      StepKeepsInv(e, r, schedule[0], throws);
      ExecuteFinishes(e, r', schedule[1..], throws);
      if !r.done {
        StepBudget(e, r, schedule[0], throws);
        assert HelpfulEvents(e, r', [], throws) == 0;
      }
    }
  }

  // ----- which executions can finish -----

  /** The free of the statement on an unready socket: whether it is continued depends on the rows alone. */
  lemma FreeIgnoresSocketExactly(e: ExecuteServer, schedule: seq<Event>, throws: bool, ready: Readiness, burst: nat)
    ensures var r := RunExecute(e, Begin(e), schedule, throws);
            !r.done && CallSuspended(r.s, r.socket) && !CheckDatabaseStatus(r.socket, ready) ==>
              (Query(e, r.s, r.socket, ready, burst, throws && r.result.None?).call.Some? <==> e.rows != [])
  {
    BeginInv(e);
    ExecuteIsScheduleIndependent(e, Begin(e), schedule, throws);
    var r := RunExecute(e, Begin(e), schedule, throws);
    if !r.done && CallSuspended(r.s, r.socket) && !CheckDatabaseStatus(r.socket, ready) {
      FreeIgnoresSocket(e, r.s, r.socket, ready, burst, throws && r.result.None?, r.result);
    }
  }

  /** The bind does not fail under a rejection handler that throws, and the one free that looks at the
      socket never waits for a timeout alone. */
  predicate CanFinish(e: ExecuteServer, throws: bool) {
    !(throws && e.bindOut != 0) && (LooksAtSocket(e) ==> AllWakeable(e.freeWaits))
  }

  lemma StepWaits(e: ExecuteServer, r: Run, event: Event, throws: bool)
    requires RunInv(e, r) && !r.done
    ensures var r' := Step(e, r, event, throws);
            && (r'.done ==> Unstuck(e, r.s, r.socket))
            && (!r'.done ==> (Unstuck(e, r'.s, r'.socket) <==> Unstuck(e, r.s, r.socket)))
  {
    match event
    case Work => WorkerKeepsPhase(e, r.s, 1);
    case Visit(ready, burst) =>
      ExecuteWaits(e, r.s, r.socket, ready, burst, throws && r.result.None?, r.result);
  }

  lemma {:induction false} StuckStays(e: ExecuteServer, r: Run, schedule: seq<Event>, throws: bool)
    requires RunInv(e, r) && !r.done && !Unstuck(e, r.s, r.socket)
    ensures !RunExecute(e, r, schedule, throws).done
    decreases |schedule|
  {
    hide RunInv, Unstuck, Step;
    if schedule != [] {
      StepWaits(e, r, schedule[0], throws);
      StepKeepsInv(e, r, schedule[0], throws);
      StuckStays(e, Step(e, r, schedule[0], throws), schedule[1..], throws);
    }
  }

  /** n times: the worker runs a step, then the action is visited on a ready socket. */
  function Alternate(n: nat): seq<Event> {
    if n == 0 then [] else [Work, Visit(ALL_READY, 0)] + Alternate(n - 1)
  }

  /** The state of a run that can finish. */
  predicate Moving(e: ExecuteServer, r: Run) {
    && RunInv(e, r)
    && (!r.done ==> Unstuck(e, r.s, r.socket) && !Wedged(e, r.s))
  }

  lemma StepMoves(e: ExecuteServer, r: Run, event: Event, throws: bool)
    requires Moving(e, r) && !(throws && e.bindOut != 0)
    ensures Moving(e, Step(e, r, event, throws))
  {
    StepKeepsInv(e, r, event, throws);
    if !r.done {
      StepWaits(e, r, event, throws);
      StepNeverWedges(e, r, event, throws);
    }
  }

  lemma StepNeverWedges(e: ExecuteServer, r: Run, event: Event, throws: bool)
    requires RunInv(e, r) && !r.done && !Wedged(e, r.s) && !(throws && e.bindOut != 0)
    ensures Step(e, r, event, throws).done || !Wedged(e, Step(e, r, event, throws).s)
  {
  }

  lemma PairHelps(e: ExecuteServer, r: Run, throws: bool)
    requires Moving(e, r) && !r.done
    ensures (r.s.worker != Idle) || (Step(e, r, Work, throws) == r && Helpful(e, r.s, r.socket, ALL_READY))
  {
    if r.s.worker == Idle {
      ReadyVisitHelps(e, r.s, r.socket, r.result);
    }
  }

  lemma {:induction false} AlternationHelps(e: ExecuteServer, r: Run, n: nat, throws: bool)
    requires Moving(e, r) && !(throws && e.bindOut != 0)
    ensures RunExecute(e, r, Alternate(n), throws).done || HelpfulEvents(e, r, Alternate(n), throws) >= n
    decreases n
  {
    hide Moving, Step, Helpful;
    if r.done {
      DoneStays(e, r, Alternate(n), throws);
    } else if n != 0 {
      var r1 := Step(e, r, Work, throws);
      var r2 := Step(e, r1, Visit(ALL_READY, 0), throws);
      StepMoves(e, r, Work, throws);
      StepMoves(e, r1, Visit(ALL_READY, 0), throws);
      WorkNeverEnds(e, r, throws);
      AlternationHelps(e, r2, n - 1, throws);
      PairHelps(e, r, throws);
      assert Alternate(n)[1..][1..] == Alternate(n - 1);
    }
  }

  lemma WorkNeverEnds(e: ExecuteServer, r: Run, throws: bool)
    requires !r.done
    ensures !Step(e, r, Work, throws).done
  {
  }

  lemma {:induction false} DoneStays(e: ExecuteServer, r: Run, schedule: seq<Event>, throws: bool)
    requires r.done
    ensures RunExecute(e, r, schedule, throws) == r
    decreases |schedule|
  {
    if schedule != [] {
      DoneStays(e, r, schedule[1..], throws);
    }
  }

  /** An execution can finish if and only if it is not a failed bind whose rejection handler throws, and,
      when it returned no row, no wait of freeing the statement is for a timeout alone. */
  lemma ExecuteFinishesExactly(e: ExecuteServer, throws: bool)
    ensures (exists schedule :: RunExecute(e, Begin(e), schedule, throws).done) <==> CanFinish(e, throws)
  {
    var r := Begin(e);
    BeginInv(e);
    if throws && e.bindOut != 0 {
      forall schedule ensures !RunExecute(e, Begin(e), schedule, throws).done {
        FailedBindNeverFinishes(e, schedule);
      }
    } else if CanFinish(e, throws) {
      var n := Budget(e, r) + 1;
      AlternationHelps(e, r, n, throws);
      ExecuteFinishes(e, r, Alternate(n), throws);
      assert RunExecute(e, r, Alternate(n), throws).done;
    } else {
      forall schedule ensures !RunExecute(e, Begin(e), schedule, throws).done {
        StuckStays(e, r, schedule, throws);
      }
    }
  }
}
