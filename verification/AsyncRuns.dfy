// Whole runs of one action with a single operation, for every sequence of socket states.

module AsyncRuns {
  import opened SocketStatus
  import opened Connector
  import opened Turns
  import opened Actions

  /** The action, `socket_state`, whether `Query` has returned true, and two counts: calls made, and
      those that left the operation suspended. */
  datatype Run = Run(s: AsyncState, socket: Flags, done: bool, calls: nat, suspended: nat)

  const BEGIN := Run(AsyncState(false, []), 0, false, 0, 0)

  function Step(a: AsyncServer, r: Run, ready: Readiness): Run {
    if r.done then r
    else
      var t := AsyncQuery(a, r.s, r.socket, ready);
      Run(t.m, t.socket, t.verdict == Done,
          r.calls + (if t.call.Some? then 1 else 0),
          r.suspended + (if t.call.Some? && t.socket != 0 then 1 else 0))
  }

  function RunAsync(a: AsyncServer, r: Run, schedule: seq<Readiness>): Run
    decreases |schedule|
  {
    if schedule == [] then r else RunAsync(a, Step(a, r, schedule[0]), schedule[1..])
  }

  predicate RunInv(a: AsyncServer, r: Run) {
    && (if r.done then r.calls == 1 + |a.waits| && r.suspended == |a.waits|
        else if r.s.started then
          && r.socket != 0 && r.calls == r.suspended == |a.waits| - |r.s.waits|
        else r.socket == 0 && r.calls == r.suspended == 0)
  }

  function Ahead(a: AsyncServer, r: Run): seq<Flags> {
    if r.s.started then [r.socket] + r.s.waits else a.waits
  }

  lemma StepKeepsInv(a: AsyncServer, r: Run, ready: Readiness)
    requires RunInv(a, r)
    ensures RunInv(a, Step(a, r, ready))
  {
  }

  lemma StepWaits(a: AsyncServer, r: Run, ready: Readiness)
    requires RunInv(a, r) && !r.done
    ensures var r' := Step(a, r, ready);
            && (r'.done ==> AllWakeable(Ahead(a, r)))
            && (!r'.done ==> (AllWakeable(Ahead(a, r')) <==> AllWakeable(Ahead(a, r))))
  {
    hide AllWakeable, Wakeable;
    WakeableExactly(r.socket);
    AllWakeableAppend([r.socket], r.s.waits);
    AllWakeableOne(r.socket);
    var waits := if r.s.started then r.s.waits else a.waits;
    if waits != [] {
      assert [waits[0]] + waits[1..] == waits;
    }
  }

  /** Whatever the socket does, a finished operation was started once, and continued once for each time
      it was suspended. */
  lemma {:induction false} AsyncTally(a: AsyncServer, r: Run, schedule: seq<Readiness>)
    requires RunInv(a, r)
    ensures RunInv(a, RunAsync(a, r, schedule))
    decreases |schedule|
  {
    if schedule != [] {
      StepKeepsInv(a, r, schedule[0]);
      AsyncTally(a, Step(a, r, schedule[0]), schedule[1..]);
    }
  }

  lemma {:induction false} StuckStays(a: AsyncServer, r: Run, schedule: seq<Readiness>)
    requires RunInv(a, r) && !r.done && !AllWakeable(Ahead(a, r))
    ensures !RunAsync(a, r, schedule).done
    decreases |schedule|
  {
    hide RunInv, Step, Ahead, AllWakeable;
    if schedule != [] {
      StepKeepsInv(a, r, schedule[0]);
      StepWaits(a, r, schedule[0]);
      StuckStays(a, Step(a, r, schedule[0]), schedule[1..]);
    }
  }

  lemma {:induction false} ReadyFinishes(a: AsyncServer, r: Run)
    requires RunInv(a, r) && !r.done && AllWakeable(Ahead(a, r))
    ensures RunAsync(a, r, AllReady(1 + if r.s.started then |r.s.waits| else |a.waits|)).done
    decreases |a.waits| - r.calls
  {
    var n := if r.s.started then |r.s.waits| else |a.waits|;
    var r1 := Step(a, r, ALL_READY);
    StepKeepsInv(a, r, ALL_READY);
    StepWaits(a, r, ALL_READY);
    if r.s.started {
      assert Ahead(a, r)[0] == r.socket;
      WakeableExactly(r.socket);
    }
    assert AllReady(1 + n)[1..] == AllReady(n);
    if r1.done {
      assert n == 0;
    } else {
      ReadyFinishes(a, r1);
    }
  }

  /** A single operation can finish if and only if none of its waits is for a timeout alone. */
  lemma AsyncFinishesExactly(a: AsyncServer)
    ensures (exists schedule :: RunAsync(a, BEGIN, schedule).done) <==> AllWakeable(a.waits)
  {
    if AllWakeable(a.waits) {
      ReadyFinishes(a, BEGIN);
      assert RunAsync(a, BEGIN, AllReady(1 + |a.waits|)).done;
    } else {
      forall schedule ensures !RunAsync(a, BEGIN, schedule).done {
        StuckStays(a, BEGIN, schedule);
      }
    }
  }
}
