// A statement whose bind failed under a rejection handler that throws: what it does to the module.

module Wedges {
  import opened SocketStatus
  import opened Turns
  import opened Actions
  import opened Scheduler
  import opened Invariants
  import opened Ticks
  import opened Drain
  import opened Lifting
  import opened Patience
  import opened Shutdown
  import E = ExecuteMachine

  predicate WedgedAction(a: Action) {
    !a.hasFinished && a.m.ExecuteM? && E.Wedged(a.m.e, a.m.execute)
  }

  predicate WedgedDb(db: Db) {
    db.current.Some? && WedgedAction(db.current.value)
  }

  /** Database `id` is open, and its running action is wedged. */
  predicate HasWedged(open: seq<Db>, id: nat) {
    exists j :: 0 <= j < |open| && open[j].id == id && WedgedDb(open[j])
  }

  /** No visit moves a wedged action. */
  lemma WedgedVisit(a: Action, socket: Flags, env: Env)
    requires ActionInv(a, socket) && WedgedAction(a)
    ensures var v := VisitAction(a, socket, env);
            v.verdict == Waiting && v.requests == [] && WedgedAction(v.a)
  {
    var e, s := a.m.e, a.m.execute;
    E.WorkerStepsRank(e, s, socket, a.p.result, env.before);
    var t := E.Query(e, s, socket, env.ready, env.burst, RejectThrows(a.p));
    assert t.verdict == Waiting && t.reject.None? && E.Wedged(e, t.m);
  }

  lemma WedgedRunTick(w: World, i: nat, env: Env)
    requires i < |w.open| && WedgedDb(w.open[i]) && DbInv(w.open[i])
    ensures HasWork(w.open[i])
    ensures var t := RunTick(w, i, env);
            !t.threw && WedgedDb(t.w.open[i]) && t.w.open[i].id == w.open[i].id
  {
    WedgedVisit(w.open[i].current.value, w.open[i].socket, env);
  }

  lemma RunTickKeepsWedged(w: World, i: nat, env: Env, id: nat)
    requires Inv(w) && i < |w.open| && HasWork(w.open[i]) && HasWedged(w.open, id)
    ensures HasWedged(RunTick(w, i, env).w.open, id)
  {
    hide Inv, RunTick, WedgedAction, DbInv;
    var j :| 0 <= j < |w.open| && w.open[j].id == id && WedgedDb(w.open[j]);
    InvOf(w, i);
    if j == i {
      WedgedRunTick(w, i, env);
    } else {
      RunTickUndisturbed(w, i, env, j);
    }
    assert RunTick(w, i, env).w.open[j].id == id && WedgedDb(RunTick(w, i, env).w.open[j]);
  }

  lemma EraseKeepsWedged(w: World, i: nat, id: nat)
    requires i < |w.open| && !HasWork(w.open[i]) && HasWedged(w.open, id)
    ensures HasWedged(Erase(w, i).open, id)
  {
    hide WedgedAction;
    var j :| 0 <= j < |w.open| && w.open[j].id == id && WedgedDb(w.open[j]);
    var k := if j < i then j else j - 1;
    assert Erase(w, i).open[k] == w.open[j];
  }

  lemma {:induction false} TickKeepsWedged(w: World, i: nat, env: nat -> Env, unready: bool, id: nat)
    requires Inv(w) && i <= |w.open| && HasWedged(w.open, id)
    ensures HasWedged(TickFrom(w, i, env, unready).w.open, id)
    decreases |w.open| - i
  {
    hide Inv, RunTick, HasWedged;
    if i == |w.open| {
    } else if HasWork(w.open[i]) {
      var t := RunTick(w, i, env(w.open[i].id));
      RunTickKeepsWedged(w, i, env(w.open[i].id), id);
      RunTickKeepsInv(w, i, env(w.open[i].id));
      if !t.threw {
        TickKeepsWedged(t.w, i + 1, env, true, id);
      }
    } else if w.open[i].gced {
      EraseKeepsWedged(w, i, id);
      EraseKeepsInv(w, i);
      TickKeepsWedged(Erase(w, i), i, env, unready, id);
    } else {
      TickKeepsWedged(w, i + 1, env, unready, id);
    }
  }

  /** While an action is wedged, every tick finds work, whatever the environment does, and leaves it
      wedged. */
  lemma WedgedTick(w: World, env: nat -> Env, id: nat)
    requires Inv(w) && HasWedged(w.open, id)
    ensures var tick := TickHookTick(w, env);
            tick.unready && Inv(tick.w) && HasWedged(tick.w.open, id)
  {
    hide Inv, TickFrom;
    TickKeepsWedged(w, 0, env, false, id);
    TickFromKeepsInv(w, 0, env, false);
    var j :| 0 <= j < |w.open| && w.open[j].id == id && WedgedDb(w.open[j]);
    WorkIsReported(w, 0, env, false, j);
  }

  lemma WedgedIsNotTame(open: seq<Db>, id: nat)
    requires HasWedged(open, id)
    ensures !Everywhere(open, Tame)
  {
    var j :| 0 <= j < |open| && open[j].id == id && WedgedDb(open[j]);
    assert !GoodDb(open[j], Tame);
  }

  /** So the shutdown hook never reaches its closing loop: its drain goes on forever, or an exception of
      some other database's handler leaves it. */
  lemma WedgedNeverCloses(w: World, envs: nat -> (nat -> Env), t: nat, n: nat, id: nat)
    requires Inv(w) && HasWedged(w.open, id)
    ensures Ends(w, envs, t, n) ==> Drained(w, envs, t, n).threw
  {
    hide Inv, Ends, Drained, HasWedged, Everywhere;
    if Ends(w, envs, t, n) && !Drained(w, envs, t, n).threw {
      OnlyTameDrains(w, envs, t, n);
      WedgedIsNotTame(w.open, id);
    }
  }

  /** With no other database open, no exception can leave it either. */
  predicate Alone(open: seq<Db>) {
    |open| == 1 && WedgedDb(open[0])
  }

  lemma AloneTick(w: World, env: nat -> Env)
    requires Inv(w) && Alone(w.open)
    ensures var tick := TickHookTick(w, env);
            tick.unready && !tick.threw && Inv(tick.w) && Alone(tick.w.open)
  {
    hide Inv, WedgedDb, DbInv;
    InvOf(w, 0);
    var e := env(w.open[0].id);
    WedgedRunTick(w, 0, e);
    RunTickKeepsInv(w, 0, e);
    assert TickFrom(RunTick(w, 0, e).w, 1, env, true) == Swept(RunTick(w, 0, e).w, true, false);
  }

  lemma {:induction false} AloneNeverEnds(w: World, envs: nat -> (nat -> Env), t: nat, n: nat)
    requires Inv(w) && Alone(w.open)
    ensures !Ends(w, envs, t, n)
    decreases n
  {
    hide Inv, Alone, TickHookTick;
    if n > 0 {
      AloneTick(w, envs(t));
      AloneNeverEnds(TickHookTick(w, envs(t)).w, envs, t + 1, n - 1);
    }
  }
}
