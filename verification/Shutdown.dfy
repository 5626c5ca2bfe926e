// src/main.cpp:59-82: the shutdown hook drains all work, then closes what is left.

module Shutdown {
  import opened SocketStatus
  import opened Turns
  import opened Actions
  import opened Scheduler
  import opened Invariants
  import opened Insertion
  import opened Ticks
  import opened Drain
  import opened Lifting
  import opened Loudness
  import opened Patience
  import opened Ledger
  import opened Sums
  import R = Registry

  /** The closing loop: `mysql_close`, `delete`, erase, from the front. */
  function CloseAll(w: World): World
    decreases |w.open|
  {
    if w.open == [] then w
    else CloseAll(w.(open := w.open[1..], closed := w.closed + [w.open[0].id]))
  }

  predicate Idle(open: seq<Db>) {
    forall i :: 0 <= i < |open| ==> !HasWork(open[i]) && !open[i].gced
  }

  /** A tick that finds no work erases every collected database, and leaves the others as they were. */
  lemma {:induction false} CleanTick(w: World, i: nat, env: nat -> Env)
    requires i <= |w.open| && Idle(w.open[..i]) && !TickFrom(w, i, env, false).unready
    ensures Idle(TickFrom(w, i, env, false).w.open) && !TickFrom(w, i, env, false).threw
    decreases |w.open| - i
  {
    hide RunTick;
    if i == |w.open| {
      assert w.open[..i] == w.open;
    } else if HasWork(w.open[i]) {
      UnreadyStays(w, i, env);
    } else if w.open[i].gced {
      assert Erase(w, i).open[..i] == w.open[..i];
      CleanTick(Erase(w, i), i, env);
    } else {
      assert w.open[..i + 1] == w.open[..i] + [w.open[i]];
      CleanTick(w, i + 1, env);
    }
  }

  lemma {:induction false} CloseAllCloses(w: World)
    ensures CloseAll(w).open == [] && CloseAll(w).created == w.created
    ensures multiset(CloseAll(w).closed) == multiset(w.closed) + Total(DbIds, w.open)
    decreases |w.open|
  {
    if w.open != [] {
      var w1 := w.(open := w.open[1..], closed := w.closed + [w.open[0].id]);
      CloseAllCloses(w1);
      assert multiset(w1.closed) == multiset(w.closed) + multiset{w.open[0].id};
      Regroup(multiset(w.closed), multiset{w.open[0].id}, Total(DbIds, w.open[1..]));
      assert multiset{w.open[0].id} + Total(DbIds, w.open[1..]) == Total(DbIds, w.open[1..]) + multiset{w.open[0].id};
    }
  }

  /** It goes through the list from the front. */
  lemma {:induction false} CloseAllInOrder(w: World)
    ensures |CloseAll(w).closed| == |w.closed| + |w.open| && w.closed <= CloseAll(w).closed
    ensures forall i :: 0 <= i < |w.open| ==> CloseAll(w).closed[|w.closed| + i] == w.open[i].id
    decreases |w.open|
  {
    if w.open != [] {
      CloseAllInOrder(w.(open := w.open[1..], closed := w.closed + [w.open[0].id]));
    }
  }

  lemma {:induction false} IdleConnections(open: seq<Db>)
    requires AllInv(open) && Idle(open)
    ensures Total(Connection, open) == Total(DbIds, open)
  {
    if open != [] {
      assert DbInv(open[0]);
      IdleConnections(open[1..]) by {
        forall j | 0 <= j < |open[1..]| ensures DbInv(open[1..][j]) && !HasWork(open[1..][j]) && !open[1..][j].gced {
          assert DbInv(open[j + 1]);
        }
      }
    }
  }

  lemma IdleThenClose(w: World)
    requires Inv(w) && Idle(w.open)
    ensures CloseAll(w).open == [] && multiset(CloseAll(w).closed) == R.UpTo(CloseAll(w).created)
  {
    IdleConnections(w.open);
    CloseAllCloses(w);
  }

  /** Exactly-once close: whatever happened before, once a tick finds no work, closing what is left
      makes each connection ever opened closed exactly once, by its own close action or by the hook. */
  lemma CleanTickThenClose(w: World, env: nat -> Env)
    requires Inv(w) && !TickHookTick(w, env).unready
    ensures var last := CloseAll(TickHookTick(w, env).w);
            && last.open == []
            && multiset(last.closed) == R.UpTo(last.created)
  {
    TickFromKeepsInv(w, 0, env, false);
    CleanTick(w, 0, env);
    IdleThenClose(TickHookTick(w, env).w);
  }

  // ----- the hook as a whole -----

  /** `while (!TickHookTick(L))` stops within n ticks, the first of them tick t: a tick finds no work, or
      an exception leaves it, and with it the hook. */
  predicate Ends(w: World, envs: nat -> (nat -> Env), t: nat, n: nat)
    decreases n
  {
    n > 0 && var tick := TickHookTick(w, envs(t));
             tick.threw || !tick.unready || Ends(tick.w, envs, t + 1, n - 1)
  }

  /** The last tick of the loop. */
  function Drained(w: World, envs: nat -> (nat -> Env), t: nat, n: nat): Swept
    requires Ends(w, envs, t, n)
    decreases n
  {
    var tick := TickHookTick(w, envs(t));
    if tick.threw || !tick.unready then tick else Drained(tick.w, envs, t + 1, n - 1)
  }

  /** `ShutdownHook`: an exception out of the drain leaves it before the closing loop. */
  function Hook(w: World, envs: nat -> (nat -> Env), n: nat): World
    requires Ends(w, envs, 0, n)
  {
    var drained := Drained(w, envs, 0, n);
    if drained.threw then drained.w else CloseAll(drained.w)
  }

  // ----- a tick left by an exception -----

  /** Some database can still be used. */
  predicate StillUsable(open: seq<Db>) {
    exists i :: 0 <= i < |open| && !open[i].gced
  }

  /** A handler that throws belongs to a database that has not been collected: the close of a collected
      one calls none. */
  lemma ThrownRunTick(w: World, i: nat, env: Env)
    requires Inv(w) && i < |w.open| && HasWork(w.open[i]) && RunTick(w, i, env).threw
    ensures !w.open[i].gced && StillUsable(RunTick(w, i, env).w.open)
  {
    hide Inv, Ordered, SettledAsExpected, FinishedOnce, Disciplined, VisitAction, ActionInv, Fresh, InsertAll, Release;
    InvOf(w, i);
    PopInv(w.open[i]);
    var db := Pop(w.open[i]);
    var v := VisitAt(w, i, env);
    if w.open[i].gced {
      CloseIsCalm(db.current.value);
      CalmVisit(db.current.value, db.socket, env);
    }
    InsertAllUndisturbed(AfterVisit(w, i, env), v.requests, i);
    assert !RunTick(w, i, env).w.open[i].gced;
  }

  lemma {:induction false} ThrownTick(w: World, i: nat, env: nat -> Env, unready: bool)
    requires Inv(w) && i <= |w.open| && TickFrom(w, i, env, unready).threw
    ensures StillUsable(TickFrom(w, i, env, unready).w.open)
    decreases |w.open| - i
  {
    hide Inv, RunTick, StillUsable;
    if HasWork(w.open[i]) {
      var e := env(w.open[i].id);
      RunTickKeepsInv(w, i, e);
      if RunTick(w, i, e).threw {
        ThrownRunTick(w, i, e);
      } else {
        ThrownTick(RunTick(w, i, e).w, i + 1, env, true);
      }
    } else if w.open[i].gced {
      EraseKeepsInv(w, i);
      ThrownTick(Erase(w, i), i, env, unready);
    } else {
      ThrownTick(w, i + 1, env, unready);
    }
  }

  lemma {:induction false} DrainedKeeps(w: World, envs: nat -> (nat -> Env), t: nat, n: nat)
    requires Inv(w) && Ends(w, envs, t, n)
    ensures var drained := Drained(w, envs, t, n);
            && Inv(drained.w)
            && (Books(w) ==> Books(drained.w))
            && (!drained.threw ==> Idle(drained.w.open))
            && (drained.threw ==> StillUsable(drained.w.open))
    decreases n
  {
    hide Inv, Books, TickFrom, StillUsable;
    TickFromKeepsInv(w, 0, envs(t), false);
    if Books(w) {
      TickFromBooks(w, 0, envs(t), false);
    }
    var tick := TickHookTick(w, envs(t));
    if tick.threw {
      ThrownTick(w, 0, envs(t), false);
    } else if !tick.unready {
      CleanTick(w, 0, envs(t));
    } else {
      DrainedKeeps(tick.w, envs, t + 1, n - 1);
    }
  }

  lemma Unclosed(open: seq<Db>)
    requires AllInv(open)
    ensures forall i :: 0 <= i < |open| && !open[i].gced ==> open[i].connected
  {
    forall i | 0 <= i < |open| && !open[i].gced ensures open[i].connected {
      assert DbInv(open[i]);
    }
  }

  lemma InvAll(w: World)
    requires Inv(w)
    ensures AllInv(w.open)
  {
  }

  lemma IdleIsTame(open: seq<Db>)
    requires Idle(open)
    ensures Everywhere(open, Tame) && !Loud(open)
  {
    TameExactly(open);
  }

  /** A drain is left by an exception if and only if loud work was pending when it began. */
  lemma {:induction false} DrainThrowsExactly(w: World, envs: nat -> (nat -> Env), t: nat, n: nat)
    requires Inv(w) && Ends(w, envs, t, n)
    ensures Drained(w, envs, t, n).threw <==> Loud(w.open)
    decreases n
  {
    hide Inv, TickFrom, Loud, Idle, Everywhere;
    var tick := TickHookTick(w, envs(t));
    LoudTick(w, envs(t));
    TickFromKeepsInv(w, 0, envs(t), false);
    if !tick.unready {
      NothingIsIdle(w.open);
      CleanTick(w, 0, envs(t));
      IdleIsTame(tick.w.open);
    } else if !tick.threw {
      DrainThrowsExactly(tick.w, envs, t + 1, n - 1);
    }
  }

  lemma NothingIsIdle(open: seq<Db>)
    ensures Idle(open[..0])
  {
  }

  /** The hook closes every connection exactly once if and only if no loud work was pending when it was
      called. Otherwise it is left before its closing loop, some database can still be used, and every
      such one keeps its connection open. */
  lemma HookClosesExactly(w: World, envs: nat -> (nat -> Env), n: nat)
    requires Inv(w) && Ends(w, envs, 0, n)
    ensures var after := Hook(w, envs, n);
            if Loud(w.open) then
              && StillUsable(after.open)
              && forall i :: 0 <= i < |after.open| && !after.open[i].gced ==> after.open[i].connected
            else
              after.open == [] && multiset(after.closed) == R.UpTo(after.created)
  {
    hide Inv, Drained, CloseAll, Ends, AllInv, Loud, Idle;
    DrainThrowsExactly(w, envs, 0, n);
    DrainedKeeps(w, envs, 0, n);
    var drained := Drained(w, envs, 0, n);
    InvAll(drained.w);
    if drained.threw {
      Unclosed(drained.w.open);
    } else {
      IdleThenClose(drained.w);
    }
  }

  // ----- when the drain ends -----

  /** The environment of the hook's ticks: cooperative from tick `patience` on. */
  ghost predicate Fair(envs: nat -> (nat -> Env), patience: nat) {
    forall t: nat :: patience <= t ==> AllCooperative(envs(t))
  }

  ghost function Remaining(w: World, t: nat, patience: nat): nat {
    WorldWeight(w) + if t < patience then patience - t else 0
  }

  lemma TickApproaches(w: World, envs: nat -> (nat -> Env), t: nat, patience: nat)
    requires Inv(w) && Everywhere(w.open, Tame) && Fair(envs, patience) && TickHookTick(w, envs(t)).unready
    ensures var w1 := TickHookTick(w, envs(t)).w;
            Inv(w1) && Everywhere(w1.open, Tame) && Remaining(w1, t + 1, patience) < Remaining(w, t, patience)
  {
    hide Inv, TickFrom, Everywhere, WorldWeight, HelpfulFrom, AllCooperative;
    TickFromKeepsInv(w, 0, envs(t), false);
    TameTick(w, envs(t));
    TickFromWeight(w, 0, envs(t), false);
    if patience <= t {
      assert AllCooperative(envs(t));
      CooperativeTick(w, envs(t));
    }
  }

  /** Tame work drains under every fair environment, and no tick of the drain throws. */
  lemma {:induction false} FairDrainEnds(w: World, envs: nat -> (nat -> Env), t: nat, patience: nat, n: nat)
    requires Inv(w) && Everywhere(w.open, Tame) && Fair(envs, patience) && Remaining(w, t, patience) < n
    ensures Ends(w, envs, t, n) && !Drained(w, envs, t, n).threw
    decreases n
  {
    hide Inv, Everywhere, Fair, TickFrom, Remaining;
    TameTick(w, envs(t));
    var tick := TickHookTick(w, envs(t));
    if tick.unready {
      TickApproaches(w, envs, t, patience);
      FairDrainEnds(tick.w, envs, t + 1, patience, n - 1);
      assert Ends(w, envs, t, n);
    }
  }

  /** Whatever the environment does, only tame work drains without an exception. */
  lemma {:induction false} OnlyTameDrains(w: World, envs: nat -> (nat -> Env), t: nat, n: nat)
    requires Inv(w) && Ends(w, envs, t, n) && !Drained(w, envs, t, n).threw
    ensures Everywhere(w.open, Tame)
    decreases n
  {
    hide Inv, TickFrom, Idle, Everywhere;
    var tick := TickHookTick(w, envs(t));
    TameTick(w, envs(t));
    TickFromKeepsInv(w, 0, envs(t), false);
    if !tick.unready && !tick.threw {
      NothingIsIdle(w.open);
      CleanTick(w, 0, envs(t));
      IdleIsTame(tick.w.open);
    } else if !tick.threw {
      OnlyTameDrains(tick.w, envs, t + 1, n - 1);
    }
  }

  /** The hook can close every connection if and only if no loud work is pending and all pending work is
      patient; and then it does so under every fair environment (`FairDrainEnds`). */
  lemma HookCanCloseExactly(w: World)
    requires Inv(w)
    ensures (exists envs, n :: Ends(w, envs, 0, n) && Hook(w, envs, n).open == [])
            <==> !Loud(w.open) && Everywhere(w.open, Patient)
  {
    hide Inv, Ends, Drained, Everywhere, Loud, WorldWeight;
    TameExactly(w.open);
    if Everywhere(w.open, Tame) {
      var envs: nat -> (nat -> Env) := t => id => Env(ALL_READY, 1, 0);
      var n := Remaining(w, 0, 0) + 1;
      assert Fair(envs, 0);
      FairDrainEnds(w, envs, 0, 0, n);
      HookClosesExactly(w, envs, n);
      assert Ends(w, envs, 0, n) && Hook(w, envs, n).open == [];
    }
    forall envs, n | Ends(w, envs, 0, n) && Hook(w, envs, n).open == [] ensures Everywhere(w.open, Tame) {
      HookClosesExactly(w, envs, n);
      DrainThrowsExactly(w, envs, 0, n);
      OnlyTameDrains(w, envs, 0, n);
    }
  }

  lemma IdleFreed(db: Db)
    requires DbInv(db) && !HasWork(db)
    ensures db.freed == db.inserted && SettledAsExpected(db)
  {
    assert Work(db) == [];
  }
}
