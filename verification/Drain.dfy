// Why `while (!TickHookTick(L))` ends: what is left to do weighs less after every tick at which the
// environment lets some action take a step.

module Drain {
  import opened SocketStatus
  import opened Turns
  import opened Actions
  import opened Jobs
  import opened Scheduler
  import opened Invariants
  import opened Insertion
  import opened Ticks
  import opened Sums
  import P = Promise

  function DbWeight(db: Db): nat {
    Sum(ActionWeight, Work(db))
  }

  function WorldWeight(w: World): nat {
    Sum(DbWeight, w.open)
  }

  lemma InsertAtWeight(w: World, i: nat, job: P.Job)
    requires i < |w.open|
    ensures WorldWeight(InsertAt(w, i, job)) <= WorldWeight(w) + JobWeight(job)
  {
    var (w1, a) := CreateAction(w, job);
    var (_, pinned) := EnsurePinned(w1.reg, w.open[i]);
    PushBackWeight(pinned, a);
    NewActionWeight(w.actions, job, a.refs);
    assert Work(pinned) == Work(w.open[i]);
    SumUpdate(DbWeight, w.open, i, PushBack(pinned, a));
  }

  lemma PushBackWeight(db: Db, a: Action)
    ensures DbWeight(PushBack(db, a)) == DbWeight(db) + ActionWeight(a)
  {
    WorkPushBack(db, a);
    SumAppend(ActionWeight, Work(db), [a]);
  }

  lemma {:induction false} InsertAllWeight(w: World, requests: seq<P.Request>)
    ensures WorldWeight(InsertAll(w, requests)) <= WorldWeight(w) + RequestsWeight(requests)
    decreases |requests|
  {
    if requests != [] {
      var i := IndexOf(w.open, requests[0].db);
      if i < |w.open| {
        InsertAtWeight(w, i, requests[0].job);
      }
      InsertAllWeight(Insert(w, requests[0].db, requests[0].job), requests[1..]);
    }
  }

  /** The environment lets the running, or next, action of the database take a step. */
  predicate HelpfulDb(db: Db, env: Env) {
    && HasWork(db)
    && Helpful(Pop(db).current.value, Pop(db).socket, env)
  }

  lemma VisitWeight(a: Action, socket: Flags, env: Env)
    requires ActionInv(a, socket)
    ensures var v := VisitAction(a, socket, env);
            && ActionWeight(v.a) + RequestsWeight(v.requests) <= ActionWeight(a)
            && (Helpful(a, socket, env) && v.verdict != Done
                ==> ActionWeight(v.a) + RequestsWeight(v.requests) < ActionWeight(a))
  {
    VisitPays(a, socket, env);
    VisitBudget(a, socket, env);
    VisitKeepsInv(a, socket, env);
  }

  lemma WorkWeight(db: Db)
    requires db.current.Some?
    ensures DbWeight(db) == ActionWeight(db.current.value) + Sum(ActionWeight, db.queue)
  {
    assert Work(db)[0] == db.current.value && Work(db)[1..] == db.queue;
  }

  lemma VisitedWeight(db: Db, env: Env)
    requires DbInv(db) && db.current.Some?
    ensures var v := VisitAction(db.current.value, db.socket, env);
            && DbWeight(Visited(db, v)) + RequestsWeight(v.requests) <= DbWeight(db)
            && (Helpful(db.current.value, db.socket, env) && v.verdict != Done
                ==> DbWeight(Visited(db, v)) + RequestsWeight(v.requests) < DbWeight(db))
  {
    var v := VisitAction(db.current.value, db.socket, env);
    VisitWeight(db.current.value, db.socket, env);
    WorkWeight(db);
    WorkWeight(Visited(db, v));
  }

  lemma AfterVisitWeight(w: World, i: nat, env: Env)
    requires i < |w.open| && HasWork(w.open[i]) && DbInv(w.open[i])
    ensures var v := VisitAt(w, i, env);
            var after := WorldWeight(AfterVisit(w, i, env)) + RequestsWeight(v.requests);
            && after <= WorldWeight(w)
            && (HelpfulDb(w.open[i], env) && v.verdict != Done ==> after < WorldWeight(w))
  {
    PopInv(w.open[i]);
    var db := Pop(w.open[i]);
    VisitedWeight(db, env);
    SumUpdate(DbWeight, w.open, i, Visited(db, VisitAt(w, i, env)));
  }

  lemma ReleaseWeight(w: World, i: nat)
    requires i < |w.open| && w.open[i].current.Some?
    ensures WorldWeight(Release(w, i)) < WorldWeight(w)
  {
    var db := w.open[i];
    WorkWeight(db);
    assert Work(Released(db)) == db.queue;
    SumUpdate(DbWeight, w.open, i, Released(db));
  }

  lemma ConcludeWeight(w: World, i: nat, requests: seq<P.Request>, verdict: Verdict)
    requires i < |w.open|
    requires verdict == Done ==> w.open[i].current.Some?
    ensures var after := WorldWeight(Conclude(w, i, requests, verdict).w);
            && after <= WorldWeight(w) + RequestsWeight(requests)
            && (verdict == Done ==> after < WorldWeight(w) + RequestsWeight(requests))
  {
    InsertAllWeight(w, requests);
    InsertAllUndisturbed(w, requests, i);
    if verdict == Done {
      ReleaseWeight(InsertAll(w, requests), i);
    }
  }

  /** No tick of a database makes the work left heavier, and a helpful one makes it lighter, even
      counting everything that handlers request. */
  lemma RunTickWeight(w: World, i: nat, env: Env)
    requires i < |w.open| && HasWork(w.open[i]) && DbInv(w.open[i])
    ensures WorldWeight(RunTick(w, i, env).w) <= WorldWeight(w)
    ensures HelpfulDb(w.open[i], env) ==> WorldWeight(RunTick(w, i, env).w) < WorldWeight(w)
  {
    var v := VisitAt(w, i, env);
    AfterVisitWeight(w, i, env);
    AfterVisitDone(w, i, env);
    ConcludeWeight(AfterVisit(w, i, env), i, v.requests, v.verdict);
  }

  // ----- all databases -----

  lemma RunTickUndisturbed(w: World, i: nat, env: Env, j: nat)
    requires i < |w.open| && HasWork(w.open[i]) && j < |w.open| && j != i
    ensures Undisturbed(w.open[j], RunTick(w, i, env).w.open[j])
  {
    InsertAllUndisturbed(AfterVisit(w, i, env), VisitAt(w, i, env).requests, j);
  }

  lemma HelpfulUndisturbed(before: Db, after: Db, env: Env)
    requires Undisturbed(before, after) && HelpfulDb(before, env)
    ensures HelpfulDb(after, env)
  {
    hide Helpful;
  }

  predicate HelpfulFrom(w: World, i: nat, env: nat -> Env) {
    exists j :: i <= j < |w.open| && HelpfulDb(w.open[j], env(w.open[j].id))
  }

  lemma RunTickKeepsHelpful(w: World, i: nat, env: nat -> Env)
    requires i < |w.open| && HasWork(w.open[i]) && HelpfulFrom(w, i, env)
    ensures HelpfulDb(w.open[i], env(w.open[i].id)) || HelpfulFrom(RunTick(w, i, env(w.open[i].id)).w, i + 1, env)
  {
    var j :| i <= j < |w.open| && HelpfulDb(w.open[j], env(w.open[j].id));
    if j != i {
      var after := RunTick(w, i, env(w.open[i].id)).w;
      RunTickUndisturbed(w, i, env(w.open[i].id), j);
      HelpfulUndisturbed(w.open[j], after.open[j], env(w.open[j].id));
      assert HelpfulDb(after.open[j], env(after.open[j].id));
    }
  }

  lemma EraseKeepsHelpful(w: World, i: nat, env: nat -> Env)
    requires i < |w.open| && !HasWork(w.open[i]) && HelpfulFrom(w, i, env)
    ensures HelpfulFrom(w, i + 1, env) && HelpfulFrom(Erase(w, i), i, env)
  {
    var j :| i <= j < |w.open| && HelpfulDb(w.open[j], env(w.open[j].id));
    assert Erase(w, i).open[j - 1] == w.open[j];
  }

  lemma EraseWeight(w: World, i: nat)
    requires i < |w.open| && !HasWork(w.open[i])
    ensures WorldWeight(Erase(w, i)) == WorldWeight(w)
  {
    SumSplit(DbWeight, w.open, i);
    SumAppend(DbWeight, w.open[..i], w.open[i + 1..]);
    assert Work(w.open[i]) == [];
  }

  /** One `TickHookTick` never adds to the work left, and takes some away if some action could take a
      step, unless a callback throws. */
  lemma {:induction false} TickFromWeight(w: World, i: nat, env: nat -> Env, unready: bool)
    requires Inv(w) && i <= |w.open|
    ensures var r := TickFrom(w, i, env, unready);
            && WorldWeight(r.w) <= WorldWeight(w)
            && (HelpfulFrom(w, i, env) && !r.threw ==> WorldWeight(r.w) < WorldWeight(w))
    decreases |w.open| - i
  {
    hide Inv, RunTick, WorldWeight, HelpfulDb, DbInv;
    if i == |w.open| {
    } else if HasWork(w.open[i]) {
      var e := env(w.open[i].id);
      var t := RunTick(w, i, e);
      InvOf(w, i);
      RunTickWeight(w, i, e);
      RunTickKeepsInv(w, i, e);
      if HelpfulFrom(w, i, env) {
        RunTickKeepsHelpful(w, i, env);
      }
      if !t.threw {
        TickFromWeight(t.w, i + 1, env, true);
      }
    } else {
      if HelpfulFrom(w, i, env) {
        EraseKeepsHelpful(w, i, env);
      }
      if w.open[i].gced {
        EraseKeepsInv(w, i);
        EraseWeight(w, i);
        TickFromWeight(Erase(w, i), i, env, unready);
      } else {
        TickFromWeight(w, i + 1, env, unready);
      }
    }
  }

  // ----- consecutive ticks -----

  function TickAll(w: World, envs: seq<nat -> Env>): World
    decreases |envs|
  {
    if envs == [] then w else TickAll(TickHookTick(w, envs[0]).w, envs[1..])
  }

  /** Ticks that find work, without a callback throwing. */
  predicate AllBusy(w: World, envs: seq<nat -> Env>)
    decreases |envs|
  {
    envs == []
    || var t := TickHookTick(w, envs[0]); t.unready && !t.threw && AllBusy(t.w, envs[1..])
  }

  /** Ticks at which the environment lets no action take a step. */
  ghost function Stalls(w: World, envs: seq<nat -> Env>): nat
    decreases |envs|
  {
    if envs == [] then 0
    else (if HelpfulFrom(w, 0, envs[0]) then 0 else 1) + Stalls(TickHookTick(w, envs[0]).w, envs[1..])
  }

  /** However many ticks in a row find work, their number is bounded by the weight of the work at the
      beginning and the number of stalled ticks among them: if every operation suspends finitely
      often and every wait ends, the drain ends. */
  lemma {:induction false} DrainBound(w: World, envs: seq<nat -> Env>)
    requires Inv(w) && AllBusy(w, envs)
    ensures |envs| + WorldWeight(TickAll(w, envs)) <= WorldWeight(w) + Stalls(w, envs)
    decreases |envs|
  {
    if envs != [] {
      TickFromWeight(w, 0, envs[0], false);
      TickFromKeepsInv(w, 0, envs[0], false);
      DrainBound(TickHookTick(w, envs[0]).w, envs[1..]);
    }
  }

  // ----- when a tick reports work -----

  lemma UnreadyStays(w: World, i: nat, env: nat -> Env)
    requires i < |w.open| && HasWork(w.open[i])
    ensures TickFrom(w, i, env, false).unready
  {
    hide RunTick;
    var t := RunTick(w, i, env(w.open[i].id));
    if !t.threw {
      UnreadyRemains(t.w, i + 1, env);
    }
  }

  lemma {:induction false} UnreadyRemains(w: World, i: nat, env: nat -> Env)
    requires i <= |w.open|
    ensures TickFrom(w, i, env, true).unready
    decreases |w.open| - i
  {
    hide RunTick;
    if i < |w.open| {
      if HasWork(w.open[i]) {
        var t := RunTick(w, i, env(w.open[i].id));
        if !t.threw {
          UnreadyRemains(t.w, i + 1, env);
        }
      } else if w.open[i].gced {
        UnreadyRemains(Erase(w, i), i, env);
      } else {
        UnreadyRemains(w, i + 1, env);
      }
    }
  }

  /** A tick reports work only if some database had work when it began. */
  lemma {:induction false} BusyTick(w: World, i: nat, env: nat -> Env)
    requires i <= |w.open| && TickFrom(w, i, env, false).unready
    ensures exists j :: i <= j < |w.open| && HasWork(w.open[j])
    decreases |w.open| - i
  {
    if i < |w.open| && !HasWork(w.open[i]) {
      if w.open[i].gced {
        BusyTick(Erase(w, i), i, env);
        var j :| i <= j < |Erase(w, i).open| && HasWork(Erase(w, i).open[j]);
        assert w.open[j + 1] == Erase(w, i).open[j];
      } else {
        BusyTick(w, i + 1, env);
      }
    }
  }

  /** A tick reports work whenever some database has work when it begins. */
  lemma {:induction false} WorkIsReported(w: World, i: nat, env: nat -> Env, unready: bool, j: nat)
    requires i <= j < |w.open| && HasWork(w.open[j])
    ensures TickFrom(w, i, env, unready).unready
    decreases |w.open| - i
  {
    hide RunTick;
    if HasWork(w.open[i]) {
      var t := RunTick(w, i, env(w.open[i].id));
      if !t.threw {
        UnreadyRemains(t.w, i + 1, env);
      }
    } else if w.open[i].gced {
      assert Erase(w, i).open[j - 1] == w.open[j];
      WorkIsReported(Erase(w, i), i, env, unready, j - 1);
    } else {
      WorkIsReported(w, i + 1, env, unready, j);
    }
  }
}
