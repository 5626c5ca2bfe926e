// Which pending actions will be left by an exception of one of their handlers, told before they run.

module Loudness {
  import opened Types
  import opened SocketStatus
  import opened Connector
  import opened Turns
  import opened Actions
  import opened Jobs
  import opened Scheduler
  import opened Invariants
  import opened Ticks
  import opened Lifting
  import P = Promise

  predicate LoudBody(body: seq<P.Command>)
    decreases body
  {
    body != [] && (LoudCommand(body[0]) || LoudBody(body[1..]))
  }

  /** A request that raises a type error, or whose own handlers will lead to an exception. */
  predicate LoudCommand(c: P.Command)
    decreases c
  {
    c.Enqueue? && (TypeError(c.job.server) || LoudJob(c.job))
  }

  predicate LoudHandler(h: Option<P.Handler>)
    decreases h
  {
    h.Some? && (h.value.throws || LoudBody(h.value.body))
  }

  /** The handler that the outcome of the job selects throws, or requests what will. */
  predicate LoudJob(job: P.Job)
    decreases job
  {
    var s := Expected(job.server);
    s.Some? && LoudHandler(if s.value.success then job.onNext else job.onCatch)
  }

  /** The handler that the action will call throws, or requests what will. */
  predicate LoudAction(a: Action) {
    LoudHandler(Awaited(a.p, a.m.Server()))
  }

  /** Some pending action of some open database will be left by an exception, or request one that will. */
  predicate Loud(open: seq<Db>) {
    exists i, k :: 0 <= i < |open| && 0 <= k < |Work(open[i])| && LoudAction(Work(open[i])[k])
  }

  predicate Calm(a: Action, socket: Flags) {
    !LoudAction(a)
  }

  predicate CalmJob(job: P.Job) {
    !LoudJob(job)
  }

  lemma LoudSomewhere(open: seq<Db>)
    ensures Loud(open) <==> !Everywhere(open, Calm)
  {
    if !Everywhere(open, Calm) {
      var i :| 0 <= i < |open| && !GoodDb(open[i], Calm);
      LoudWork(open[i]);
      var k :| 0 <= k < |Work(open[i])| && LoudAction(Work(open[i])[k]);
    }
    if Everywhere(open, Calm) {
      forall i, k | 0 <= i < |open| && 0 <= k < |Work(open[i])| ensures !LoudAction(Work(open[i])[k]) {
        assert GoodDb(open[i], Calm);
        LoudWork(open[i]);
      }
    }
  }

  lemma LoudWork(db: Db)
    ensures GoodDb(db, Calm) <==> forall k :: 0 <= k < |Work(db)| ==> !LoudAction(Work(db)[k])
  {
    hide LoudAction;
    if forall k :: 0 <= k < |Work(db)| ==> !LoudAction(Work(db)[k]) {
      if db.current.Some? {
        assert Work(db)[0] == db.current.value;
      }
      forall k | 0 <= k < |db.queue| ensures Calm(db.queue[k], 0) {
        assert Work(db)[if db.current.Some? then k + 1 else k] == db.queue[k];
      }
    }
  }

  // ----- one visit -----

  lemma {:induction false} CalmBody(body: seq<P.Command>)
    ensures LoudBody(body) <==> P.BodyThrows(body) || !GoodJobs(Requests(body), CalmJob)
    decreases |body|
  {
    if body != [] {
      CalmBody(body[1..]);
      if body[0].Enqueue? && !P.CommandThrows(body[0]) {
        GoodCons(Requests(body), CalmJob);
        assert Requests(body)[1..] == Requests(body[1..]);
      }
    }
  }

  lemma CalmHandler(h: Option<P.Handler>)
    ensures LoudHandler(h) <==> h.Some? && (P.Throws(h.value) || !GoodJobs(Requests(h.value.body), CalmJob))
  {
    if h.Some? {
      CalmBody(h.value.body);
    }
  }

  lemma CalmStarts()
    ensures Starts(Calm, CalmJob)
  {
    hide Expected;
    forall id: nat, job: P.Job, refs: seq<nat> ensures Calm(NewAction(id, job, refs), 0) <==> CalmJob(job) {
      assert NewAction(id, job, refs).m.Server() == job.server;
    }
  }

  /** A calm action stays calm, throws nothing, and requests calm jobs; only a calm one ends up so. */
  lemma CalmVisit(a: Action, socket: Flags, env: Env)
    requires ActionInv(a, socket)
    ensures var v := VisitAction(a, socket, env);
            Calm(a, socket) <==> v.verdict != Threw && Calm(v.a, v.socket) && GoodJobs(v.requests, CalmJob)
  {
    hide VisitAction, ActionInv, LoudHandler;
    VisitSettles(a, socket, env);
    CalmHandler(Awaited(a.p, a.m.Server()));
    CalmHandler(None);
  }

  lemma FinishedIsCalm(a: Action, socket: Flags)
    requires ActionInv(a, socket) && a.hasFinished
    ensures Calm(a, socket)
  {
  }

  lemma CalmBothWays()
    ensures Forward(Calm, CalmJob) && Backward(Calm, CalmJob)
  {
    hide VisitAction, ActionInv, Calm, GoodJobs;
    forall a: Action, socket: Flags, env: Env | ActionInv(a, socket)
      ensures var v := VisitAction(a, socket, env);
              Calm(a, socket) <==> v.verdict != Threw && Calm(v.a, v.socket) && GoodJobs(v.requests, CalmJob)
    {
      CalmVisit(a, socket, env);
    }
    forall a: Action, socket: Flags | ActionInv(a, socket) && a.hasFinished ensures Calm(a, socket) {
      FinishedIsCalm(a, socket);
    }
  }

  // ----- ticks -----

  lemma CalmRunTick(w: World, i: nat, env: Env)
    requires Inv(w) && i < |w.open| && HasWork(w.open[i]) && Everywhere(w.open, Calm)
    ensures !RunTick(w, i, env).threw
  {
    hide Inv, DbInv, Calm, VisitAction, Scheduler.Pop, Conclude, GoodJobs, ActionInv;
    InvOf(w, i);
    PopInv(w.open[i]);
    PopGood(w.open[i], Calm);
    var db := Pop(w.open[i]);
    CurrentActionInv(db);
    CalmVisit(db.current.value, db.socket, env);
    var v := VisitAt(w, i, env);
    ConcludeThrows(AfterVisit(w, i, env), i, v.requests, v.verdict);
  }

  lemma {:induction false} CalmTick(w: World, i: nat, env: nat -> Env, unready: bool)
    requires Inv(w) && i <= |w.open| && Everywhere(w.open, Calm)
    ensures !TickFrom(w, i, env, unready).threw
    decreases |w.open| - i
  {
    hide Inv, Everywhere, RunTick, Starts, Forward, Backward;
    if i == |w.open| {
    } else if HasWork(w.open[i]) {
      var e := env(w.open[i].id);
      CalmRunTick(w, i, e);
      CalmStarts();
      CalmBothWays();
      RunTickForward(w, i, e, Calm, CalmJob);
      RunTickKeepsInv(w, i, e);
      CalmTick(RunTick(w, i, e).w, i + 1, env, true);
    } else if w.open[i].gced {
      EraseGood(w, i, Calm);
      EraseKeepsInv(w, i);
      CalmTick(Erase(w, i), i, env, unready);
    } else {
      CalmTick(w, i + 1, env, unready);
    }
  }

  /** Only loud work makes a tick throw; and it stays until it does. */
  lemma LoudTick(w: World, env: nat -> Env)
    requires Inv(w)
    ensures var tick := TickHookTick(w, env);
            && (tick.threw ==> Loud(w.open))
            && (!tick.threw ==> (Loud(tick.w.open) <==> Loud(w.open)))
  {
    hide Inv, Everywhere, TickFrom, Starts, Forward, Backward, Loud;
    CalmStarts();
    CalmBothWays();
    var tick := TickHookTick(w, env);
    LoudSomewhere(w.open);
    LoudSomewhere(tick.w.open);
    if Everywhere(w.open, Calm) {
      CalmTick(w, 0, env, false);
      TickForward(w, 0, env, false, Calm, CalmJob);
    } else if !tick.threw && Everywhere(tick.w.open, Calm) {
      TickBackward(w, 0, env, false, Calm, CalmJob);
    }
  }

  /** The connection's own close calls no handler. */
  lemma CloseIsCalm(a: Action)
    requires IsClose(a)
    ensures !LoudAction(a)
  {
  }
}
