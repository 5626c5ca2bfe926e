// From one visit of one action to a tick of the whole module: properties of pending actions that visits
// carry forward to whatever comes of the action, or trace back from it.

module Lifting {
  import opened SocketStatus
  import opened Connector
  import opened Turns
  import opened Actions
  import opened Jobs
  import opened Scheduler
  import opened Invariants
  import opened Insertion
  import opened Ticks
  import P = Promise

  predicate GoodDb(db: Db, good: (Action, Flags) -> bool) {
    && (db.current.Some? ==> good(db.current.value, db.socket))
    && (forall k :: 0 <= k < |db.queue| ==> good(db.queue[k], 0))
  }

  /** Every pending action of every open database is good. */
  predicate Everywhere(open: seq<Db>, good: (Action, Flags) -> bool) {
    forall i :: 0 <= i < |open| ==> GoodDb(open[i], good)
  }

  predicate GoodJobs(requests: seq<P.Request>, goodJob: P.Job -> bool) {
    forall k :: 0 <= k < |requests| ==> TypeError(requests[k].job.server) || goodJob(requests[k].job)
  }

  /** The actions of good jobs start out good, and only those. */
  ghost predicate Starts(good: (Action, Flags) -> bool, goodJob: P.Job -> bool) {
    forall id: nat, job: P.Job, refs: seq<nat> :: good(NewAction(id, job, refs), 0) <==> goodJob(job)
  }

  /** A good action stays good, and its handlers request good jobs. */
  ghost predicate Forward(good: (Action, Flags) -> bool, goodJob: P.Job -> bool) {
    forall a: Action, socket: Flags, env: Env :: ActionInv(a, socket) && good(a, socket) ==>
      var v := VisitAction(a, socket, env);
      good(v.a, v.socket) && GoodJobs(v.requests, goodJob)
  }

  /** What comes of an action without an exception is good only if the action was; a finished one is. */
  ghost predicate Backward(good: (Action, Flags) -> bool, goodJob: P.Job -> bool) {
    && (forall a: Action, socket: Flags, env: Env :: ActionInv(a, socket) ==>
          var v := VisitAction(a, socket, env);
          v.verdict != Threw && good(v.a, v.socket) && GoodJobs(v.requests, goodJob) ==> good(a, socket))
    && (forall a: Action, socket: Flags :: ActionInv(a, socket) && a.hasFinished ==> good(a, socket))
  }

  lemma UpdateGood(open: seq<Db>, i: nat, db: Db, good: (Action, Flags) -> bool)
    requires i < |open|
    ensures Everywhere(open, good) && GoodDb(db, good) ==> Everywhere(open[i := db], good)
    ensures Everywhere(open[i := db], good) && GoodDb(open[i], good) ==> Everywhere(open, good)
    ensures Everywhere(open[i := db], good) ==> GoodDb(db, good)
  {
    if Everywhere(open[i := db], good) {
      assert open[i := db][i] == db;
      forall j | 0 <= j < |open| && j != i ensures GoodDb(open[j], good) {
        assert open[i := db][j] == open[j];
      }
    }
  }

  // ----- insertion -----

  lemma PushBackGood(db: Db, pinned: Db, a: Action, good: (Action, Flags) -> bool)
    requires pinned == db.(pin := pinned.pin)
    ensures GoodDb(PushBack(pinned, a), good) <==> GoodDb(db, good) && good(a, 0)
  {
    var after := PushBack(pinned, a);
    if GoodDb(after, good) {
      assert after.queue[|db.queue|] == a;
      forall k | 0 <= k < |db.queue| ensures good(db.queue[k], 0) {
        assert after.queue[k] == db.queue[k];
      }
    }
  }

  lemma InsertAtGood(w: World, i: nat, job: P.Job, good: (Action, Flags) -> bool, goodJob: P.Job -> bool)
    requires i < |w.open| && Starts(good, goodJob)
    ensures Everywhere(InsertAt(w, i, job).open, good)
       <==> Everywhere(w.open, good) && (TypeError(job.server) || goodJob(job))
  {
    if !TypeError(job.server) {
      var (w1, a) := CreateAction(w, job);
      var pinned := EnsurePinned(w1.reg, w.open[i]).1;
      PushBackGood(w.open[i], pinned, a, good);
      UpdateGood(w.open, i, PushBack(pinned, a), good);
    }
  }

  lemma {:induction false} InsertAllGood(w: World, requests: seq<P.Request>,
                                         good: (Action, Flags) -> bool, goodJob: P.Job -> bool)
    requires Inv(w) && RequestsTarget(requests, Live(w.open)) && Starts(good, goodJob)
    ensures Everywhere(InsertAll(w, requests).open, good)
       <==> Everywhere(w.open, good) && GoodJobs(requests, goodJob)
    decreases |requests|
  {
    hide Inv, Starts, Everywhere, InsertAt, JobTargets;
    if requests != [] {
      var w1 := Insert(w, requests[0].db, requests[0].job);
      InvAscending(w);
      IndexOfLive(w.open, requests[0].db);
      InsertAtGood(w, IndexOf(w.open, requests[0].db), requests[0].job, good, goodJob);
      InsertKeepsInv(w, requests[0].db, requests[0].job);
      InsertAllGood(w1, requests[1..], good, goodJob);
      GoodCons(requests, goodJob);
    }
  }

  lemma GoodCons(requests: seq<P.Request>, goodJob: P.Job -> bool)
    requires requests != []
    ensures GoodJobs(requests, goodJob)
       <==> (TypeError(requests[0].job.server) || goodJob(requests[0].job)) && GoodJobs(requests[1..], goodJob)
  {
    if GoodJobs(requests[1..], goodJob) && (TypeError(requests[0].job.server) || goodJob(requests[0].job)) {
      forall k | 0 <= k < |requests| ensures TypeError(requests[k].job.server) || goodJob(requests[k].job) {
        assert k > 0 ==> requests[1..][k - 1] == requests[k];
      }
    }
  }

  // ----- one tick of one database -----

  lemma PopGood(db: Db, good: (Action, Flags) -> bool)
    requires DbInv(db)
    ensures GoodDb(Pop(db), good) <==> GoodDb(db, good)
  {
    hide Ordered, SettledAsExpected, FinishedOnce, Disciplined, Lifetime, ActionInv, Fresh;
    if db.current.None? && db.queue != [] && GoodDb(Pop(db), good) {
      forall k | 0 <= k < |db.queue| ensures good(db.queue[k], 0) {
        assert k > 0 ==> db.queue[1..][k - 1] == db.queue[k];
      }
    }
  }

  lemma CurrentActionInv(db: Db)
    requires DbInv(db) && db.current.Some?
    ensures ActionInv(db.current.value, db.socket)
  {
  }

  lemma VisitForward(a: Action, socket: Flags, env: Env, good: (Action, Flags) -> bool, goodJob: P.Job -> bool)
    requires Forward(good, goodJob) && ActionInv(a, socket) && good(a, socket)
    ensures var v := VisitAction(a, socket, env); good(v.a, v.socket) && GoodJobs(v.requests, goodJob)
  {
  }

  lemma VisitBackward(a: Action, socket: Flags, env: Env, good: (Action, Flags) -> bool, goodJob: P.Job -> bool)
    requires Backward(good, goodJob) && ActionInv(a, socket)
    ensures var v := VisitAction(a, socket, env);
            v.verdict != Threw && good(v.a, v.socket) && GoodJobs(v.requests, goodJob) ==> good(a, socket)
  {
  }

  lemma AfterVisitForward(w: World, i: nat, env: Env, good: (Action, Flags) -> bool, goodJob: P.Job -> bool)
    requires Forward(good, goodJob) && Everywhere(w.open, good)
    requires i < |w.open| && HasWork(w.open[i]) && DbInv(w.open[i])
    ensures |AfterVisit(w, i, env).open| == |w.open|
    ensures Everywhere(AfterVisit(w, i, env).open, good) && GoodJobs(VisitAt(w, i, env).requests, goodJob)
  {
    hide Forward, VisitAction, DbInv, ActionInv, GoodJobs;
    PopInv(w.open[i]);
    PopGood(w.open[i], good);
    var db := Pop(w.open[i]);
    CurrentActionInv(db);
    VisitForward(db.current.value, db.socket, env, good, goodJob);
    UpdateGood(w.open, i, Visited(db, VisitAt(w, i, env)), good);
  }

  lemma AfterVisitBackward(w: World, i: nat, env: Env, good: (Action, Flags) -> bool, goodJob: P.Job -> bool)
    requires Backward(good, goodJob) && i < |w.open| && HasWork(w.open[i]) && DbInv(w.open[i])
    requires Everywhere(AfterVisit(w, i, env).open, good) && GoodJobs(VisitAt(w, i, env).requests, goodJob)
    requires VisitAt(w, i, env).verdict != Threw
    ensures Everywhere(w.open, good)
  {
    hide Backward, VisitAction, DbInv, ActionInv, GoodJobs, Everywhere, Scheduler.Pop;
    PopInv(w.open[i]);
    PopGood(w.open[i], good);
    var db := Pop(w.open[i]);
    CurrentActionInv(db);
    VisitBackward(db.current.value, db.socket, env, good, goodJob);
    UpdateGood(w.open, i, Visited(db, VisitAt(w, i, env)), good);
    assert GoodDb(Visited(db, VisitAt(w, i, env)), good);
    assert GoodDb(db, good);
  }

  lemma ReleaseForward(w: World, i: nat, good: (Action, Flags) -> bool)
    requires i < |w.open| && w.open[i].current.Some? && Everywhere(w.open, good)
    ensures Everywhere(Release(w, i).open, good)
  {
    UpdateGood(w.open, i, Released(w.open[i]), good);
  }

  lemma ReleaseBackward(w: World, i: nat, good: (Action, Flags) -> bool, goodJob: P.Job -> bool)
    requires Backward(good, goodJob) && i < |w.open| && DbInv(w.open[i])
    requires w.open[i].current.Some? && w.open[i].current.value.hasFinished && Everywhere(Release(w, i).open, good)
    ensures Everywhere(w.open, good)
  {
    hide DbInv, ActionInv;
    CurrentActionInv(w.open[i]);
    UpdateGood(w.open, i, Released(w.open[i]), good);
  }

  lemma ConcludeForward(w: World, i: nat, requests: seq<P.Request>, verdict: Verdict,
                        good: (Action, Flags) -> bool, goodJob: P.Job -> bool)
    requires Starts(good, goodJob) && Inv(w) && i < |w.open| && RequestsTarget(requests, Live(w.open))
    requires Everywhere(w.open, good) && GoodJobs(requests, goodJob)
    ensures Everywhere(Conclude(w, i, requests, verdict).w.open, good)
  {
    hide Starts, Inv, Everywhere, GoodJobs, RequestsTarget, Release;
    InsertAllGood(w, requests, good, goodJob);
    var w1 := InsertAll(w, requests);
    if verdict == Done && w1.open[i].current.Some? {
      ReleaseForward(w1, i, good);
    }
  }

  lemma ConcludeBackward(w: World, i: nat, requests: seq<P.Request>, verdict: Verdict,
                         good: (Action, Flags) -> bool, goodJob: P.Job -> bool)
    requires Starts(good, goodJob) && Backward(good, goodJob)
    requires Inv(w) && i < |w.open| && RequestsTarget(requests, Live(w.open))
    requires verdict == Done ==> w.open[i].current.Some? && w.open[i].current.value.hasFinished
    requires Everywhere(Conclude(w, i, requests, verdict).w.open, good)
    ensures Everywhere(w.open, good) && GoodJobs(requests, goodJob)
  {
    hide Starts, Backward, Inv, Everywhere, GoodJobs, RequestsTarget, Release, DbInv;
    InsertAllGood(w, requests, good, goodJob);
    InsertAllKeepsInv(w, requests);
    InsertAllUndisturbed(w, requests, i);
    var w1 := InsertAll(w, requests);
    if verdict == Done {
      InvOf(w1, i);
      ReleaseBackward(w1, i, good, goodJob);
    }
  }

  lemma RunTickForward(w: World, i: nat, env: Env, good: (Action, Flags) -> bool, goodJob: P.Job -> bool)
    requires Starts(good, goodJob) && Forward(good, goodJob)
    requires Inv(w) && i < |w.open| && HasWork(w.open[i]) && Everywhere(w.open, good)
    ensures Everywhere(RunTick(w, i, env).w.open, good)
  {
    hide Starts, Forward, Inv, Everywhere, DbInv, VisitAt, AfterVisit, Conclude, GoodJobs, RequestsTarget;
    InvOf(w, i);
    AfterVisitForward(w, i, env, good, goodJob);
    AfterVisitKeepsInv(w, i, env);
    var v := VisitAt(w, i, env);
    ConcludeForward(AfterVisit(w, i, env), i, v.requests, v.verdict, good, goodJob);
  }

  lemma RunTickBackward(w: World, i: nat, env: Env, good: (Action, Flags) -> bool, goodJob: P.Job -> bool)
    requires Starts(good, goodJob) && Backward(good, goodJob)
    requires Inv(w) && i < |w.open| && HasWork(w.open[i])
    requires !RunTick(w, i, env).threw && Everywhere(RunTick(w, i, env).w.open, good)
    ensures Everywhere(w.open, good)
  {
    hide Starts, Backward, Inv, Everywhere, DbInv, VisitAt, AfterVisit, GoodJobs, RequestsTarget;
    InvOf(w, i);
    AfterVisitKeepsInv(w, i, env);
    AfterVisitDone(w, i, env);
    var v := VisitAt(w, i, env);
    ConcludeThrows(AfterVisit(w, i, env), i, v.requests, v.verdict);
    ConcludeBackward(AfterVisit(w, i, env), i, v.requests, v.verdict, good, goodJob);
    AfterVisitBackward(w, i, env, good, goodJob);
  }

  lemma ConcludeThrows(w: World, i: nat, requests: seq<P.Request>, verdict: Verdict)
    requires i < |w.open|
    ensures Conclude(w, i, requests, verdict).threw ==> verdict == Threw
    ensures verdict == Threw ==> Conclude(w, i, requests, verdict).threw
  {
  }

  // ----- one tick of all -----

  lemma EraseGood(w: World, i: nat, good: (Action, Flags) -> bool)
    requires i < |w.open| && !HasWork(w.open[i])
    ensures Everywhere(Erase(w, i).open, good) <==> Everywhere(w.open, good)
  {
    var after := Erase(w, i).open;
    if Everywhere(after, good) {
      forall j | 0 <= j < |w.open| ensures GoodDb(w.open[j], good) {
        if j != i {
          assert after[if j < i then j else j - 1] == w.open[j];
        }
      }
    }
  }

  lemma {:induction false} TickForward(w: World, i: nat, env: nat -> Env, unready: bool,
                                       good: (Action, Flags) -> bool, goodJob: P.Job -> bool)
    requires Starts(good, goodJob) && Forward(good, goodJob)
    requires Inv(w) && i <= |w.open| && Everywhere(w.open, good)
    ensures Everywhere(TickFrom(w, i, env, unready).w.open, good)
    decreases |w.open| - i
  {
    hide Starts, Forward, Inv, Everywhere, RunTick;
    if i == |w.open| {
    } else if HasWork(w.open[i]) {
      var t := RunTick(w, i, env(w.open[i].id));
      RunTickForward(w, i, env(w.open[i].id), good, goodJob);
      RunTickKeepsInv(w, i, env(w.open[i].id));
      if !t.threw {
        TickForward(t.w, i + 1, env, true, good, goodJob);
      }
    } else if w.open[i].gced {
      EraseGood(w, i, good);
      EraseKeepsInv(w, i);
      TickForward(Erase(w, i), i, env, unready, good, goodJob);
    } else {
      TickForward(w, i + 1, env, unready, good, goodJob);
    }
  }

  lemma {:induction false} TickBackward(w: World, i: nat, env: nat -> Env, unready: bool,
                                        good: (Action, Flags) -> bool, goodJob: P.Job -> bool)
    requires Starts(good, goodJob) && Backward(good, goodJob) && Inv(w) && i <= |w.open|
    requires !TickFrom(w, i, env, unready).threw && Everywhere(TickFrom(w, i, env, unready).w.open, good)
    ensures Everywhere(w.open, good)
    decreases |w.open| - i
  {
    hide Starts, Backward, Inv, Everywhere, RunTick;
    if i == |w.open| {
    } else if HasWork(w.open[i]) {
      var t := RunTick(w, i, env(w.open[i].id));
      RunTickKeepsInv(w, i, env(w.open[i].id));
      TickBackward(t.w, i + 1, env, true, good, goodJob);
      RunTickBackward(w, i, env(w.open[i].id), good, goodJob);
    } else if w.open[i].gced {
      EraseKeepsInv(w, i);
      TickBackward(Erase(w, i), i, env, unready, good, goodJob);
      EraseGood(w, i, good);
    } else {
      TickBackward(w, i + 1, env, unready, good, goodJob);
    }
  }
}
