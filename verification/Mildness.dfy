// Runs in which no rejection handler throws: no query is ever interrupted.

module Mildness {
  import opened Types
  import opened SocketStatus
  import opened Turns
  import opened Actions
  import opened Scheduler
  import opened Invariants
  import opened Insertion
  import opened Ticks
  import opened Lifting
  import P = Promise
  import R = Registry

  predicate MildBody(body: seq<P.Command>)
    decreases body
  {
    body == [] || (MildCommand(body[0]) && MildBody(body[1..]))
  }

  predicate MildCommand(c: P.Command)
    decreases c
  {
    c.Enqueue? ==> MildJob(c.job)
  }

  predicate MildHandler(h: Option<P.Handler>)
    decreases h, 0
  {
    h.Some? ==> MildBody(h.value.body)
  }

  /** A rejection handler that does not throw. */
  predicate MildCatch(h: Option<P.Handler>)
    decreases h, 1
  {
    MildHandler(h) && (h.Some? ==> !P.Throws(h.value))
  }

  /** No rejection handler in the tree throws. */
  predicate MildJob(job: P.Job)
    decreases job
  {
    MildHandler(job.onNext) && MildCatch(job.onCatch)
  }

  predicate MildPromise(p: P.State) {
    p.finished || (MildHandler(p.next) && MildCatch(p.catch_))
  }

  predicate Mild(a: Action, socket: Flags) {
    MildPromise(a.p)
  }

  lemma {:induction false} MildRequests(body: seq<P.Command>)
    requires MildBody(body)
    ensures GoodJobs(Requests(body), MildJob)
    decreases |body|
  {
    if body != [] {
      MildRequests(body[1..]);
      if Requests(body) != [] {
        GoodCons(Requests(body), MildJob);
      }
      if body[0].Enqueue? && !P.CommandThrows(body[0]) {
        assert Requests(body)[1..] == Requests(body[1..]);
      }
    }
  }

  lemma MildVisit(a: Action, socket: Flags, env: Env)
    requires ActionInv(a, socket) && Mild(a, socket)
    ensures var v := VisitAction(a, socket, env);
            Mild(v.a, v.socket) && GoodJobs(v.requests, MildJob) && !RejectionThrew(v)
  {
    hide VisitAction, MachineInv, MildCatch, Expected, P.Throws;
    VisitSettles(a, socket, env);
    var h := Awaited(a.p, a.m.Server());
    if h.Some? {
      assert MildHandler(h) by { CatchIsHandler(a.p.catch_); }
      MildRequests(h.value.body);
    }
    if RejectionThrew(VisitAction(a, socket, env)) {
      ThrowsComeFromHandlers(a, socket, env);
      CatchIsHandler(a.p.catch_);
    }
  }

  lemma CatchIsHandler(h: Option<P.Handler>)
    requires MildCatch(h)
    ensures MildHandler(h) && (h.Some? ==> !P.Throws(h.value))
  {
  }

  lemma MildGoesOn()
    ensures Starts(Mild, MildJob) && Forward(Mild, MildJob)
  {
    hide VisitAction, ActionInv, MildHandler, MildCatch, GoodJobs;
    forall a: Action, socket: Flags, env: Env | ActionInv(a, socket) && Mild(a, socket)
      ensures var v := VisitAction(a, socket, env); Mild(v.a, v.socket) && GoodJobs(v.requests, MildJob)
    {
      MildVisit(a, socket, env);
    }
  }

  // ----- interruptions -----

  /** No query of any open database has been interrupted. */
  predicate Uninterrupted(open: seq<Db>) {
    forall i :: 0 <= i < |open| ==> open[i].interruptions == 0
  }

  lemma InsertAllUninterrupted(w: World, requests: seq<P.Request>)
    requires Uninterrupted(w.open)
    ensures Uninterrupted(InsertAll(w, requests).open)
  {
    forall i | 0 <= i < |w.open| ensures InsertAll(w, requests).open[i].interruptions == 0 {
      InsertAllUndisturbed(w, requests, i);
    }
  }

  lemma RunTickUninterrupted(w: World, i: nat, env: Env)
    requires Inv(w) && i < |w.open| && HasWork(w.open[i]) && Everywhere(w.open, Mild) && Uninterrupted(w.open)
    ensures Uninterrupted(RunTick(w, i, env).w.open)
  {
    hide Inv, DbInv, VisitAction, Mild, ActionInv, AfterFinish;
    InvOf(w, i);
    PopInv(w.open[i]);
    PopGood(w.open[i], Mild);
    var db := Pop(w.open[i]);
    CurrentActionInv(db);
    MildVisit(db.current.value, db.socket, env);
    InsertAllUninterrupted(AfterVisit(w, i, env), VisitAt(w, i, env).requests);
  }

  lemma {:induction false} MildTick(w: World, i: nat, env: nat -> Env, unready: bool)
    requires Inv(w) && i <= |w.open| && Everywhere(w.open, Mild) && Uninterrupted(w.open)
    ensures Uninterrupted(TickFrom(w, i, env, unready).w.open)
    decreases |w.open| - i
  {
    hide Inv, Everywhere, RunTick, Starts, Forward;
    if i == |w.open| {
    } else if HasWork(w.open[i]) {
      var e := env(w.open[i].id);
      RunTickUninterrupted(w, i, e);
      MildGoesOn();
      RunTickForward(w, i, e, Mild, MildJob);
      RunTickKeepsInv(w, i, e);
      if !RunTick(w, i, e).threw {
        MildTick(RunTick(w, i, e).w, i + 1, env, true);
      }
    } else if w.open[i].gced {
      EraseGood(w, i, Mild);
      EraseKeepsInv(w, i);
      MildTick(Erase(w, i), i, env, unready);
    } else {
      MildTick(w, i + 1, env, unready);
    }
  }

  // ----- runs -----

  /** The event registers no rejection handler that throws. */
  predicate MildEvent(event: Event) {
    match event
    case Submit(_, job) => MildJob(job)
    case Chain(_, _, c) => (c.Next? ==> MildHandler(c.h)) && (c.Catch? ==> MildCatch(c.h))
    case _ => true
  }

  lemma ChainEffect(p: P.State, c: P.Command)
    requires P.Quiescent(p) && MildPromise(p) && (c.Next? || c.Catch?)
    requires (c.Next? ==> MildHandler(c.h)) && (c.Catch? ==> MildCatch(c.h))
    ensures MildPromise(P.Apply(p, c).p) && GoodJobs(P.Apply(p, c).requests, MildJob)
  {
    P.UseKeepsQuiescent(p, c);
    var armed := if c.Next? then p.(next := c.h) else p.(catch_ := c.h);
    assert P.Apply(p, c) == P.Try(armed);
    if !p.finished && p.result.Some? && P.Matching(armed, p.result.value.success).Some? {
      P.FiredBodyIsInert(armed.(finished := true), c.h.value.body);
      FiredRequests(armed.(finished := true), c.h.value.body);
      MildRequests(c.h.value.body);
    }
  }

  lemma {:induction false} MildInsertAll(w: World, requests: seq<P.Request>)
    requires Everywhere(w.open, Mild) && GoodJobs(requests, MildJob)
    ensures Everywhere(InsertAll(w, requests).open, Mild)
    decreases |requests|
  {
    hide InsertAt, Everywhere, Starts, Mild, MildJob;
    if requests != [] {
      var i := IndexOf(w.open, requests[0].db);
      GoodCons(requests, MildJob);
      if i < |w.open| {
        MildGoesOn();
        InsertAtGood(w, i, requests[0].job, Mild, MildJob);
      }
      MildInsertAll(Insert(w, requests[0].db, requests[0].job), requests[1..]);
    }
  }

  lemma ChainedMild(db: Db, k: nat, p: P.State)
    requires GoodDb(db, Mild) && k < |Work(db)|
    ensures MildPromise(Work(db)[k].p)
    ensures MildPromise(p) ==> GoodDb(WithPromise(db, k, p), Mild)
  {
    hide MildPromise;
  }

  lemma MildChain(w: World, i: nat, k: nat, c: P.Command)
    requires i < |w.open| && k < |Work(w.open[i])| && DbInv(w.open[i])
    requires Everywhere(w.open, Mild) && Uninterrupted(w.open)
    requires (c.Next? || c.Catch?) && MildEvent(Chain(w.open[i].id, k, c))
    ensures Everywhere(ChainAt(w, i, k, c).open, Mild) && Uninterrupted(ChainAt(w, i, k, c).open)
  {
    hide DbInv, Mild, MildPromise, GoodDb, Everywhere, GoodJobs, Work, WithPromise, P.Apply;
    var db := w.open[i];
    assert GoodDb(db, Mild) by { EverywhereAt(w.open, i); }
    PendingQuiescent(db, k);
    var r := P.Apply(Work(db)[k].p, c);
    ChainedMild(db, k, r.p);
    ChainEffect(Work(db)[k].p, c);
    UpdateGood(w.open, i, WithPromise(db, k, r.p), Mild);
    var w1 := w.(open := w.open[i := WithPromise(db, k, r.p)]);
    MildInsertAll(w1, r.requests);
    assert Uninterrupted(w1.open) by { ChainedUninterrupted(db, k, r.p); }
    InsertAllUninterrupted(w1, r.requests);
  }

  lemma EverywhereAt(open: seq<Db>, i: nat)
    requires Everywhere(open, Mild) && i < |open|
    ensures GoodDb(open[i], Mild)
  {
  }

  lemma ChainedUninterrupted(db: Db, k: nat, p: P.State)
    requires k < |Work(db)|
    ensures WithPromise(db, k, p).interruptions == db.interruptions
  {
  }

  lemma MildCollect(w: World, i: nat, waits: seq<Wait>)
    requires i < |w.open| && Everywhere(w.open, Mild) && Uninterrupted(w.open)
    ensures Everywhere(CollectAt(w, i, waits).open, Mild) && Uninterrupted(CollectAt(w, i, waits).open)
  {
    var db := w.open[i];
    var orphan := db.(reference := None, gced := true);
    var (_, a) := CreateAction(w.(reg := UnrefOptional(w.reg, db.reference)), CloseJob(waits));
    assert GoodDb(PushBack(orphan, a), Mild);
    UpdateGood(w.open, i, PushBack(orphan, a), Mild);
  }

  lemma MildOpen(w: World)
    requires Everywhere(w.open, Mild) && Uninterrupted(w.open)
    ensures Everywhere(OpenDatabase(w).open, Mild) && Uninterrupted(OpenDatabase(w).open)
  {
    hide Mild, R.Ref;
  }

  lemma MildSubmit(w: World, i: nat, job: P.Job)
    requires i < |w.open| && Everywhere(w.open, Mild) && Uninterrupted(w.open) && MildJob(job)
    ensures Everywhere(InsertAt(w, i, job).open, Mild) && Uninterrupted(InsertAt(w, i, job).open)
  {
    hide Mild, Everywhere, MildJob, Starts, Forward;
    MildGoesOn();
    InsertAtGood(w, i, job, Mild, MildJob);
  }

  lemma MildStep(w: World, event: Event)
    requires Inv(w) && Enabled(w, event) && MildEvent(event)
    requires Everywhere(w.open, Mild) && Uninterrupted(w.open)
    ensures Everywhere(Step(w, event).open, Mild) && Uninterrupted(Step(w, event).open)
  {
    hide Inv, Everywhere, Uninterrupted, InsertAt, TickFrom, ChainAt, CollectAt, OpenDatabase, Starts, Forward;
    match event
    case Open => MildOpen(w);
    case Submit(db, job) =>
      InvAscending(w);
      IndexOfLive(w.open, db);
      MildSubmit(w, IndexOf(w.open, db), job);
    case Chain(db, k, c) =>
      InvOf(w, IndexOf(w.open, db));
      MildChain(w, IndexOf(w.open, db), k, c);
    case Collect(db, waits) => MildCollect(w, IndexOf(w.open, db), waits);
    case Tick(env) =>
      MildGoesOn();
      TickForward(w, 0, env, false, Mild, MildJob);
      MildTick(w, 0, env, false);
  }

  lemma {:induction false} MildRun(w: World, events: seq<Event>)
    requires Inv(w) && Everywhere(w.open, Mild) && Uninterrupted(w.open) && Possible(w, events)
    requires forall k :: 0 <= k < |events| ==> MildEvent(events[k])
    ensures Uninterrupted(Run(w, events).open)
    decreases |events|
  {
    hide Inv, Step, Enabled, Everywhere, Uninterrupted, MildEvent;
    if events != [] {
      StepKeepsInv(w, events[0]);
      MildStep(w, events[0]);
      MildRun(Step(w, events[0]), events[1..]);
    }
  }
}
