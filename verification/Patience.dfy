// Which pending work can end: no wait on its way is for a timeout alone, and no action waits for a worker
// that was never spawned.

module Patience {
  import opened Types
  import opened SocketStatus
  import opened Connector
  import opened Turns
  import opened Actions
  import opened Jobs
  import opened Scheduler
  import opened Invariants
  import opened Ticks
  import opened Drain
  import opened Lifting
  import opened Loudness
  import P = Promise
  import Q = QueryMachine
  import E = ExecuteMachine

  // ----- trees of jobs -----

  /** The operation itself meets no wait for a timeout alone, where the socket is looked at. */
  predicate PatientServer(server: Server) {
    match server
    case ForAsync(a) => AllWakeable(a.waits)
    case ForQuery(q) => AllWakeable(Q.WaitsOfQuery(q, false))
    case ForExecute(e) => E.LooksAtSocket(e) ==> AllWakeable(e.freeWaits)
  }

  predicate PatientBody(body: seq<P.Command>)
    decreases body
  {
    body == [] || (PatientCommand(body[0]) && PatientBody(body[1..]))
  }

  predicate PatientCommand(c: P.Command)
    decreases c
  {
    c.Enqueue? ==> PatientJob(c.job)
  }

  predicate PatientHandler(h: Option<P.Handler>)
    decreases h
  {
    h.Some? ==> PatientBody(h.value.body)
  }

  /** Nor does anything that its handlers will request. */
  predicate PatientJob(job: P.Job)
    decreases job
  {
    var s := Expected(job.server);
    && PatientServer(job.server)
    && (s.Some? ==> PatientHandler(if s.value.success then job.onNext else job.onCatch))
  }

  lemma {:induction false} PatientRequests(body: seq<P.Command>)
    requires !P.BodyThrows(body)
    ensures PatientBody(body) <==> GoodJobs(Requests(body), PatientJob)
    decreases |body|
  {
    if body != [] {
      PatientRequests(body[1..]);
      if body[0].Enqueue? {
        GoodCons(Requests(body), PatientJob);
        assert Requests(body)[1..] == Requests(body[1..]);
      }
    }
  }

  // ----- machines -----

  predicate PatientMachine(m: Machine, socket: Flags) {
    match m
    case AsyncM(a, s) => AllWakeable(if s.started then [socket] + s.waits else a.waits)
    case QueryM(q, s) => AllWakeable(Q.WaitsAhead(q, s, socket, false))
    case ExecuteM(e, s) => E.Unstuck(e, s, socket) && !E.Wedged(e, s)
  }

  /** A turn without an exception changes what is ahead only by what has passed. */
  predicate TurnKeepsPatience(m: Machine, socket: Flags, t: Turn<Machine>) {
    && t.verdict != Threw
    && (t.verdict == Done ==> PatientMachine(m, socket))
    && (t.verdict == Waiting ==> (PatientMachine(t.m, t.socket) <==> PatientMachine(m, socket)))
  }

  lemma PatientAsync(a: AsyncServer, s: AsyncState, socket: Flags, env: Env)
    requires s.started <==> socket != 0
    ensures TurnKeepsPatience(AsyncM(a, s), socket, Query(AsyncM(a, s), socket, env, false))
  {
    hide AllWakeable, Wakeable;
    WakeableExactly(socket);
    AllWakeableAppend([socket], s.waits);
    AllWakeableOne(socket);
    var waits := if s.started then s.waits else a.waits;
    if waits != [] {
      assert [waits[0]] + waits[1..] == waits;
    }
  }

  lemma PatientQuery(q: QueryServer, s: Q.State, socket: Flags, env: Env)
    requires !s.started ==> socket == 0
    ensures TurnKeepsPatience(QueryM(q, s), socket, Query(QueryM(q, s), socket, env, false))
  {
    hide Q.Advance, Q.WaitsAhead;
    Q.QueryWaits(q, s, socket, env.ready, false);
  }

  lemma PatientExecute(e: ExecuteServer, s: E.State, socket: Flags, env: Env, result: Option<Settlement>)
    requires E.Inv(e, s, socket, result)
    ensures TurnKeepsPatience(ExecuteM(e, s), socket, Query(ExecuteM(e, s), socket, env, false))
  {
    hide E.Unstuck;
    E.WorkerStepsKeepInv(e, s, socket, result, env.before);
    E.WorkerKeepsPhase(e, s, env.before);
    var s1 := E.WorkerSteps(e, s, env.before);
    UnstuckSteps(e, s, socket, env.before);
    E.ExecuteWaits(e, s1, socket, env.ready, env.burst, false, result);
    E.AdvanceCalls(e, s1, socket, env.ready, env.burst);
  }

  lemma UnstuckSteps(e: ExecuteServer, s: E.State, socket: Flags, n: nat)
    ensures E.Unstuck(e, E.WorkerSteps(e, s, n), socket) == E.Unstuck(e, s, socket)
  {
    E.WorkerKeepsPhase(e, s, n);
  }

  lemma PatientTurn(m: Machine, socket: Flags, env: Env, result: Option<Settlement>)
    requires MachineInv(m, socket, result)
    ensures TurnKeepsPatience(m, socket, Query(m, socket, env, false))
  {
    hide TurnKeepsPatience, Actions.Query;
    match m
    case AsyncM(a, s) => PatientAsync(a, s, socket, env);
    case QueryM(q, s) => PatientQuery(q, s, socket, env);
    case ExecuteM(e, s) => PatientExecute(e, s, socket, env, result);
  }

  // ----- actions -----

  /** The action can end, and so can everything that the handler it will call requests. */
  predicate Patient(a: Action, socket: Flags) {
    && (!a.hasFinished ==> PatientMachine(a.m, socket))
    && PatientHandler(Awaited(a.p, a.m.Server()))
  }

  /** Work that leads to no exception, and that a fair environment brings to its end. */
  predicate Tame(a: Action, socket: Flags) {
    Calm(a, socket) && Patient(a, socket)
  }

  predicate TameJob(job: P.Job) {
    CalmJob(job) && PatientJob(job)
  }

  lemma VisitOfTurn(a: Action, socket: Flags, env: Env)
    requires !a.hasFinished && VisitAction(a, socket, env).verdict != Threw
    ensures var v := VisitAction(a, socket, env);
            var t := Query(a.m, socket, env, false);
            && v.a.hasFinished == (t.verdict == Done)
            && v.a.m == t.m && v.socket == t.socket
  {
    hide Query, SettleWith, FinishWith;
    RejectEndsTurn(a.m, socket, env, RejectThrows(a.p));
  }

  lemma PatientVisit(a: Action, socket: Flags, env: Env)
    requires ActionInv(a, socket) && VisitAction(a, socket, env).verdict != Threw
    ensures var v := VisitAction(a, socket, env);
            Patient(a, socket) <==> Patient(v.a, v.socket) && GoodJobs(v.requests, PatientJob)
  {
    hide VisitAction, PatientMachine, MachineInv, Query, Awaited;
    var v := VisitAction(a, socket, env);
    VisitSettles(a, socket, env);
    VisitKeepsInv(a, socket, env);
    assert v.a.p == a.p || Awaited(v.a.p, v.a.m.Server()) == None by {
      SettledAwaitsNothing(v.a);
    }
    var h := Awaited(a.p, a.m.Server());
    if v.a.p.result != a.p.result && h.Some? {
      PatientRequests(h.value.body);
    }
    if !a.hasFinished {
      VisitOfTurn(a, socket, env);
      PatientTurn(a.m, socket, env, a.p.result);
    }
  }

  lemma SettledAwaitsNothing(a: Action)
    ensures a.p.result.Some? ==> Awaited(a.p, a.m.Server()) == None
  {
  }

  /** Tame work stays tame, throws nothing and requests tame work; and only tame work ends up so. */
  lemma TameVisit(a: Action, socket: Flags, env: Env)
    requires ActionInv(a, socket)
    ensures var v := VisitAction(a, socket, env);
            Tame(a, socket) <==> v.verdict != Threw && Tame(v.a, v.socket) && GoodJobs(v.requests, TameJob)
  {
    hide VisitAction, ActionInv, Calm, Patient;
    CalmVisit(a, socket, env);
    if VisitAction(a, socket, env).verdict != Threw {
      PatientVisit(a, socket, env);
    }
  }

  lemma TameStarts()
    ensures Starts(Tame, TameJob)
  {
    hide Expected, Calm, CalmJob, PatientHandler;
    CalmStarts();
    forall id: nat, job: P.Job, refs: seq<nat> ensures Patient(NewAction(id, job, refs), 0) <==> PatientJob(job) {
      PatientStart(id, job, refs);
    }
  }

  lemma PatientStart(id: nat, job: P.Job, refs: seq<nat>)
    ensures Patient(NewAction(id, job, refs), 0) <==> PatientJob(job)
  {
    hide Expected;
    var a := NewAction(id, job, refs);
    assert a.m.Server() == job.server;
    assert PatientMachine(a.m, 0) <==> PatientServer(job.server) by {
      PatientInit(job.server);
    }
  }

  lemma PatientInit(server: Server)
    ensures PatientMachine(Init(server), 0) <==> PatientServer(server)
  {
  }

  lemma FinishedIsTame(a: Action, socket: Flags)
    requires ActionInv(a, socket) && a.hasFinished
    ensures Tame(a, socket)
  {
  }

  lemma TameBothWays()
    ensures Forward(Tame, TameJob) && Backward(Tame, TameJob)
  {
    hide VisitAction, ActionInv, Tame, GoodJobs;
    forall a: Action, socket: Flags, env: Env | ActionInv(a, socket)
      ensures var v := VisitAction(a, socket, env);
              Tame(a, socket) <==> v.verdict != Threw && Tame(v.a, v.socket) && GoodJobs(v.requests, TameJob)
    {
      TameVisit(a, socket, env);
    }
    forall a: Action, socket: Flags | ActionInv(a, socket) && a.hasFinished ensures Tame(a, socket) {
      FinishedIsTame(a, socket);
    }
  }

  /** Tame work everywhere: nothing loud, and all of it patient. */
  lemma TameExactly(open: seq<Db>)
    ensures Everywhere(open, Tame) <==> !Loud(open) && Everywhere(open, Patient)
  {
    hide Calm, Patient, Loud;
    LoudSomewhere(open);
    forall i | 0 <= i < |open|
      ensures GoodDb(open[i], Tame) <==> GoodDb(open[i], Calm) && GoodDb(open[i], Patient)
    {
    }
  }

  /** A tick keeps tame work tame; and after a tick without an exception, only what was tame is. */
  lemma TameTick(w: World, env: nat -> Env)
    requires Inv(w)
    ensures var tick := TickHookTick(w, env);
            Everywhere(w.open, Tame) <==> !tick.threw && Everywhere(tick.w.open, Tame)
  {
    hide Inv, Everywhere, TickFrom, Starts, Forward, Backward, Loud;
    TameStarts();
    TameBothWays();
    var tick := TickHookTick(w, env);
    if Everywhere(w.open, Tame) {
      TickForward(w, 0, env, false, Tame, TameJob);
      TameExactly(w.open);
      LoudTick(w, env);
    } else if !tick.threw && Everywhere(tick.w.open, Tame) {
      TickBackward(w, 0, env, false, Tame, TameJob);
    }
  }

  // ----- environments that bring work to its end -----

  /** A ready socket, and a worker that gets to run. */
  predicate Cooperative(env: Env) {
    env.ready == ALL_READY && env.before != 0
  }

  ghost predicate AllCooperative(env: nat -> Env) {
    forall id: nat :: Cooperative(env(id))
  }

  lemma CooperationHelps(a: Action, socket: Flags, env: Env)
    requires ActionInv(a, socket) && Patient(a, socket) && Cooperative(env)
    ensures Helpful(a, socket, env)
  {
    hide PatientHandler;
    WakeableExactly(socket);
    if !a.hasFinished {
      match a.m
      case AsyncM(b, s) =>
        if s.started {
          assert ([socket] + s.waits)[0] == socket;
        }
      case QueryM(q, s) =>
        if s.started && socket != 0 {
          assert Q.WaitsAhead(q, s, socket, false)[0] == socket;
        }
      case ExecuteM(e, s) =>
        if s.worker.Idle? {
          E.ReadyVisitHelps(e, s, socket, a.p.result);
        }
    }
  }

  /** Whenever there is work, a cooperative environment helps some database along. */
  lemma CooperativeTick(w: World, env: nat -> Env)
    requires Inv(w) && Everywhere(w.open, Tame) && AllCooperative(env) && TickHookTick(w, env).unready
    ensures HelpfulFrom(w, 0, env)
  {
    hide Inv, DbInv, TickFrom, Patient, Calm, Scheduler.Pop, ActionInv, Helpful, Cooperative;
    BusyTick(w, 0, env);
    var j :| 0 <= j < |w.open| && HasWork(w.open[j]);
    InvOf(w, j);
    PopInv(w.open[j]);
    PopGood(w.open[j], Tame);
    var db := Pop(w.open[j]);
    CurrentActionInv(db);
    assert Cooperative(env(w.open[j].id));
    CooperationHelps(db.current.value, db.socket, env(w.open[j].id));
    assert HelpfulDb(w.open[j], env(w.open[j].id));
  }
}
