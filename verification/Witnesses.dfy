// Runs that exhibit what the code does not do: one for each condition proved elsewhere.

module Witnesses {
  import opened Types
  import opened SocketStatus
  import opened Rows
  import opened Connector
  import opened Turns
  import opened Actions
  import opened Jobs
  import opened Scheduler
  import opened Invariants
  import opened Sums
  import opened Lifting
  import opened Loudness
  import opened Ledger
  import opened Guarantees
  import opened Shutdown
  import opened Wedges
  import QR = QueryRuns
  import ER = ExecuteRuns
  import P = Promise
  import R = Registry
  import Q = QueryMachine
  import E = ExecuteMachine

  const NO_FAULT := Fault("", 0)
  const THROWS := P.Handler([], true)

  // ----- rows lost by freeing them -----

  /** A query that returns one row, and loses the server while its result is freed. */
  const LOSING := QueryServer([], 0, NO_FAULT, true, 1, NO_FAULT, [RowReply([], [])], [], NO_FAULT,
                              [], Fault("lost", 2006), 0, NO_FAULT, 0, 0)

  /** Four ticks finish it, resolved with an empty table. */
  lemma RowsAreLost()
    ensures var r := QR.RunQuery(LOSING, QR.Begin(LOSING), AllReady(4), false);
            && r.done && r.result == Some(Settlement(true, Table([], 0, 0)))
            && r.result != Some(BlockingQuery(LOSING))
  {
    var r0 := QR.Begin(LOSING);
    var r1 := QR.Step(LOSING, r0, ALL_READY, false);
    var r2 := QR.Step(LOSING, r1, ALL_READY, false);
    var r3 := QR.Step(LOSING, r2, ALL_READY, false);
    var r4 := QR.Step(LOSING, r3, ALL_READY, false);
    assert r1.s.phase == Q.Fetching && !r1.s.started && r1.s.left == LOSING.rows;
    assert r2.s.phase == Q.Fetching && !r2.s.started && r2.s.left == [];
    assert r3.s.phase == Q.Freeing && !r3.s.started;
    assert r4.done && r4.s.table == [];
    FourTicks(r0);
    Q.ExpectedIsBlocking(LOSING);
  }

  lemma FourTicks(r: QR.Run)
    ensures QR.RunQuery(LOSING, r, AllReady(4), false)
         == QR.Step(LOSING, QR.Step(LOSING, QR.Step(LOSING, QR.Step(LOSING, r, ALL_READY, false),
                                                    ALL_READY, false), ALL_READY, false), ALL_READY, false)
  {
    hide QR.Step;
    var s1 := AllReady(3);
    var s2 := AllReady(2);
    var s3 := AllReady(1);
    assert AllReady(4) == [ALL_READY] + s1 && s1 == [ALL_READY] + s2 && s2 == [ALL_READY] + s3;
    assert s3 == [ALL_READY] + AllReady(0);
    assert AllReady(4)[1..] == s1 && s1[1..] == s2 && s2[1..] == s3 && s3[1..] == [];
  }

  // ----- waits for a timeout alone -----

  /** The same query, waiting for a timeout when it is sent. */
  const STUCK := LOSING.(queryWaits := [WAIT_TIMEOUT])

  lemma QuerySticks(schedule: seq<Readiness>, throws: bool)
    ensures !QR.RunQuery(STUCK, QR.Begin(STUCK), schedule, throws).done
  {
    assert !AllWakeable(Q.WaitsOfQuery(STUCK, throws)) by {
      assert Q.WaitsOfQuery(STUCK, throws)[0] == WAIT_TIMEOUT;
    }
    QR.QueryFinishesExactly(STUCK, throws);
  }

  /** A statement that returns these rows, and waits for a timeout while it is freed. */
  function Freeing(rows: seq<RawRow>): ExecuteServer {
    ExecuteServer([], 0, 0, NO_FAULT, 0, NO_FAULT, true, 0, NO_FAULT, rows, MYSQL_NO_DATA, NO_FAULT,
                  [WAIT_TIMEOUT], 0, 0)
  }

  /** Without rows it never finishes; with a row it can, for then the socket is not looked at. */
  lemma FreeSticksWithoutRows(row: RawRow, throws: bool)
    ensures forall schedule :: !ER.RunExecute(Freeing([]), ER.Begin(Freeing([])), schedule, throws).done
    ensures exists schedule :: ER.RunExecute(Freeing([row]), ER.Begin(Freeing([row])), schedule, throws).done
  {
    ER.ExecuteFinishesExactly(Freeing([]), throws);
    ER.ExecuteFinishesExactly(Freeing([row]), throws);
    assert !AllWakeable(Freeing([]).freeWaits) by {
      assert !Wakeable(Freeing([]).freeWaits[0]);
    }
  }

  // ----- one database, one operation -----

  /** The module after one database was opened and asked for one operation. */
  function Asked(job: P.Job): World {
    Step(Step(START, Open), Submit(1, job))
  }

  lemma OpenedLive()
    ensures var w := Step(START, Open);
            w.open == [NewDb(1, 1)] && Live(w.open) == {1} && IndexOf(w.open, 1) == 0
  {
    var w := Step(START, Open);
    assert w.open == [NewDb(1, 1)];
    assert w.open[0].id == 1 && !w.open[0].gced;
  }

  /** Lua code and the collector allow it, however it goes on. */
  lemma AskedPossible(job: P.Job, ticks: seq<Event>)
    requires JobTargets(job, {1})
    requires forall k :: 0 <= k < |ticks| ==> ticks[k].Tick?
    ensures Possible(START, [Open, Submit(1, job)] + ticks)
    ensures Run(START, [Open, Submit(1, job)] + ticks) == Run(Asked(job), ticks)
  {
    hide Enabled, Step;
    var events := [Open, Submit(1, job)] + ticks;
    assert Enabled(START, Open) && Enabled(Step(START, Open), Submit(1, job)) by {
      AskedEnabled(job);
    }
    assert events[1..] == [Submit(1, job)] + ticks && events[1..][1..] == ticks;
    TicksPossible(Asked(job), ticks);
  }

  lemma AskedEnabled(job: P.Job)
    requires JobTargets(job, {1})
    ensures Enabled(START, Open) && Enabled(Step(START, Open), Submit(1, job))
  {
    OpenedLive();
  }

  lemma {:induction false} TicksPossible(w: World, ticks: seq<Event>)
    requires forall k :: 0 <= k < |ticks| ==> ticks[k].Tick?
    ensures Possible(w, ticks)
    decreases |ticks|
  {
    hide Step;
    if ticks != [] {
      TicksPossible(Step(w, ticks[0]), ticks[1..]);
    }
  }

  /** What the one database looks like when its action starts. */
  lemma AskedQueue(job: P.Job)
    requires !TypeError(job.server)
    ensures var w := Asked(job);
            && |w.open| == 1 && w.requested == [job] && w.reg.lost == [] && w.erased == []
            && var db := w.open[0];
               && db.id == 1 && !db.gced && db.current.None? && db.socket == 0
               && |db.queue| == 1 && db.queue[0] == NewAction(0, job, db.queue[0].refs)
               && db.calls == [] && db.interruptions == 0 && db.freed == [] && db.pin.Some?
  {
    hide R.Refs, R.Ref;
    assert START.reg == R.EMPTY && R.Ref(R.EMPTY) == (R.State([], 1, []), 1) by {
      FirstRef();
    }
    OpenedLive();
    LostNothing(R.State([], 1, []), ReferencesOf(job.server));
  }

  lemma FirstRef()
    ensures R.Ref(R.EMPTY) == (R.State([], 1, []), 1)
  {
  }

  lemma LostNothing(g: R.State, n: nat)
    ensures R.Ref(R.Refs(g, n).0).0.lost == g.lost
  {
  }

  /** A tick of a single database with work is one `RunTick`. */
  lemma OneTick(w: World, env: nat -> Env)
    requires |w.open| == 1 && HasWork(w.open[0])
    ensures Step(w, Tick(env)) == RunTick(w, 0, env(w.open[0].id)).w
  {
    hide RunTick;
    var t := RunTick(w, 0, env(w.open[0].id));
    assert TickFrom(t.w, 1, env, true) == Swept(t.w, true, false);
  }

  /** A visit without requests inserts nothing. */
  lemma QuietTick(w: World, env: Env)
    requires |w.open| == 1 && HasWork(w.open[0]) && VisitAt(w, 0, env).requests == []
    ensures var v := VisitAt(w, 0, env);
            var w1 := AfterVisit(w, 0, env);
            RunTick(w, 0, env).w == if v.verdict == Done && w1.open[0].current.Some? then Release(w1, 0) else w1
  {
    hide VisitAt, AfterVisit, Release;
    assert InsertAll(AfterVisit(w, 0, env), []) == AfterVisit(w, 0, env);
  }

  lemma LeftAs(w: World, env: Env)
    requires |w.open| == 1 && HasWork(w.open[0])
    requires VisitAt(w, 0, env).requests == [] && VisitAt(w, 0, env).verdict != Done
    ensures var w1 := RunTick(w, 0, env).w;
            |w1.open| == 1 && w1.open[0] == Visited(Pop(w.open[0]), VisitAt(w, 0, env))
  {
    hide VisitAt, Visited, Release;
    QuietTick(w, env);
  }

  lemma ThrewAs(w: World, env: Env)
    requires |w.open| == 1 && HasWork(w.open[0])
    ensures RunTick(w, 0, env).threw <==> VisitAt(w, 0, env).verdict == Threw
  {
    hide VisitAt;
    var v := VisitAt(w, 0, env);
    ConcludeThrows(AfterVisit(w, 0, env), 0, v.requests, v.verdict);
  }

  lemma FreedAs(w: World, env: Env)
    requires |w.open| == 1 && HasWork(w.open[0])
    requires VisitAt(w, 0, env).requests == [] && VisitAt(w, 0, env).verdict == Done
    ensures var v := VisitAt(w, 0, env);
            var w1 := RunTick(w, 0, env).w;
            && |w1.open| == 1 && w1.open[0] == Released(Visited(Pop(w.open[0]), v))
            && w1.reg.lost == AfterFinish(w.reg, v).lost && w1.requested == w.requested && w1.erased == w.erased
  {
    hide VisitAt, AfterFinish, R.UnrefAll;
    QuietTick(w, env);
  }

  // ----- references lost -----

  const PREPARING := P.Job(ForAsync(AsyncServer(Prepare, [], 0, NO_FAULT)), None, None)

  lemma PreparingVisit(a: Action, env: Env)
    requires a == NewAction(0, PREPARING, a.refs)
    ensures var v := VisitAction(a, 0, env);
            v.requests == [] && v.verdict == Done && v.entered && v.a.m.Server() == PREPARING.server && v.a.id == 0
  {
  }

  /** The module after one successful prepare. */
  lemma PreparedRun(env: nat -> Env)
    ensures var events := [Open, Submit(1, PREPARING), Tick(env)];
            var w := Run(START, events);
            && Possible(START, events) && AllIdle(w.open)
            && |w.open| == 1 && w.open[0].id == 1 && !w.open[0].gced && w.open[0].current.None?
            && w.open[0].freed == [Ticket(0, PREPARING.server)]
            && w.erased == [] && w.requested == [PREPARING] && |w.reg.lost| == 1
  {
    hide Asked, R.Ref, R.UnrefAll, VisitAction, RunTick, NewAction;
    var events := [Open, Submit(1, PREPARING), Tick(env)];
    assert events == [Open, Submit(1, PREPARING)] + [Tick(env)];
    AskedPossible(PREPARING, [Tick(env)]);
    AskedQueue(PREPARING);
    var w := Asked(PREPARING);
    OneTick(w, env);
    PreparingVisit(w.open[0].queue[0], env(1));
    FreedAs(w, env(1));
    RefKeepsLost(w.reg);
    assert [Tick(env)][1..] == [];
    assert Run(START, events) == RunTick(w, 0, env(1)).w;
  }

  /** One successful prepare, nothing else: all databases are idle, and one reference is lost. */
  lemma PrepareLosesOne(env: nat -> Env)
    ensures var events := [Open, Submit(1, PREPARING), Tick(env)];
            var w := Run(START, events);
            && Possible(START, events) && AllIdle(w.open)
            && AllPrepares(w) == 1 && TypeErrors(w) == 0 && |w.reg.lost| == 1
  {
    hide Run, Possible, AllPrepares, TypeErrors;
    PreparedRun(env);
    OneOfEach(Run(START, [Open, Submit(1, PREPARING), Tick(env)]), PREPARING);
  }

  /** The collector may then take the database, although Lua code can still hold the statement. */
  lemma CollectedUnderStatement(env: nat -> Env)
    ensures Possible(START, [Open, Submit(1, PREPARING), Tick(env), Collect(1, [])])
  {
    hide Run, Possible, Enabled, Step;
    var events := [Open, Submit(1, PREPARING), Tick(env)];
    PreparedRun(env);
    IdleCollectable(events);
    assert events + [Collect(1, [])] == [Open, Submit(1, PREPARING), Tick(env), Collect(1, [])];
  }

  lemma IdleCollectable(events: seq<Event>)
    requires Possible(START, events)
    requires var w := Run(START, events);
             |w.open| == 1 && w.open[0].id == 1 && !w.open[0].gced && !HasWork(w.open[0])
    ensures Possible(START, events + [Collect(1, [])])
  {
    hide Run, Possible, Step;
    var w := Run(START, events);
    RunInv(events);
    InvOf(w, 0);
    assert Work(w.open[0]) == [];
    assert IndexOf(w.open, 1) == 0;
    assert AllTarget(w.open, Live(w.open) - {1});
    PossibleThen(START, events, Collect(1, []));
  }

  lemma {:induction false} PossibleThen(w: World, events: seq<Event>, event: Event)
    requires Possible(w, events) && Enabled(Run(w, events), event)
    ensures Possible(w, events + [event])
    decreases |events|
  {
    hide Enabled, Step;
    if events == [] {
      assert [event][1..] == [];
    } else {
      assert (events + [event])[1..] == events[1..] + [event];
      PossibleThen(Step(w, events[0]), events[1..], event);
    }
  }

  lemma OneOfEach(w: World, job: P.Job)
    requires |w.open| == 1 && w.open[0].current.None? && w.erased == [] && w.requested == [job]
    requires w.open[0].freed == [] || w.open[0].freed == [Ticket(0, job.server)]
    ensures AllPrepares(w) == if w.open[0].freed != [] && Accepted(job.server) then 1 else 0
    ensures TypeErrors(w) == if TypeError(job.server) then 1 else 0
  {
    hide Sum;
    SumOfOne(RaisesTypeError, job);
    assert w.open == [w.open[0]];
    SumOfOne(Prepares, w.open[0]);
    SumOfOne(PreparedTicket, Ticket(0, job.server));
    SumOfNone();
  }

  lemma SumOfNone()
    ensures Sum(PreparedTicket, []) == 0 && Sum(Prepares, []) == 0
  {
  }

  /** One `execute` with a table as its argument: three references are lost at once. */
  lemma TypeErrorLosesThree(e: ExecuteServer)
    requires e.args == [Object] && e.params == 1
    ensures var events := [Open, Submit(1, P.Job(ForExecute(e), None, None))];
            var w := Run(START, events);
            && Possible(START, events) && AllIdle(w.open)
            && AllPrepares(w) == 0 && TypeErrors(w) == 1 && |w.reg.lost| == 3
  {
    var job := P.Job(ForExecute(e), None, None);
    var events := [Open, Submit(1, job)];
    assert events + [] == events;
    AskedPossible(job, []);
    assert TypeError(job.server);
    OpenedLive();
    var w1 := Step(START, Open);
    AbandonCounts(w1.reg);
    var w := Asked(job);
    assert w == w1.(reg := Abandon(w1.reg), requested := [job]);
    OneOfEach(w, job);
  }

  // ----- a stray continue -----

  /** A query that fails. */
  const FAILING := QueryServer([], 1, NO_FAULT, false, 0, NO_FAULT, [], [], NO_FAULT,
                               [], NO_FAULT, 1, NO_FAULT, 0, 0)
  const REFUSING := P.Job(ForQuery(FAILING), None, Some(THROWS))

  /** Its rejection handler throws at the first tick; the second continues an operation that is over, and
      then the query is done with. */
  lemma OneStrayContinue(env: nat -> Env)
    ensures var events := [Open, Submit(1, REFUSING), Tick(env), Tick(env)];
            var w := Run(START, events);
            && Possible(START, events) && |w.open| == 1 && !HasWork(w.open[0])
            && w.open[0].calls == [StartCall(0), ContinueCall(0)]
            && w.open[0].interruptions == 1 && Violations(w.open[0].calls) == 1
  {
    hide Asked, VisitAction, RunTick, NewAction, Violations;
    var ticks := [Tick(env), Tick(env)];
    assert [Open, Submit(1, REFUSING), Tick(env), Tick(env)] == [Open, Submit(1, REFUSING)] + ticks;
    AskedPossible(REFUSING, ticks);
    AskedQueue(REFUSING);
    var w := Asked(REFUSING);
    OneTick(w, env);
    RefusedOnce(w.open[0].queue[0], env(1));
    LeftAs(w, env(1));
    var w1 := RunTick(w, 0, env(1)).w;
    OneTick(w1, env);
    RefusedAgain(w1.open[0].current.value, env(1));
    FreedAs(w1, env(1));
    assert ticks[1..] == [Tick(env)] && [Tick(env)][1..] == [];
    assert Run(w, ticks) == Run(w1, [Tick(env)]) == Run(Step(w1, Tick(env)), []);
    assert Run(w, ticks) == RunTick(w1, 0, env(1)).w;
    StrayContinue();
  }

  lemma StrayContinue()
    ensures Violations([StartCall(0), ContinueCall(0)]) == 1
    ensures [] + [StartCall(0)] + [ContinueCall(0)] == [StartCall(0), ContinueCall(0)]
  {
    ViolationsSnoc([], StartCall(0));
    ViolationsSnoc([StartCall(0)], ContinueCall(0));
    assert [] + [StartCall(0)] == [StartCall(0)];
  }

  lemma RefusedOnce(a: Action, env: Env)
    requires a == NewAction(0, REFUSING, a.refs)
    ensures var v := VisitAction(a, 0, env);
            && v.requests == [] && v.verdict == Threw && !v.entered && v.call == Some(StartCall(0)) && v.socket == 0
            && v.a.m.QueryM? && v.a.m.q == FAILING && v.a.m.query.started && v.a.m.query.phase == Q.Querying
            && !v.a.hasFinished && v.a.p.result == Some(Settlement(false, Failure(NO_FAULT)))
            && v.a.p.finished && v.a.p.catch_ == Some(THROWS) && v.a.id == 0
  {
    assert P.RunBody(P.PENDING.(catch_ := Some(THROWS), result := Some(Settlement(false, Failure(NO_FAULT))),
                                finished := true), []).requests == [];
  }

  lemma RefusedAgain(a: Action, env: Env)
    requires a.m.QueryM? && a.m.q == FAILING && a.m.query.started && a.m.query.phase == Q.Querying
    requires !a.hasFinished && a.p.result == Some(Settlement(false, Failure(NO_FAULT))) && a.p.finished
    ensures var v := VisitAction(a, 0, env);
            && v.requests == [] && v.verdict == Done && v.entered && v.call == Some(ContinueCall(0)) && v.socket == 0
  {
  }

  // ----- a hook that leaves a connection open -----

  /** The same failing query, pending when the shutdown hook is called: its handler throws out of the first
      tick of the drain, and the hook closes nothing. */
  lemma LeftOpen(envs: nat -> (nat -> Env))
    ensures var events := [Open, Submit(1, REFUSING)];
            var w := Run(START, events);
            && Possible(START, events) && Loud(w.open) && Ends(w, envs, 0, 1)
            && var after := Hook(w, envs, 1);
               |after.open| == 1 && !after.open[0].gced && after.open[0].connected
  {
    hide Asked, VisitAction, RunTick, NewAction, Enabled, Inv, Loud;
    var events := [Open, Submit(1, REFUSING)];
    assert events + [] == events;
    AskedPossible(REFUSING, []);
    AskedQueue(REFUSING);
    var w := Asked(REFUSING);
    assert Run(START, events) == w;
    RunInv(events);
    var env := envs(0);
    var t := RunTick(w, 0, env(1));
    RefusedOnce(w.open[0].queue[0], env(1));
    LeftAs(w, env(1));
    ThrewAs(w, env(1));
    assert TickHookTick(w, env) == Swept(t.w, true, true);
    assert Ends(w, envs, 0, 1) && Drained(w, envs, 0, 1) == Swept(t.w, true, true);
    HookClosesExactly(w, envs, 1);
    DrainThrowsExactly(w, envs, 0, 1);
  }

  // ----- a module that never shuts down -----

  const UNBOUND := ExecuteServer([], 0, 1, NO_FAULT, 0, NO_FAULT, false, 0, NO_FAULT, [], MYSQL_NO_DATA, NO_FAULT,
                                 [], 0, 0)
  const WEDGING := P.Job(ForExecute(UNBOUND), None, Some(THROWS))

  /** After one tick the statement is wedged, and then the drain of the shutdown hook never ends. */
  lemma NeverShutsDown(env: nat -> Env, envs: nat -> (nat -> Env), n: nat)
    ensures var events := [Open, Submit(1, WEDGING), Tick(env)];
            Possible(START, events) && !Ends(Run(START, events), envs, 0, n)
  {
    hide Asked, R.Ref, VisitAction, RunTick, NewAction;
    var events := [Open, Submit(1, WEDGING), Tick(env)];
    assert events == [Open, Submit(1, WEDGING)] + [Tick(env)];
    AskedPossible(WEDGING, [Tick(env)]);
    AskedQueue(WEDGING);
    var w := Asked(WEDGING);
    OneTick(w, env);
    UnboundVisit(w.open[0].queue[0], env(1));
    LeftAs(w, env(1));
    assert [Tick(env)][1..] == [];
    assert Run(w, [Tick(env)]) == RunTick(w, 0, env(1)).w;
    RunInv(events);
    AloneNeverEnds(Run(START, events), envs, 0, n);
  }

  lemma UnboundVisit(a: Action, env: Env)
    requires a == NewAction(0, WEDGING, a.refs)
    ensures var v := VisitAction(a, 0, env);
            v.requests == [] && v.verdict == Threw && WedgedAction(v.a)
  {
    var s := E.Init(UNBOUND);
    IdleWorker(s, env.before);
    assert P.RunBody(P.PENDING.(catch_ := Some(THROWS), result := Some(Settlement(false, Failure(NO_FAULT))),
                                finished := true), []).requests == [];
  }

  lemma {:induction false} IdleWorker(s: E.State, n: nat)
    requires s.worker == E.Idle
    ensures E.WorkerSteps(UNBOUND, s, n) == s
    decreases n
  {
    if n != 0 {
      IdleWorker(s, n - 1);
    }
  }
}
