// What the invariant means to a user of the module, in any run that Lua code, the collector, the ticks
// and the server's answers can produce.

module Guarantees {
  import opened Types
  import opened SocketStatus
  import opened Connector
  import opened Turns
  import opened Delivery
  import opened Actions
  import opened Jobs
  import opened Scheduler
  import opened Invariants
  import opened Insertion
  import opened Ticks
  import opened Sums
  import opened Lifting
  import opened Loudness
  import opened Mildness
  import opened Patience
  import opened Ledger
  import opened Shutdown
  import P = Promise
  import R = Registry

  lemma RunInv(events: seq<Event>)
    requires Possible(START, events)
    ensures Inv(Run(START, events))
  {
    StartInv();
    RunKeepsInv(START, events);
  }

  lemma RunDbInv(events: seq<Event>, i: nat)
    requires Possible(START, events) && i < |Run(START, events).open|
    ensures DbInv(Run(START, events).open[i])
  {
    RunInv(events);
    InvOf(Run(START, events), i);
  }

  // ----- order, exactly once -----

  /** First in, first out, exactly once: the actions freed so far are the first ones inserted, all of
      them different; each had `Finish` entered once, in that order; each left its promise as the
      blocking program would; and none of those still queued has started. */
  lemma ExactlyOnceInOrder(events: seq<Event>, i: nat)
    requires Possible(START, events) && i < |Run(START, events).open|
    ensures var db := Run(START, events).open[i];
            && db.inserted == db.freed + Tickets(Work(db))
            && (forall j, k :: 0 <= j < k < |db.inserted| ==> db.inserted[j].id != db.inserted[k].id)
            && (db.finishes == Ids(db.freed)
                || (db.current.Some? && db.finishes == Ids(db.freed) + [db.current.value.id]))
            && |db.outcomes| == |db.freed|
            && (forall k :: 0 <= k < |db.freed| ==> db.outcomes[k] == Expected(db.freed[k].server))
            && (forall k :: 0 <= k < |db.queue| ==> db.queue[k].m == Init(db.queue[k].m.Server())
                                                    && db.queue[k].p.result.None?)
  {
    RunDbInv(events, i);
  }

  /** What callbacks are given, over every run: the outcome of every action freed by any database, open or
      deleted since, is the one that `Delivers` describes by its parts. */
  lemma CallbacksReceive(events: seq<Event>, i: nat, k: nat)
    requires Possible(START, events)
    requires var all := Run(START, events).open + Run(START, events).erased; i < |all| && k < |all[i].freed|
    ensures var db := (Run(START, events).open + Run(START, events).erased)[i];
            |db.outcomes| == |db.freed| && Delivers(db.freed[k].server, db.outcomes[k])
  {
    hide Run, Inv, Delivers, Expected, Ordered, FinishedOnce, Running, Disciplined, Lifetime;
    var w := Run(START, events);
    RunAccounted(events);
    if i < |w.open| {
      RunDbInv(events, i);
    } else {
      assert Deleted(w.erased[i - |w.open|]);
    }
    var db := (w.open + w.erased)[i];
    assert SettledAsExpected(db);
    ExpectedExactly(db.freed[k].server, db.outcomes[k]);
  }

  // ----- what the events do -----

  /** A handler chained onto a pending promise replaces the one of its kind, and nothing else changes. */
  lemma ChainRegisters(w: World, db: nat, k: nat, c: P.Command)
    requires Enabled(w, Chain(db, k, c))
    requires var p := Work(w.open[IndexOf(w.open, db)])[k].p; p.result.None? && !p.finished
    ensures var i := IndexOf(w.open, db);
            var a := Work(w.open[i])[k];
            var w1 := Step(w, Chain(db, k, c));
            && |w1.open| == |w.open| && w1 == w.(open := w1.open)
            && Work(w1.open[i])
               == Work(w.open[i])[k := a.(p := if c.Next? then a.p.(next := c.h) else a.p.(catch_ := c.h))]
            && forall j :: 0 <= j < |w.open| && j != i ==> w1.open[j] == w.open[j]
  {
    hide Work, WithPromise;
    var i := IndexOf(w.open, db);
    var p := Work(w.open[i])[k].p;
    var r := P.Apply(p, c);
    var armed := if c.Next? then p.(next := c.h) else p.(catch_ := c.h);
    assert r == P.Try(armed) == P.Reply(armed, [], [], false);
    WorkWithPromise(w.open[i], k, r.p);
    assert w.open[i := WithPromise(w.open[i], k, r.p)][i] == WithPromise(w.open[i], k, r.p);
  }

  /** Collecting a database leaves it with one action, the close of its connection, and without the
      references that would keep it; no other database changes. */
  lemma CollectQueuesClose(w: World, db: nat, waits: seq<Wait>)
    requires Inv(w) && Enabled(w, Collect(db, waits))
    ensures var i := IndexOf(w.open, db);
            var w1 := Step(w, Collect(db, waits));
            && |w1.open| == |w.open| && w1.open[i].id == db && w1.open[i].gced
            && w1.open[i].reference.None? && w1.open[i].pin.None? && w1.open[i].connected
            && |Work(w1.open[i])| == 1 && IsClose(Work(w1.open[i])[0])
            && Work(w1.open[i])[0].m == AsyncM(AsyncServer(ConnectionClose, waits, 0, Fault("", 0)),
                                               AsyncState(false, []))
            && forall j :: 0 <= j < |w.open| && j != i ==> w1.open[j] == w.open[j]
  {
    hide Inv, Ordered, SettledAsExpected, FinishedOnce, Running, Disciplined, AllTarget, R.Refs, ReleaseOrder;
    var i := IndexOf(w.open, db);
    InvOf(w, i);
    assert Work(w.open[i]) == [];
  }

  /** What Lua code asks for joins the queue of the database it names, at the end, and no other; a type error
      of `execute` joins none. */
  lemma SubmitJoins(w: World, db: nat, job: P.Job)
    requires Inv(w) && Enabled(w, Submit(db, job))
    ensures var w1 := Step(w, Submit(db, job));
            && w1.requested == w.requested + [job] && |w1.open| == |w.open|
            && forall j :: 0 <= j < |w.open| ==>
                 w1.open[j].inserted
                 == w.open[j].inserted
                    + if TypeError(job.server) || w.open[j].id != db then [] else [Ticket(w.actions, job.server)]
  {
    hide Inv, Live, Insert, Joined, JobTargets;
    InsertMoves(w, P.Request(db, job));
    forall j | 0 <= j < |w.open|
      ensures Joined([P.Request(db, job)], w.open[j].id, w.actions)
           == if TypeError(job.server) || w.open[j].id != db then [] else [Ticket(w.actions, job.server)]
    {
      JoinedOne(P.Request(db, job), w.open[j].id, w.actions);
    }
  }

  // ----- lifetime -----

  /** The collector takes a database only when it is idle; from then on its connection is closed by one
      action of its own, and it is erased only once the connection has been closed. */
  lemma CollectedOnlyWhenIdle(events: seq<Event>, i: nat)
    requires Possible(START, events) && i < |Run(START, events).open|
    ensures var w := Run(START, events);
            var db := w.open[i];
            && (forall waits :: Enabled(w, Collect(db.id, waits)) ==> !HasWork(db))
            && (!db.gced ==> db.connected && (db.pin.Some? <==> HasWork(db)))
            && (db.gced && HasWork(db) ==> db.connected && |Work(db)| == 1 && IsClose(Work(db)[0]))
            && (db.gced && !HasWork(db) ==> !db.connected && multiset(w.closed)[db.id] == 1)
  {
    hide Run, Inv, Ordered, SettledAsExpected, FinishedOnce, Running, Disciplined, AllTarget;
    var w := Run(START, events);
    var db := w.open[i];
    RunInv(events);
    RunDbInv(events, i);
    InvAscending(w);
    IndexOfItself(w.open, i);
    if db.gced && !HasWork(db) {
      assert Work(db) == [];
      ConnectionOnce(w, i);
    }
  }

  /** The self-pin of a database that still has work after a tick is the one it had: it is not given up and
      taken again around the requests that handlers make, and it is given up once no work is left. */
  lemma PinStays(w: World, i: nat, env: Env)
    requires Inv(w) && i < |w.open| && HasWork(w.open[i]) && !w.open[i].gced
    ensures var before, after := w.open[i], RunTick(w, i, env).w.open[i];
            before.pin.Some? && after.pin == if HasWork(after) then before.pin else None
  {
    hide Inv, VisitAction, Ordered, SettledAsExpected, FinishedOnce, Running, Disciplined, AfterFinish, InsertAll;
    InvOf(w, i);
    RunTickKeepsInv(w, i, env);
    InvOf(RunTick(w, i, env).w, i);
    InsertAllKeepsPin(AfterVisit(w, i, env), VisitAt(w, i, env).requests, i);
    InsertAllUndisturbed(AfterVisit(w, i, env), VisitAt(w, i, env).requests, i);
  }

  lemma {:induction false} InsertAllKeepsPin(w: World, requests: seq<P.Request>, i: nat)
    requires i < |w.open| && w.open[i].pin.Some?
    ensures InsertAll(w, requests).open[i].pin == w.open[i].pin
    decreases |requests|
  {
    hide R.Refs, R.Ref, ReleaseOrder;
    if requests != [] {
      InsertAllKeepsPin(Insert(w, requests[0].db, requests[0].job), requests[1..], i);
    }
  }

  lemma {:induction false} IndexOfItself(open: seq<Db>, i: nat)
    requires i < |open| && Ascending(open)
    ensures IndexOf(open, open[i].id) == i
  {
    if i != 0 {
      assert open[1..][i - 1] == open[i];
      IndexOfItself(open[1..], i - 1);
    }
  }

  lemma {:induction false} NoOtherConnection(open: seq<Db>, id: nat)
    requires forall j :: 0 <= j < |open| ==> open[j].id == id ==> !open[j].connected
    ensures Total(Connection, open)[id] == 0
  {
    if open != [] {
      NoOtherConnection(open[1..], id);
    }
  }

  /** An open database without a connection has had it closed, once. */
  lemma ConnectionOnce(w: World, i: nat)
    requires Inv(w) && i < |w.open| && !w.open[i].connected
    ensures multiset(w.closed)[w.open[i].id] == 1
  {
    var id := w.open[i].id;
    forall j | 0 <= j < |w.open| ensures w.open[j].id == id ==> !w.open[j].connected {
      assert j < i ==> w.open[j].id < w.open[i].id;
      assert i < j ==> w.open[i].id < w.open[j].id;
    }
    NoOtherConnection(w.open, id);
    R.UpToIsASet(w.created, id);
    assert (multiset(w.closed) + Total(Connection, w.open))[id] == R.UpTo(w.created)[id];
  }

  // ----- registry references -----

  /** Every reference ever created is in exactly one place: it has one owner, or it has been released, or
      it is lost. What is lost is accounted for exactly, in every run. */
  lemma ReferencesHaveOneOwner(events: seq<Event>, r: nat)
    requires Possible(START, events)
    ensures var w := Run(START, events);
            && Total(Owned, w.open)[r] + multiset(w.reg.free)[r] + multiset(w.reg.lost)[r]
               == (if 1 <= r <= w.reg.top then 1 else 0)
            && |w.reg.lost| == AllPrepares(w) + 3 * TypeErrors(w)
  {
    hide Run;
    var w := Run(START, events);
    RunInv(events);
    RunAccounted(events);
    R.UpToIsASet(w.reg.top, r);
    assert (multiset(w.reg.free) + multiset(w.reg.lost) + Total(Owned, w.open))[r] == R.UpTo(w.reg.top)[r];
  }

  lemma RunAccounted(events: seq<Event>)
    requires Possible(START, events)
    ensures Accounted(Run(START, events)) && Books(Run(START, events))
  {
    hide Run, Inv, Books;
    StartInv();
    StartBooks();
    RunBooks(START, events);
    BooksAccount(Run(START, events));
  }

  ghost function WeakReference(db: Db): multiset<nat> {
    Optional(db.reference)
  }

  lemma {:induction false} IdleOwns(open: seq<Db>)
    requires AllInv(open) && AllIdle(open)
    ensures Total(Owned, open) == Total(WeakReference, open)
  {
    if open != [] {
      assert DbInv(open[0]) && !HasWork(open[0]) && Work(open[0]) == [];
      assert Optional(open[0].pin) == multiset{};
      IdleOwns(open[1..]) by {
        forall j | 0 <= j < |open[1..]| ensures DbInv(open[1..][j]) && !HasWork(open[1..][j]) {
          assert DbInv(open[j + 1]) && !HasWork(open[j + 1]);
        }
      }
    }
  }

  predicate AllIdle(open: seq<Db>) {
    forall i :: 0 <= i < |open| ==> !HasWork(open[i])
  }

  lemma {:induction false} UpToSize(n: nat)
    ensures |R.UpTo(n)| == n
  {
    if n != 0 {
      UpToSize(n - 1);
    }
  }

  /** Once every database is idle, what has neither been released nor holds the weak table of a database
      not collected, is lost: one reference for each successful prepare and three for each type error of
      `execute`. So no reference of an action outlives it, even if `Finish` throws, if and only if there
      was no such prepare and no such error. */
  lemma IdleLosesExactly(events: seq<Event>)
    requires Possible(START, events) && AllIdle(Run(START, events).open)
    ensures var w := Run(START, events);
            var weak := Total(WeakReference, w.open);
            && multiset(w.reg.free) + multiset(w.reg.lost) + weak == R.UpTo(w.reg.top)
            && w.reg.top == |w.reg.free| + |weak| + AllPrepares(w) + 3 * TypeErrors(w)
            && (multiset(w.reg.free) + weak == R.UpTo(w.reg.top) <==> AllPrepares(w) == 0 && TypeErrors(w) == 0)
  {
    hide Run, DbInv, Owned, WeakReference, AllPrepares, TypeErrors;
    var w := Run(START, events);
    RunInv(events);
    RunAccounted(events);
    IdleOwns(w.open);
    UpToSize(w.reg.top);
    LossShows(multiset(w.reg.free), multiset(w.reg.lost), Total(WeakReference, w.open), R.UpTo(w.reg.top));
  }

  lemma LossShows(free: multiset<nat>, lost: multiset<nat>, weak: multiset<nat>, all: multiset<nat>)
    requires free + lost + weak == all
    ensures |all| == |free| + |lost| + |weak|
    ensures free + weak == all <==> |lost| == 0
  {
    assert |free + weak| == |free| + |weak|;
    if |lost| == 0 {
      assert lost == multiset{};
    }
  }

  // ----- the connector's discipline -----

  /** The non-blocking calls of a connection form start continue* sequences, one operation at a time,
      if and only if no query was interrupted by its rejection handler: each interruption leads to one
      continue call on an operation that is already complete, as soon as the query is visited again. */
  lemma DisciplineExactly(events: seq<Event>, i: nat)
    requires Possible(START, events) && i < |Run(START, events).open|
    ensures var db := Run(START, events).open[i];
            var pending := db.current.Some? && Interrupted(db.current.value, db.socket);
            && Violations(db.calls) + (if pending then 1 else 0) == db.interruptions
            && (!HasWork(db) ==> !Suspended(db.calls) && Violations(db.calls) == db.interruptions)
  {
    RunDbInv(events, i);
  }

  /** Without rejection handlers that throw, the discipline is kept. */
  lemma MildRunsAreDisciplined(events: seq<Event>, i: nat)
    requires Possible(START, events) && i < |Run(START, events).open|
    requires forall k :: 0 <= k < |events| ==> MildEvent(events[k])
    ensures Violations(Run(START, events).open[i].calls) == 0
  {
    hide Run, Inv, MildEvent, Violations;
    StartInv();
    MildRun(START, events);
    DisciplineExactly(events, i);
  }

  // ----- requests made by handlers -----

  lemma InsertMoves(w: World, request: P.Request)
    requires Inv(w) && request.db in Live(w.open)
    ensures var w1 := Insert(w, request.db, request.job);
            && w1.requested == w.requested + [request.job]
            && w1.actions == w.actions + (if TypeError(request.job.server) then 0 else 1)
            && forall j :: 0 <= j < |w.open| ==>
                 && w1.open[j].id == w.open[j].id
                 && w1.open[j].inserted == w.open[j].inserted + Joined([request], w.open[j].id, w.actions)
  {
    hide Inv, InsertAt, Joined, Live;
    InvAscending(w);
    IndexOfLive(w.open, request.db);
    var i := IndexOf(w.open, request.db);
    var w1 := InsertAt(w, i, request.job);
    InsertAtMoves(w, i, request.job);
    forall j | 0 <= j < |w.open|
      ensures && w1.open[j].id == w.open[j].id
              && w1.open[j].inserted == w.open[j].inserted + Joined([request], w.open[j].id, w.actions)
    {
      assert w.open[j].id == request.db <==> j == i by {
        assert i < j ==> w.open[i].id < w.open[j].id;
        assert j < i ==> w.open[j].id < w.open[i].id;
      }
      JoinedOne(request, w.open[j].id, w.actions);
    }
  }

  lemma InsertAtMoves(w: World, i: nat, job: P.Job)
    requires i < |w.open|
    ensures var w1 := InsertAt(w, i, job);
            var joins := !TypeError(job.server);
            && w1.requested == w.requested + [job]
            && w1.actions == w.actions + (if joins then 1 else 0)
            && forall j :: 0 <= j < |w.open| ==>
                 && w1.open[j].id == w.open[j].id
                 && w1.open[j].inserted
                    == w.open[j].inserted + if joins && j == i then [Ticket(w.actions, job.server)] else []
  {
    hide R.Refs, R.Ref, ReleaseOrder;
  }

  lemma JoinedOne(request: P.Request, id: nat, next: nat)
    ensures Joined([request], id, next)
         == if TypeError(request.job.server) || request.db != id then [] else [Ticket(next, request.job.server)]
  {
    assert [request][1..] == [];
  }

  /** The tickets of those requests that go to database `id`, in order, numbered from `next` on. A type
      error of `execute` gives no action. */
  function Joined(requests: seq<P.Request>, id: nat, next: nat): seq<Ticket> {
    if requests == [] then []
    else if TypeError(requests[0].job.server) then Joined(requests[1..], id, next)
    else
      (if requests[0].db == id then [Ticket(next, requests[0].job.server)] else [])
      + Joined(requests[1..], id, next + 1)
  }

  function JobsOf(requests: seq<P.Request>): seq<P.Job> {
    if requests == [] then [] else [requests[0].job] + JobsOf(requests[1..])
  }

  lemma {:induction false} AllDelivered(w: World, requests: seq<P.Request>)
    requires Inv(w) && RequestsTarget(requests, Live(w.open))
    ensures InsertAll(w, requests).requested == w.requested + JobsOf(requests)
    ensures forall j :: 0 <= j < |w.open| ==>
              InsertAll(w, requests).open[j].inserted
              == w.open[j].inserted + Joined(requests, w.open[j].id, w.actions)
    decreases |requests|
  {
    hide Inv, JobTargets, Insert, Joined, Live, TypeError;
    NothingJoins(w);
    if requests != [] {
      var w1 := Insert(w, requests[0].db, requests[0].job);
      InsertMoves(w, requests[0]);
      InsertKeepsInv(w, requests[0].db, requests[0].job);
      AllDelivered(w1, requests[1..]);
      forall j | 0 <= j < |w.open|
        ensures InsertAll(w, requests).open[j].inserted
             == w.open[j].inserted + Joined(requests, w.open[j].id, w.actions)
      {
        JoinedSplits(requests, w.open[j].id, w.actions);
      }
    }
  }

  lemma NothingJoins(w: World)
    ensures forall id: nat, next: nat :: Joined([], id, next) == []
  {
  }

  lemma JoinedSplits(requests: seq<P.Request>, id: nat, next: nat)
    requires requests != []
    ensures Joined(requests, id, next)
         == Joined([requests[0]], id, next)
            + Joined(requests[1..], id, next + (if TypeError(requests[0].job.server) then 0 else 1))
  {
  }

  /** No request is lost, in whatever state of a run, between ticks or in the middle of one, a database is
      visited: each operation that the handlers of the visit ask for joins the queue of the database it
      names, in order, unless it is an `execute` with a type error; for none of them can name a database
      that is gone. */
  lemma NoRequestIsLost(w: World, i: nat, env: Env)
    requires Inv(w) && i < |w.open| && HasWork(w.open[i])
    ensures var requests := VisitAt(w, i, env).requests;
            var w1 := RunTick(w, i, env).w;
            && w1.requested == w.requested + JobsOf(requests)
            && forall j :: 0 <= j < |w.open| ==>
                 w1.open[j].inserted == w.open[j].inserted + Joined(requests, w.open[j].id, w.actions)
  {
    hide Inv, VisitAction, Visited, InsertAll, AfterFinish;
    AfterVisitKeepsInv(w, i, env);
    VisitInserts(w, i, env);
    AllDelivered(AfterVisit(w, i, env), VisitAt(w, i, env).requests);
  }

  lemma VisitInserts(w: World, i: nat, env: Env)
    requires i < |w.open| && HasWork(w.open[i])
    ensures var w1 := AfterVisit(w, i, env);
            && w1.actions == w.actions && w1.requested == w.requested && |w1.open| == |w.open|
            && forall j :: 0 <= j < |w.open| ==>
                 w1.open[j].id == w.open[j].id && w1.open[j].inserted == w.open[j].inserted
  {
  }

  // ----- shutdown -----

  /** Exactly-once close, with no assumption on the callbacks: once the drain has found a tick without
      work, every connection ever opened has been closed once, by its own action or by the hook. */
  lemma EveryConnectionIsClosedOnce(events: seq<Event>, env: nat -> Env)
    requires Possible(START, events) && !TickHookTick(Run(START, events), env).unready
    ensures var last := CloseAll(TickHookTick(Run(START, events), env).w);
            && last.open == []
            && multiset(last.closed) == R.UpTo(last.created)
  {
    hide Inv, TickHookTick, CloseAll, Run;
    RunInv(events);
    CleanTickThenClose(Run(START, events), env);
  }

  /** The shutdown hook ends and is complete: if no loud work is pending when it is called, all pending
      work is patient, and the environment is cooperative from some tick on, then the drain stops, no tick
      of it throws, and by then every action ever inserted into any database, still open or deleted, has
      been freed in order with its promise settled as the blocking program would; and after the closing
      loop every connection ever opened has been closed exactly once. */
  lemma ShutdownCompletes(events: seq<Event>, envs: nat -> (nat -> Env), patience: nat, n: nat)
    requires Possible(START, events) && Fair(envs, patience)
    requires !Loud(Run(START, events).open) && Everywhere(Run(START, events).open, Patient)
    requires Remaining(Run(START, events), 0, patience) < n
    ensures var w := Run(START, events);
            && Ends(w, envs, 0, n) && !Drained(w, envs, 0, n).threw
            && var drained := Drained(w, envs, 0, n).w;
               var all := drained.open + drained.erased;
               && Total(DbIds, all) == R.UpTo(drained.created)
               && (forall i :: 0 <= i < |all| ==>
                     !HasWork(all[i]) && all[i].freed == all[i].inserted && SettledAsExpected(all[i]))
               && Hook(w, envs, n) == CloseAll(drained)
               && multiset(CloseAll(drained).closed) == R.UpTo(drained.created)
  {
    hide Run, CloseAll, Drained, Ends, Fair, SettledAsExpected, Remaining, DbInv, HasWork, Total, Inv, Loud,
         Everywhere;
    var w := Run(START, events);
    RunInv(events);
    RunAccounted(events);
    TameExactly(w.open);
    FairDrainEnds(w, envs, 0, patience, n);
    DrainedKeeps(w, envs, 0, n);
    var drained := Drained(w, envs, 0, n).w;
    IdleThenClose(drained);
    ClosingCreatesNothing(drained);
    TotalAppend(DbIds, drained.open, drained.erased);
    var all := drained.open + drained.erased;
    forall i | 0 <= i < |all|
      ensures !HasWork(all[i]) && all[i].freed == all[i].inserted && SettledAsExpected(all[i])
    {
      if i < |drained.open| {
        InvOf(drained, i);
      } else {
        assert Deleted(drained.erased[i - |drained.open|]);
      }
      IdleFreed(all[i]);
    }
  }

  lemma ClosingCreatesNothing(w: World)
    ensures CloseAll(w).created == w.created
  {
    CloseAllCloses(w);
  }
}
