// One tick of one database, and of all of them, keeps the invariants.

module Ticks {
  import opened Types
  import opened SocketStatus
  import opened Turns
  import opened Actions
  import opened Jobs
  import opened Scheduler
  import opened Invariants
  import opened Insertion
  import opened Sums
  import P = Promise
  import R = Registry

  lemma PopInv(db: Db)
    requires DbInv(db)
    ensures DbInv(Pop(db)) && Work(Pop(db)) == Work(db)
    ensures HasWork(db) ==> Pop(db).current.Some?
  {
    assert Work(Pop(db)) == Work(db);
    if db.current.None? && db.queue != [] {
      FreshRuns(db.queue[0]);
    }
  }

  lemma FreshRuns(a: Action)
    requires Fresh(a)
    ensures ActionInv(a, 0) && !CallSuspended(a.m, 0) && !Interrupted(a, 0)
  {
  }

  lemma WorkVisited(db: Db, v: Visit)
    requires db.current.Some? && TicketOf(v.a) == TicketOf(db.current.value)
    ensures Work(Visited(db, v)) == [v.a] + db.queue
    ensures Tickets(Work(Visited(db, v))) == Tickets(Work(db))
  {
    assert Work(db) == [db.current.value] + db.queue;
    assert Work(Visited(db, v)) == [v.a] + db.queue;
  }

  lemma VisitedDisciplined(db: Db, env: Env)
    requires Disciplined(db) && db.current.Some? && ActionInv(db.current.value, db.socket)
    ensures Disciplined(Visited(db, VisitAction(db.current.value, db.socket, env)))
  {
    var v := VisitAction(db.current.value, db.socket, env);
    VisitCalls(db.current.value, db.socket, env);
    VisitKeepsInv(db.current.value, db.socket, env);
    assert v.a.m.QueryM? <==> db.current.value.m.QueryM? by {
      assert v.a.m.Server() == db.current.value.m.Server();
    }
    if v.call.Some? {
      ViolationsSnoc(db.calls, v.call.value);
    }
  }

  /** The close of a connection settles nothing and calls no one. */
  lemma CloseVisit(a: Action, socket: Flags, env: Env)
    requires IsClose(a)
    ensures var v := VisitAction(a, socket, env);
            IsClose(v.a) && v.requests == [] && v.verdict != Threw
  {
  }

  lemma VisitedLifetime(db: Db, env: Env)
    requires Lifetime(db) && db.current.Some? && ActionInv(db.current.value, db.socket)
    ensures Lifetime(Visited(db, VisitAction(db.current.value, db.socket, env)))
  {
    var a := db.current.value;
    var v := VisitAction(a, db.socket, env);
    VisitKeepsInv(a, db.socket, env);
    WorkVisited(db, v);
    assert Work(db) == [a] + db.queue;
    if db.gced {
      assert Work(db)[0] == a;
      CloseVisit(a, db.socket, env);
    } else {
      var work := Work(Visited(db, v));
      forall k | 0 <= k < |work| ensures !ClosesConnection(work[k].m.Server()) {
        assert !ClosesConnection(Work(db)[k].m.Server());
      }
    }
  }

  lemma VisitedInv(db: Db, env: Env)
    requires DbInv(db) && db.current.Some?
    ensures DbInv(Visited(db, VisitAction(db.current.value, db.socket, env)))
  {
    var v := VisitAction(db.current.value, db.socket, env);
    VisitKeepsInv(db.current.value, db.socket, env);
    WorkVisited(db, v);
    VisitedDisciplined(db, env);
    VisitedLifetime(db, env);
  }

  lemma VisitedTargets(db: Db, env: Env, live: set<nat>)
    requires DbInv(db) && db.current.Some? && DbTargets(db, live)
    ensures var v := VisitAction(db.current.value, db.socket, env);
            DbTargets(Visited(db, v), live) && RequestsTarget(v.requests, live)
  {
    var a := db.current.value;
    var v := VisitAction(a, db.socket, env);
    assert Work(db)[0] == a;
    VisitTargets(a, db.socket, env, live);
    VisitKeepsInv(a, db.socket, env);
    WorkVisited(db, v);
    var work := Work(Visited(db, v));
    forall k | 0 <= k < |work| ensures PromiseTargets(work[k].p, live) {
      assert PromiseTargets(Work(db)[k].p, live);
    }
  }

  lemma VisitedOwned(db: Db, env: Env)
    requires DbInv(db) && db.current.Some?
    ensures Owned(Visited(db, VisitAction(db.current.value, db.socket, env))) == Owned(db)
  {
    var a := db.current.value;
    var v := VisitAction(a, db.socket, env);
    VisitKeepsInv(a, db.socket, env);
    WorkVisited(db, v);
    assert Work(db) == [a] + db.queue;
    assert Work(Visited(db, v))[1..] == Work(db)[1..];
  }

  /** Replacing a database by one that owns the same references. */
  lemma UpdateKeepsInv(w: World, i: nat, db: Db, reg: R.State)
    requires Inv(w) && i < |w.open| && R.Conserved(reg, Total(Owned, w.open))
    requires DbInv(db) && DbTargets(db, Live(w.open)) && Owned(db) == Owned(w.open[i])
    requires db.id == w.open[i].id && db.gced == w.open[i].gced && db.connected == w.open[i].connected
    requires db.inserted == w.open[i].inserted
    ensures Inv(w.(open := w.open[i := db], reg := reg)) && Live(w.open[i := db]) == Live(w.open)
  {
    assert Numbered(w.open[i], w.actions);
    TotalUpdate(Owned, w.open, i, db);
    CancelRight(Total(Owned, w.open[i := db]), Total(Owned, w.open), Owned(db));
    ReplaceKeepsInv(w, i, db, w.(open := w.open[i := db], reg := reg));
  }

  /** Everything that popping and visiting keep of one database. */
  lemma TurnKeepsDb(before: Db, env: Env, live: set<nat>)
    requires DbInv(before) && DbTargets(before, live) && HasWork(before)
    ensures var db := Pop(before);
            var v := VisitAction(db.current.value, db.socket, env);
            var after := Visited(db, v);
            && DbInv(after) && DbTargets(after, live) && RequestsTarget(v.requests, live)
            && Owned(after) == Owned(before)
  {
    PopInv(before);
    VisitedInv(Pop(before), env);
    VisitedTargets(Pop(before), env, live);
    VisitedOwned(Pop(before), env);
  }

  lemma TurnKeepsRest(before: Db, env: Env)
    requires HasWork(before)
    ensures var db := Pop(before);
            var after := Visited(db, VisitAction(db.current.value, db.socket, env));
            && after.id == before.id && after.gced == before.gced && after.connected == before.connected
            && after.inserted == before.inserted
  {
  }

  /** The weak table of a prepared statement is lost as soon as it is referred to. */
  lemma AfterFinishConserves(reg: R.State, v: Visit, owned: multiset<nat>)
    requires R.Conserved(reg, owned)
    ensures R.Conserved(AfterFinish(reg, v), owned)
  {
    hide R.Conserved, R.Ref;
    if v.entered && Accepted(v.a.m.Server()) {
      R.RefConserves(reg, owned);
      var (reg', weak) := R.Ref(reg);
      assert multiset([weak]) == multiset{weak};
      R.LoseConserves(reg', owned, [weak]);
    }
  }

  lemma AfterVisitKeepsInv(w: World, i: nat, env: Env)
    requires Inv(w) && i < |w.open| && HasWork(w.open[i])
    ensures var v := VisitAt(w, i, env);
            var w1 := AfterVisit(w, i, env);
            && Inv(w1) && Live(w1.open) == Live(w.open)
            && RequestsTarget(v.requests, Live(w1.open))
  {
    hide Inv, DbInv, DbTargets, VisitAction, Visited, AfterFinish, R.Conserved, Owned, Total, Live, RequestsTarget;
    InvOf(w, i);
    InvConserves(w);
    TurnKeepsDb(w.open[i], env, Live(w.open));
    AfterFinishConserves(w.reg, VisitAt(w, i, env), Total(Owned, w.open));
    TurnKeepsRest(w.open[i], env);
    UpdateKeepsInv(w, i, Visited(Pop(w.open[i]), VisitAt(w, i, env)), AfterFinish(w.reg, VisitAt(w, i, env)));
  }

  lemma AfterVisitDone(w: World, i: nat, env: Env)
    requires i < |w.open| && HasWork(w.open[i]) && DbInv(w.open[i])
    ensures var current := AfterVisit(w, i, env).open[i].current;
            && current == Some(VisitAt(w, i, env).a)
            && (VisitAt(w, i, env).verdict == Done ==> current.value.hasFinished)
  {
    PopInv(w.open[i]);
    var db := Pop(w.open[i]);
    VisitKeepsInv(db.current.value, db.socket, env);
  }

  // ----- Free -----

  lemma ReleasedOrdered(db: Db)
    requires db.current.Some?
    requires Ordered(db) && SettledAsExpected(db) && FinishedOnce(db)
    requires db.current.value.hasFinished && db.current.value.p.result == Expected(db.current.value.m.Server())
    ensures var after := Released(db);
            Ordered(after) && SettledAsExpected(after) && FinishedOnce(after)
  {
    var a := db.current.value;
    var after := Released(db);
    assert Work(db) == [a] + db.queue;
    assert Work(after) == db.queue;
    assert Tickets(Work(db)) == [TicketOf(a)] + Tickets(db.queue);
    assert db.freed + ([TicketOf(a)] + Tickets(db.queue)) == after.freed + Tickets(db.queue);
    assert Ids(after.freed) == Ids(db.freed) + [a.id];
  }

  lemma ReleasedLifetime(db: Db)
    requires Lifetime(db) && db.current.Some?
    ensures Lifetime(Released(db))
  {
    var after := Released(db);
    assert Work(db) == [db.current.value] + db.queue && Work(after) == db.queue;
    assert Work(db)[0] == db.current.value;
    if !db.gced {
      forall k | 0 <= k < |db.queue| ensures !ClosesConnection(Work(after)[k].m.Server()) {
        assert Work(db)[k + 1] == db.queue[k];
      }
    }
  }

  lemma ReleasedRunning(db: Db)
    requires Running(db) && Disciplined(db) && db.current.Some? && db.current.value.hasFinished
    ensures Running(Released(db)) && Disciplined(Released(db))
  {
  }

  lemma ReleasedInv(db: Db)
    requires DbInv(db) && db.current.Some? && db.current.value.hasFinished
    ensures DbInv(Released(db))
  {
    ReleasedOrdered(db);
    ReleasedLifetime(db);
    ReleasedRunning(db);
  }

  lemma ReleasedTargets(db: Db, live: set<nat>)
    requires DbTargets(db, live) && db.current.Some?
    ensures DbTargets(Released(db), live)
  {
    var after := Released(db);
    forall k | 0 <= k < |Work(after)| ensures PromiseTargets(Work(after)[k].p, live) {
      assert PromiseTargets(Work(db)[k + 1].p, live);
    }
  }

  /** The references that `Free` and the release of the pin give back. */
  function GivenBack(db: Db): seq<nat>
    requires db.current.Some?
  {
    db.current.value.refs + if Unpins(db) then [db.pin.value] else []
  }

  lemma OwnedReleased(db: Db)
    requires db.current.Some?
    ensures Owned(db) == Owned(Released(db)) + multiset(GivenBack(db))
  {
    var a := db.current.value;
    assert Work(db)[0] == a && Work(db)[1..] == db.queue;
    assert Work(Released(db)) == db.queue;
  }

  lemma {:induction false} UnrefAllAppend(reg: R.State, r: seq<nat>, s: seq<nat>)
    ensures R.UnrefAll(reg, r + s) == R.UnrefAll(R.UnrefAll(reg, r), s)
    decreases |r|
  {
    if r == [] {
      assert r + s == s;
    } else {
      assert (r + s)[1..] == r[1..] + s;
      UnrefAllAppend(R.Unref(reg, r[0]), r[1..], s);
    }
  }

  /** `Free` gives back exactly what the action and, when it was the last, the pin held. */
  lemma ReleaseConserves(w: World, i: nat)
    requires i < |w.open| && w.open[i].current.Some? && R.Conserved(w.reg, Total(Owned, w.open))
    ensures R.Conserved(RegistryAfterRelease(w.reg, w.open[i]), Total(Owned, w.open[i := Released(w.open[i])]))
  {
    var db := w.open[i];
    var back := GivenBack(db);
    var after := Total(Owned, w.open[i := Released(db)]);
    OwnedReleased(db);
    TotalUpdate(Owned, w.open, i, Released(db));
    Regroup(Total(Owned, w.open[i := Released(db)]), multiset(back), Owned(Released(db)));
    CancelRight(after + multiset(back), Total(Owned, w.open), Owned(Released(db)));
    R.UnrefAllConserves(w.reg, after, back);
    UnrefAllAppend(w.reg, db.current.value.refs, if Unpins(db) then [db.pin.value] else []);
  }

  lemma ReleaseKeepsInv(w: World, i: nat)
    requires Inv(w) && i < |w.open|
    requires w.open[i].current.Some? && w.open[i].current.value.hasFinished
    ensures Inv(Release(w, i)) && Live(Release(w, i).open) == Live(w.open)
  {
    hide Total, Owned, R.Conserved, Live;
    var db := w.open[i];
    InvOf(w, i);
    InvConserves(w);
    ReleasedInv(db);
    ReleasedTargets(db, Live(w.open));
    ReleaseConserves(w, i);
    assert Work(db)[0] == db.current.value;
    ReplaceKeepsInv(w, i, Released(db), Release(w, i));
  }

  // ----- RunTick and TickHookTick -----

  lemma ConcludeKeepsInv(w: World, i: nat, requests: seq<P.Request>, verdict: Verdict)
    requires Inv(w) && i < |w.open| && RequestsTarget(requests, Live(w.open))
    requires verdict == Done ==> w.open[i].current.Some? && w.open[i].current.value.hasFinished
    ensures Inv(Conclude(w, i, requests, verdict).w)
    ensures Live(Conclude(w, i, requests, verdict).w.open) == Live(w.open)
  {
    InsertAllKeepsInv(w, requests);
    InsertAllUndisturbed(w, requests, i);
    if verdict == Done {
      ReleaseKeepsInv(InsertAll(w, requests), i);
    }
  }

  lemma RunTickKeepsInv(w: World, i: nat, env: Env)
    requires Inv(w) && i < |w.open| && HasWork(w.open[i])
    ensures Inv(RunTick(w, i, env).w) && Live(RunTick(w, i, env).w.open) == Live(w.open)
  {
    assert DbInv(w.open[i]);
    var v := VisitAt(w, i, env);
    AfterVisitKeepsInv(w, i, env);
    AfterVisitDone(w, i, env);
    ConcludeKeepsInv(AfterVisit(w, i, env), i, v.requests, v.verdict);
  }

  lemma LiveErased(open: seq<Db>, i: nat)
    requires i < |open| && open[i].gced
    ensures Live(open[..i] + open[i + 1..]) == Live(open)
  {
    var after := open[..i] + open[i + 1..];
    forall id ensures id in Live(after) <==> id in Live(open) {
      if id in Live(open) {
        var j :| 0 <= j < |open| && !open[j].gced && open[j].id == id;
        assert after[if j < i then j else j - 1] == open[j];
      }
      if id in Live(after) {
        var j :| 0 <= j < |after| && !after[j].gced && after[j].id == id;
        assert after[j] == open[if j < i then j else j + 1];
      }
    }
  }

  lemma AllErased(w: World, i: nat)
    requires i < |w.open| && Identified(w) && AllInv(w.open) && AllTarget(w.open, Live(w.open))
    ensures Identified(Erase(w, i)) && AllInv(Erase(w, i).open) && AllTarget(Erase(w, i).open, Live(w.open))
  {
    hide DbInv, Live, DbTargets, Numbered;
    var after := Erase(w, i).open;
    forall j | 0 <= j < |after|
      ensures DbInv(after[j]) && DbTargets(after[j], Live(w.open))
      ensures 1 <= after[j].id <= w.created && Numbered(after[j], w.actions)
    {
      var k := if j < i then j else j + 1;
      assert after[j] == w.open[k];
      assert DbInv(w.open[k]) && DbTargets(w.open[k], Live(w.open)) && Numbered(w.open[k], w.actions);
    }
  }

  lemma TotalWithout<T>(f: T -> multiset<nat>, s: seq<T>, i: nat)
    requires i < |s| && f(s[i]) == multiset{}
    ensures Total(f, s[..i] + s[i + 1..]) == Total(f, s)
  {
    TotalRemove(f, s, i);
  }

  /** An idle collected database owns nothing and has no connection: it can be deleted. */
  lemma EraseKeepsInv(w: World, i: nat)
    requires Inv(w) && i < |w.open| && w.open[i].gced && !HasWork(w.open[i])
    ensures Inv(Erase(w, i)) && Live(Erase(w, i).open) == Live(w.open) && !w.open[i].connected
  {
    hide Live, AllTarget, AllInv, Identified, R.Conserved, Total, Owned, Connection;
    InvOf(w, i);
    IdleCollected(w.open[i]);
    TotalWithout(Owned, w.open, i);
    TotalWithout(Connection, w.open, i);
    LiveErased(w.open, i);
    AllErased(w, i);
  }

  lemma IdleCollected(db: Db)
    requires Lifetime(db) && db.gced && !HasWork(db)
    ensures !db.connected && Owned(db) == multiset{} && Connection(db) == multiset{}
  {
    assert Work(db) == [];
  }

  lemma {:induction false} TickFromKeepsInv(w: World, i: nat, env: nat -> Env, unready: bool)
    requires Inv(w) && i <= |w.open|
    ensures Inv(TickFrom(w, i, env, unready).w)
    decreases |w.open| - i, 1
  {
    hide Inv, RunTick;
    if i < |w.open| {
      if HasWork(w.open[i]) {
        TickWorkKeepsInv(w, i, env, unready);
      } else {
        TickIdleKeepsInv(w, i, env, unready);
      }
    }
  }

  lemma {:induction false} TickWorkKeepsInv(w: World, i: nat, env: nat -> Env, unready: bool)
    requires Inv(w) && i < |w.open| && HasWork(w.open[i])
    ensures Inv(TickFrom(w, i, env, unready).w)
    decreases |w.open| - i, 0
  {
    hide Inv, RunTick;
    var t := RunTick(w, i, env(w.open[i].id));
    RunTickKeepsInv(w, i, env(w.open[i].id));
    if !t.threw {
      TickFromKeepsInv(t.w, i + 1, env, true);
    }
  }

  lemma {:induction false} TickIdleKeepsInv(w: World, i: nat, env: nat -> Env, unready: bool)
    requires Inv(w) && i < |w.open| && !HasWork(w.open[i])
    ensures Inv(TickFrom(w, i, env, unready).w)
    decreases |w.open| - i, 0
  {
    hide Inv;
    if w.open[i].gced {
      EraseKeepsInv(w, i);
      TickFromKeepsInv(Erase(w, i), i, env, unready);
    } else {
      TickFromKeepsInv(w, i + 1, env, unready);
    }
  }

  // ----- opening and collecting -----

  lemma NewDbInv(id: nat, reference: nat)
    ensures DbInv(NewDb(id, reference)) && forall actions: nat :: Numbered(NewDb(id, reference), actions)
    ensures Work(NewDb(id, reference)) == []
    ensures Owned(NewDb(id, reference)) == multiset{reference}
  {
    assert Work(NewDb(id, reference)) == [];
  }

  lemma AllOpened(w: World, db: Db, live: set<nat>)
    requires Identified(w) && AllInv(w.open) && AllTarget(w.open, Live(w.open)) && Live(w.open) <= live
    requires DbInv(db) && DbTargets(db, live) && db.id == w.created + 1 && Numbered(db, w.actions)
    ensures Identified(w.(open := w.open + [db], created := w.created + 1))
    ensures AllInv(w.open + [db]) && AllTarget(w.open + [db], live)
  {
    hide DbInv, Live, DbTargets, Numbered;
    var after := w.open + [db];
    forall j | 0 <= j < |after|
      ensures DbInv(after[j]) && DbTargets(after[j], live)
      ensures 1 <= after[j].id <= w.created + 1 && Numbered(after[j], w.actions)
    {
      if j < |w.open| {
        assert DbInv(w.open[j]) && DbTargets(w.open[j], Live(w.open)) && Numbered(w.open[j], w.actions);
        DbTargetsGrow(w.open[j], Live(w.open), live);
      }
    }
  }

  lemma LiveOpened(open: seq<Db>, db: Db)
    ensures Live(open) <= Live(open + [db])
  {
    var after := open + [db];
    forall id | id in Live(open) ensures id in Live(after) {
      var j :| 0 <= j < |open| && !open[j].gced && open[j].id == id;
      assert after[j] == open[j];
    }
  }

  lemma OpenedConserves(w: World, db: Db)
    requires Inv(w)
    requires db == NewDb(w.created + 1, R.Ref(w.reg).1)
    ensures R.Conserved(R.Ref(w.reg).0, Total(Owned, w.open + [db]))
    ensures multiset(w.closed) + Total(Connection, w.open + [db]) == R.UpTo(w.created + 1)
  {
    hide DbInv, AllInv, AllTarget, Identified, Total, Owned;
    R.RefConserves(w.reg, Total(Owned, w.open));
    NewDbInv(db.id, R.Ref(w.reg).1);
    TotalOfOne(Owned, w.open, db);
    TotalOfOne(Connection, w.open, db);
    OneMore(multiset(w.closed), Total(Connection, w.open), w.created);
  }

  lemma IdleTargets(db: Db, live: set<nat>)
    requires Work(db) == []
    ensures DbTargets(db, live)
  {
  }

  /** Adding a new database, with the registry and the connections adjusted. */
  lemma GrowKeepsInv(w: World, db: Db, w1: World)
    requires Inv(w) && DbInv(db) && Work(db) == [] && db.id == w.created + 1 && Numbered(db, w.actions)
    requires w1.open == w.open + [db] && w1.created == w.created + 1
    requires w1.actions == w.actions && w1.closed == w.closed
    requires R.Conserved(w1.reg, Total(Owned, w1.open))
    requires multiset(w1.closed) + Total(Connection, w1.open) == R.UpTo(w1.created)
    ensures Inv(w1)
  {
    hide DbInv, Live, DbTargets, Total, Owned, Connection, R.UpTo;
    LiveOpened(w.open, db);
    assert DbTargets(db, Live(w.open + [db])) by {
      IdleTargets(db, Live(w.open + [db]));
    }
    AllOpened(w, db, Live(w.open + [db]));
  }

  lemma OpenKeepsInv(w: World)
    requires Inv(w)
    ensures Inv(OpenDatabase(w))
  {
    hide Inv, DbInv, R.Conserved, Total, Owned, Connection, R.UpTo, Numbered;
    var reg, db := R.Ref(w.reg).0, NewDb(w.created + 1, R.Ref(w.reg).1);
    NewDbInv(w.created + 1, R.Ref(w.reg).1);
    OpenedConserves(w, db);
    GrowKeepsInv(w, db, OpenDatabase(w));
  }

  lemma OneMore(closed: multiset<nat>, open: multiset<nat>, created: nat)
    requires closed + open == R.UpTo(created)
    ensures closed + (open + multiset{created + 1}) == R.UpTo(created + 1)
  {
    assert closed + (open + multiset{created + 1}) == closed + open + multiset{created + 1};
  }

  lemma DbTargetsGrow(db: Db, live: set<nat>, more: set<nat>)
    requires DbTargets(db, live) && live <= more
    ensures DbTargets(db, more)
  {
    forall k | 0 <= k < |Work(db)| ensures PromiseTargets(Work(db)[k].p, more) {
      assert PromiseTargets(Work(db)[k].p, live);
      var p := Work(db)[k].p;
      if !p.finished {
        HandlerTargetsGrow(p.next, live, more);
        HandlerTargetsGrow(p.catch_, live, more);
      }
    }
  }

  function Orphaned(db: Db): Db {
    db.(reference := None, gced := true)
  }

  function ReferenceOf(db: Db): seq<nat> {
    if db.reference.Some? then [db.reference.value] else []
  }

  lemma OwnedOrphan(db: Db)
    ensures Owned(db) == Owned(Orphaned(db)) + multiset(ReferenceOf(db))
  {
    assert Work(Orphaned(db)) == Work(db);
  }

  lemma OrphanConserves(open: seq<Db>, i: nat, reg: R.State)
    requires i < |open| && R.Conserved(reg, Total(Owned, open))
    ensures R.Conserved(UnrefOptional(reg, open[i].reference), Total(Owned, open[i := Orphaned(open[i])]))
  {
    hide Owned, R.Conserved;
    var db := open[i];
    var orphan := Orphaned(db);
    var refs := ReferenceOf(db);
    OwnedOrphan(db);
    var total := Total(Owned, open[i := orphan]);
    TotalUpdate(Owned, open, i, orphan);
    Regroup(total, multiset(refs), Owned(orphan));
    CancelRight(total + multiset(refs), Total(Owned, open), Owned(orphan));
    R.UnrefAllConserves(reg, total, refs);
    assert R.UnrefAll(reg, refs) == UnrefOptional(reg, db.reference);
  }

  lemma ClosePushedConserves(open: seq<Db>, i: nat, db: Db, reg: R.State, a: Action)
    requires i < |open| && R.Conserved(reg, Total(Owned, open[i := db]) + multiset(a.refs))
    ensures R.Conserved(reg, Total(Owned, open[i := PushBack(db, a)]))
  {
    hide R.Conserved, Total, Owned, Scheduler.PushBack;
    var orphaned := open[i := db];
    PushBackOwned(db, a);
    OwnedFollows(orphaned, i, PushBack(db, a), multiset(a.refs));
    assert orphaned[i := PushBack(db, a)] == open[i := PushBack(db, a)];
  }

  lemma CollectConserves(w: World, i: nat, waits: seq<Wait>)
    requires i < |w.open| && R.Conserved(w.reg, Total(Owned, w.open))
    ensures R.Conserved(CollectAt(w, i, waits).reg, Total(Owned, CollectAt(w, i, waits).open))
  {
    OrphanConserves(w.open, i, w.reg);
    var w0 := w.(reg := UnrefOptional(w.reg, w.open[i].reference));
    var (w1, a) := CreateAction(w0, CloseJob(waits));
    CreateConserves(w0, CloseJob(waits), Total(Owned, w.open[i := Orphaned(w.open[i])]));
    ClosePushedConserves(w.open, i, Orphaned(w.open[i]), w1.reg, a);
  }

  /** Collecting an idle database leaves it with its close as the only work. */
  lemma CollectedInv(db: Db, id: nat, waits: seq<Wait>, refs: seq<nat>)
    requires DbInv(db) && !db.gced && db.pin.None? && Numbered(db, id)
    ensures var a := NewAction(id, CloseJob(waits), refs);
            var after := PushBack(Orphaned(db), a);
            DbInv(after) && Numbered(after, id + 1) && after.connected && db.connected && Work(after) == [a]
  {
    var a := NewAction(id, CloseJob(waits), refs);
    assert Work(Orphaned(db)) == Work(db) == [];
    WorkPushBack(Orphaned(db), a);
    NewActionFresh(id, CloseJob(waits), refs);
    PushBackInv(Orphaned(db), a);
  }

  lemma LiveCollected(open: seq<Db>, i: nat, db: Db)
    requires i < |open| && !open[i].gced && db.gced
    requires Ascending(open)
    ensures Live(open[i := db]) == Live(open) - {open[i].id}
  {
    var after := open[i := db];
    forall id ensures id in Live(after) <==> id in Live(open) && id != open[i].id {
      if id in Live(open) && id != open[i].id {
        var j :| 0 <= j < |open| && !open[j].gced && open[j].id == id;
        assert after[j] == open[j];
      }
      if id in Live(after) {
        var j :| 0 <= j < |after| && !after[j].gced && after[j].id == id;
        assert after[j] == open[j];
      }
    }
  }

  /** Replacing a database by its collected form. */
  lemma OrphanKeepsInv(w: World, i: nat, db: Db, w1: World)
    requires Inv(w) && i < |w.open| && !w.open[i].gced && db.gced && w.open[i].connected && db.connected
    requires db.id == w.open[i].id && DbInv(db) && Numbered(db, w.actions + 1)
    requires AllTarget(w.open, Live(w.open) - {db.id}) && DbTargets(db, Live(w.open) - {db.id})
    requires w1.open == w.open[i := db] && w1.created == w.created
    requires w1.actions == w.actions + 1 && w1.closed == w.closed
    requires R.Conserved(w1.reg, Total(Owned, w1.open))
    ensures Inv(w1)
  {
    LiveCollected(w.open, i, db);
    AllInvUpdate(w.open, i, db);
    AllTargetUpdate(w.open, i, db, Live(w.open) - {db.id});
    IdentifiedUpdate(w, i, db, w1);
    TotalUpdate(Connection, w.open, i, db);
    CancelRight(Total(Connection, w.open[i := db]), Total(Connection, w.open), Connection(db));
  }

  lemma OnlyCloseTargets(db: Db, a: Action, live: set<nat>)
    requires Work(db) == [a] && a.p == P.PENDING
    ensures DbTargets(db, live)
  {
  }

  lemma CollectKeepsInv(w: World, i: nat, waits: seq<Wait>)
    requires Inv(w) && i < |w.open| && !w.open[i].gced && w.open[i].pin.None?
    requires AllTarget(w.open, Live(w.open) - {w.open[i].id})
    ensures Inv(CollectAt(w, i, waits))
  {
    hide Inv, DbInv, R.Conserved, DbTargets;
    var db := w.open[i];
    var w0 := w.(reg := UnrefOptional(w.reg, db.reference));
    var (w1, a) := CreateAction(w0, CloseJob(waits));
    var after := PushBack(Orphaned(db), a);
    InvOf(w, i);
    CollectedInv(db, w.actions, waits, a.refs);
    assert DbTargets(after, Live(w.open) - {db.id}) by {
      OnlyCloseTargets(after, a, Live(w.open) - {db.id});
    }
    InvConserves(w);
    CollectConserves(w, i, waits);
    OrphanKeepsInv(w, i, after, CollectAt(w, i, waits));
  }

  // ----- chaining -----

  /** Registering a handler keeps the outcome, and can only make that very handler run. */
  lemma ChainEffect(p: P.State, c: P.Command, live: set<nat>)
    requires P.Quiescent(p) && PromiseTargets(p, live)
    requires (c.Next? || c.Catch?) && HandlerTargets(c.h, live)
    ensures var r := P.Apply(p, c);
            && P.Quiescent(r.p) && r.p.result == p.result
            && PromiseTargets(r.p, live) && RequestsTarget(r.requests, live)
  {
    P.UseKeepsQuiescent(p, c);
    var armed := if c.Next? then p.(next := c.h) else p.(catch_ := c.h);
    assert P.Apply(p, c) == P.Try(armed);
    if !p.finished && p.result.Some? && P.Matching(armed, p.result.value.success).Some? {
      FiredRequests(armed.(finished := true), c.h.value.body);
      BodyRequestsTarget(c.h.value.body, live);
    }
  }

  lemma WorkWithPromise(db: Db, k: nat, p: P.State)
    requires k < |Work(db)|
    ensures Work(WithPromise(db, k, p)) == Work(db)[k := Work(db)[k].(p := p)]
    ensures Tickets(Work(WithPromise(db, k, p))) == Tickets(Work(db))
  {
    assert Work(WithPromise(db, k, p)) == Work(db)[k := Work(db)[k].(p := p)];
  }

  lemma {:induction false} RefsKept(before: seq<Action>, after: seq<Action>)
    requires |before| == |after| && forall k :: 0 <= k < |before| ==> before[k].refs == after[k].refs
    ensures Total(ActionRefs, before) == Total(ActionRefs, after)
  {
    if before != [] {
      RefsKept(before[1..], after[1..]);
    }
  }

  lemma ChainedCurrent(db: Db, p: P.State)
    requires Running(db) && Disciplined(db) && FinishedOnce(db) && db.current.Some?
    requires P.Quiescent(p) && p.result == db.current.value.p.result
    ensures var after := db.(current := Some(db.current.value.(p := p)));
            Running(after) && Disciplined(after) && FinishedOnce(after)
  {
  }

  lemma ChainedQueued(db: Db, k: nat, p: P.State)
    requires Running(db) && Disciplined(db) && FinishedOnce(db) && k < |db.queue|
    requires P.Quiescent(p) && p.result == db.queue[k].p.result
    ensures var after := db.(queue := db.queue[k := db.queue[k].(p := p)]);
            Running(after) && Disciplined(after) && FinishedOnce(after)
  {
    assert Fresh(db.queue[k].(p := p));
  }

  lemma ChainedRunning(db: Db, k: nat, p: P.State)
    requires Running(db) && Disciplined(db) && FinishedOnce(db) && k < |Work(db)|
    requires P.Quiescent(p) && p.result == Work(db)[k].p.result
    ensures var after := WithPromise(db, k, p);
            Running(after) && Disciplined(after) && FinishedOnce(after)
  {
    if db.current.None? {
      ChainedQueued(db, k, p);
    } else if k == 0 {
      ChainedCurrent(db, p);
    } else {
      ChainedQueued(db, k - 1, p);
    }
  }

  lemma ChainedInv(db: Db, k: nat, p: P.State)
    requires DbInv(db) && !db.gced && k < |Work(db)|
    requires P.Quiescent(p) && p.result == Work(db)[k].p.result
    ensures DbInv(WithPromise(db, k, p))
  {
    hide Running, Disciplined, FinishedOnce;
    var after := WithPromise(db, k, p);
    WorkWithPromise(db, k, p);
    ChainedRunning(db, k, p);
    forall j | 0 <= j < |Work(after)| ensures !ClosesConnection(Work(after)[j].m.Server()) {
      assert !ClosesConnection(Work(db)[j].m.Server());
    }
  }

  lemma ChainedOwned(db: Db, k: nat, p: P.State)
    requires k < |Work(db)|
    ensures Owned(WithPromise(db, k, p)) == Owned(db)
  {
    WorkWithPromise(db, k, p);
    RefsKept(Work(db), Work(WithPromise(db, k, p)));
  }

  lemma ChainedTargets(db: Db, k: nat, p: P.State, live: set<nat>)
    requires DbTargets(db, live) && k < |Work(db)| && PromiseTargets(p, live)
    ensures DbTargets(WithPromise(db, k, p), live)
  {
    var after := WithPromise(db, k, p);
    WorkWithPromise(db, k, p);
    forall j | 0 <= j < |Work(after)| ensures PromiseTargets(Work(after)[j].p, live) {
      assert PromiseTargets(Work(db)[j].p, live);
    }
  }

  lemma PendingQuiescent(db: Db, k: nat)
    requires DbInv(db) && k < |Work(db)|
    ensures P.Quiescent(Work(db)[k].p)
  {
  }

  lemma TargetsOf(db: Db, k: nat, live: set<nat>)
    requires DbTargets(db, live) && k < |Work(db)|
    ensures PromiseTargets(Work(db)[k].p, live)
  {
  }

  lemma ChainKeepsInv(w: World, i: nat, k: nat, c: P.Command)
    requires Inv(w) && i < |w.open| && !w.open[i].gced && k < |Work(w.open[i])|
    requires (c.Next? || c.Catch?) && HandlerTargets(c.h, Live(w.open))
    ensures Inv(ChainAt(w, i, k, c))
  {
    hide Inv, DbInv, DbTargets, Owned, HandlerTargets, PromiseTargets;
    var db := w.open[i];
    InvOf(w, i);
    var p := Work(db)[k].p;
    var r := P.Apply(p, c);
    PendingQuiescent(db, k);
    assert PromiseTargets(p, Live(w.open)) by {
      TargetsOf(db, k, Live(w.open));
    }
    ChainEffect(p, c, Live(w.open));
    ChainedInv(db, k, r.p);
    ChainedOwned(db, k, r.p);
    ChainedTargets(db, k, r.p, Live(w.open));
    InvConserves(w);
    UpdateKeepsInv(w, i, WithPromise(db, k, r.p), w.reg);
    InsertAllKeepsInv(w.(open := w.open[i := WithPromise(db, k, r.p)]), r.requests);
  }

  // ----- every run -----

  lemma StepKeepsInv(w: World, event: Event)
    requires Inv(w) && Enabled(w, event)
    ensures Inv(Step(w, event))
  {
    hide Inv, InsertAt, TickFrom, ChainAt, CollectAt, OpenDatabase;
    match event
    case Open => OpenKeepsInv(w);
    case Submit(db, job) => InsertKeepsInv(w, db, job);
    case Chain(db, k, c) => ChainKeepsInv(w, IndexOf(w.open, db), k, c);
    case Collect(db, waits) => CollectKeepsInv(w, IndexOf(w.open, db), waits);
    case Tick(env) => TickFromKeepsInv(w, 0, env, false);
  }

  /** In every possible run of the module, every database is in order, every registry reference has
      one owner or has been released, and every connection is open once or was closed once. */
  lemma {:induction false} RunKeepsInv(w: World, events: seq<Event>)
    requires Inv(w) && Possible(w, events)
    ensures Inv(Run(w, events))
    decreases |events|
  {
    hide Inv, Step, Enabled;
    if events != [] {
      StepKeepsInv(w, events[0]);
      RunKeepsInv(Step(w, events[0]), events[1..]);
    }
  }
}
