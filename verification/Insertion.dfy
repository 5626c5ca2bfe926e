// Inserting an action, from Lua code or from inside a handler, keeps the invariants.

module Insertion {
  import opened Types
  import opened Connector
  import opened Actions
  import opened Jobs
  import opened Scheduler
  import opened Invariants
  import opened Sums
  import P = Promise
  import R = Registry

  lemma WorkPushBack(db: Db, a: Action)
    ensures Work(PushBack(db, a)) == Work(db) + [a]
    ensures Tickets(Work(PushBack(db, a))) == Tickets(Work(db)) + [TicketOf(a)]
  {
    assert Work(PushBack(db, a)) == Work(db) + [a];
  }

  lemma PushBackOrdered(db: Db, a: Action)
    requires Ordered(db) && Numbered(db, a.id)
    ensures Ordered(PushBack(db, a)) && Numbered(PushBack(db, a), a.id + 1)
  {
    WorkPushBack(db, a);
    assert db.freed + (Tickets(Work(db)) + [TicketOf(a)]) == db.inserted + [TicketOf(a)];
  }

  /** A fresh action at the back of the queue: nothing else of the invariant looks there. */
  lemma PushBackInv(db: Db, a: Action)
    requires Ordered(db) && SettledAsExpected(db) && FinishedOnce(db) && Running(db) && Disciplined(db)
    requires Numbered(db, a.id) && Fresh(a)
    requires Lifetime(PushBack(db, a))
    ensures DbInv(PushBack(db, a)) && Numbered(PushBack(db, a), a.id + 1)
  {
    PushBackOrdered(db, a);
  }

  lemma PushBackTargets(db: Db, a: Action, live: set<nat>)
    requires DbTargets(db, live) && PromiseTargets(a.p, live)
    ensures DbTargets(PushBack(db, a), live)
  {
    WorkPushBack(db, a);
    var work := Work(PushBack(db, a));
    forall k | 0 <= k < |work| ensures PromiseTargets(work[k].p, live) {
      assert k < |Work(db)| ==> PromiseTargets(Work(db)[k].p, live);
    }
  }

  lemma PushBackOwned(db: Db, a: Action)
    ensures Owned(PushBack(db, a)) == Owned(db) + multiset(a.refs)
  {
    WorkPushBack(db, a);
    TotalAppend(ActionRefs, Work(db), [a]);
    assert Total(ActionRefs, [a]) == multiset(a.refs) + multiset{};
  }

  lemma ReleaseOrderPermutes(refs: seq<nat>)
    ensures multiset(ReleaseOrder(refs)) == multiset(refs)
  {
    if |refs| >= 3 {
      assert refs == [refs[0], refs[1], refs[2]] + refs[3..];
    }
  }

  /** Creating an action takes its references from the registry. */
  /** An action owns the references of its promise, the last taken first, and then, unless it is a single
      operation, that of its result table. */
  lemma ActionReferences(w: World, job: P.Job)
    ensures var n := match job.server case ForAsync(_) => 3 case ForQuery(_) => 4 case ForExecute(_) => 4;
            var (reg, taken) := R.Refs(w.reg, n);
            var (w1, a) := CreateAction(w, job);
            && w1.reg == reg && |taken| == n && |a.refs| == n
            && a.refs[0] == taken[2] && a.refs[1] == taken[1] && a.refs[2] == taken[0]
            && (n == 4 ==> a.refs[3] == taken[3])
  {
    RefsLength(w.reg, ReferencesOf(job.server));
  }

  lemma {:induction false} RefsLength(g: R.State, n: nat)
    ensures |R.Refs(g, n).1| == n
    decreases n
  {
    if n != 0 {
      RefsLength(R.Ref(g).0, n - 1);
    }
  }

  lemma CreateConserves(w: World, job: P.Job, owned: multiset<nat>)
    requires R.Conserved(w.reg, owned)
    ensures var (w1, a) := CreateAction(w, job);
            R.Conserved(w1.reg, owned + multiset(a.refs))
  {
    R.RefsConserve(w.reg, owned, ReferencesOf(job.server));
    ReleaseOrderPermutes(R.Refs(w.reg, ReferencesOf(job.server)).1);
  }

  lemma NewActionFresh(id: nat, job: P.Job, refs: seq<nat>)
    ensures Fresh(NewAction(id, job, refs))
    ensures NewAction(id, job, refs).m.Server() == job.server
  {
  }

  lemma PinnedLifetime(db: Db, pin: Option<nat>, a: Action)
    requires Lifetime(db) && !db.gced && pin.Some? && !ClosesConnection(a.m.Server())
    ensures Lifetime(PushBack(db.(pin := pin), a))
  {
    WorkPushBack(db.(pin := pin), a);
    var work := Work(PushBack(db.(pin := pin), a));
    forall k | 0 <= k < |work| ensures !ClosesConnection(work[k].m.Server()) {
      assert k < |Work(db)| ==> work[k] == Work(db)[k];
    }
  }

  /** The total of the references follows the change at index i. */
  lemma OwnedFollows(open: seq<Db>, i: nat, db: Db, more: multiset<nat>)
    requires i < |open| && Owned(db) == Owned(open[i]) + more
    ensures Total(Owned, open[i := db]) == Total(Owned, open) + more
  {
    TotalUpdate(Owned, open, i, db);
    assert Total(Owned, open[i := db]) + Owned(open[i]) == Total(Owned, open) + more + Owned(open[i]);
    CancelRight(Total(Owned, open[i := db]), Total(Owned, open) + more, Owned(open[i]));
  }

  lemma InsertedInv(db: Db, pinned: Db, a: Action)
    requires DbInv(db) && !db.gced && Numbered(db, a.id)
    requires pinned == db.(pin := pinned.pin) && pinned.pin.Some?
    requires Fresh(a) && !ClosesConnection(a.m.Server())
    ensures DbInv(PushBack(pinned, a)) && Numbered(PushBack(pinned, a), a.id + 1)
  {
    assert Work(pinned) == Work(db);
    PinnedLifetime(db, pinned.pin, a);
    PushBackInv(pinned, a);
  }

  lemma EnsurePinnedConserves(reg: R.State, db: Db, owned: multiset<nat>)
    requires R.Conserved(reg, owned)
    ensures var (reg', pinned) := EnsurePinned(reg, db);
            && pinned == db.(pin := pinned.pin) && pinned.pin.Some?
            && R.Conserved(reg', owned + (Optional(pinned.pin) - Optional(db.pin)))
            && Owned(pinned) == Owned(db) + (Optional(pinned.pin) - Optional(db.pin))
  {
    hide Owned, R.Conserved;
    var (_, pinned) := EnsurePinned(reg, db);
    PinnedOwned(db, pinned.pin);
    assert Optional(None) == multiset{};
    if db.pin.None? {
      R.RefConserves(reg, owned);
      assert Optional(pinned.pin) - multiset{} == Optional(pinned.pin);
    } else {
      assert Optional(pinned.pin) - Optional(db.pin) == multiset{};
      assert owned + multiset{} == owned;
    }
  }

  lemma PinnedOwned(db: Db, pin: Option<nat>)
    requires db.pin.Some? ==> pin == db.pin
    ensures Owned(db.(pin := pin)) == Owned(db) + (Optional(pin) - Optional(db.pin))
  {
    hide Total, ActionRefs;
    assert Work(db.(pin := pin)) == Work(db);
  }

  lemma PushBackConserves(open: seq<Db>, i: nat, reg: R.State, a: Action)
    requires i < |open| && R.Conserved(reg, Total(Owned, open) + multiset(a.refs))
    ensures var (reg', pinned) := EnsurePinned(reg, open[i]);
            R.Conserved(reg', Total(Owned, open[i := PushBack(pinned, a)]))
  {
    hide R.Conserved, Total, Owned, Scheduler.PushBack, EnsurePinned, Optional;
    var refs := multiset(a.refs);
    EnsurePinnedConserves(reg, open[i], Total(Owned, open) + refs);
    var (_, pinned) := EnsurePinned(reg, open[i]);
    var more := Optional(pinned.pin) - Optional(open[i].pin);
    PushBackOwned(pinned, a);
    Regroup(Total(Owned, open), refs, more);
    Regroup(Owned(open[i]), refs, more);
    Regroup(Owned(open[i]), more, refs);
    OwnedFollows(open, i, PushBack(pinned, a), more + refs);
  }

  /** The three references of a promise that its action abandons are lost. */
  lemma AbandonConserves(reg: R.State, owned: multiset<nat>)
    requires R.Conserved(reg, owned)
    ensures R.Conserved(Abandon(reg), owned) && |Abandon(reg).lost| == |reg.lost| + 3
  {
    hide R.Conserved;
    R.RefsConserve(reg, owned, 3);
    ReleaseOrderPermutes(R.Refs(reg, 3).1);
    R.LoseConserves(R.Refs(reg, 3).0, owned, ReleaseOrder(R.Refs(reg, 3).1));
  }

  lemma InsertAtConserves(w: World, i: nat, job: P.Job)
    requires i < |w.open| && R.Conserved(w.reg, Total(Owned, w.open)) && !TypeError(job.server)
    ensures R.Conserved(InsertAt(w, i, job).reg, Total(Owned, InsertAt(w, i, job).open))
  {
    CreateConserves(w, job, Total(Owned, w.open));
    PushBackConserves(w.open, i, CreateAction(w, job).0.reg, CreateAction(w, job).1);
  }

  lemma AbandonKeepsInv(w: World, job: P.Job)
    requires Inv(w)
    ensures Inv(w.(reg := Abandon(w.reg), requested := w.requested + [job]))
  {
    hide R.Conserved, Abandon;
    AbandonConserves(w.reg, Total(Owned, w.open));
  }

  lemma InsertAtKeepsInv(w: World, i: nat, job: P.Job)
    requires Inv(w) && i < |w.open| && !w.open[i].gced && JobTargets(job, Live(w.open))
    ensures Inv(InsertAt(w, i, job))
    ensures Live(InsertAt(w, i, job).open) == Live(w.open)
  {
    hide Inv, DbInv, R.Conserved, Total, Owned, R.Refs, Numbered, Fresh;
    if TypeError(job.server) {
      AbandonKeepsInv(w, job);
      return;
    }
    var (w1, a) := CreateAction(w, job);
    var db := w.open[i];
    var (reg, pinned) := EnsurePinned(w1.reg, db);
    InvConserves(w);
    NewActionFresh(w.actions, job, a.refs);
    InsertAtConserves(w, i, job);
    InvOf(w, i);
    InsertedInv(db, pinned, a);
    assert DbTargets(pinned, Live(w.open)) by {
      assert Work(pinned) == Work(db);
    }
    PushBackTargets(pinned, a, Live(w.open));
    ReplaceKeepsInv(w, i, PushBack(pinned, a), InsertAt(w, i, job));
  }

  lemma {:induction false} IndexOfLive(open: seq<Db>, id: nat)
    requires Ascending(open)
    requires id in Live(open)
    ensures IndexOf(open, id) < |open| && !open[IndexOf(open, id)].gced
  {
    var k :| 0 <= k < |open| && !open[k].gced && open[k].id == id;
    if k != 0 {
      assert open[1..][k - 1].id == id;
      assert id in Live(open[1..]);
      IndexOfLive(open[1..], id);
    }
  }

  lemma InsertKeepsInv(w: World, id: nat, job: P.Job)
    requires Inv(w) && id in Live(w.open) && JobTargets(job, Live(w.open))
    ensures Inv(Insert(w, id, job))
    ensures Live(Insert(w, id, job).open) == Live(w.open)
  {
    IndexOfLive(w.open, id);
    InsertAtKeepsInv(w, IndexOf(w.open, id), job);
  }

  /** What an insertion leaves alone: everything but the end of a queue, its history and the pin. */
  predicate Undisturbed(before: Db, after: Db) {
    && after == before.(queue := after.queue, inserted := after.inserted, pin := after.pin)
    && before.queue <= after.queue
  }

  lemma {:induction false} InsertAllKeepsInv(w: World, requests: seq<P.Request>)
    requires Inv(w) && RequestsTarget(requests, Live(w.open))
    ensures Inv(InsertAll(w, requests))
    ensures Live(InsertAll(w, requests).open) == Live(w.open)
    decreases |requests|
  {
    hide Inv, Insert, JobTargets;
    if requests != [] {
      InsertKeepsInv(w, requests[0].db, requests[0].job);
      InsertAllKeepsInv(Insert(w, requests[0].db, requests[0].job), requests[1..]);
    }
  }

  lemma {:induction false} InsertAllUndisturbed(w: World, requests: seq<P.Request>, i: nat)
    requires i < |w.open|
    ensures Undisturbed(w.open[i], InsertAll(w, requests).open[i])
    ensures InsertAll(w, requests).created == w.created && InsertAll(w, requests).closed == w.closed
    decreases |requests|
  {
    if requests != [] {
      var w1 := Insert(w, requests[0].db, requests[0].job);
      assert Undisturbed(w.open[i], w1.open[i]);
      InsertAllUndisturbed(w1, requests[1..], i);
    }
  }
}
