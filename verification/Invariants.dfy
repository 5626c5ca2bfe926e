// What every possible run of the module keeps.

module Invariants {
  import opened Types
  import opened SocketStatus
  import opened Actions
  import opened Jobs
  import opened Scheduler
  import opened Sums
  import P = Promise
  import R = Registry

  // ----- one database -----

  function Tickets(actions: seq<Action>): seq<Ticket> {
    seq(|actions|, k requires 0 <= k < |actions| => TicketOf(actions[k]))
  }

  function Ids(tickets: seq<Ticket>): seq<nat> {
    seq(|tickets|, k requires 0 <= k < |tickets| => tickets[k].id)
  }

  /** Nothing is lost, duplicated or reordered: what was inserted is what was freed, then the running
      action, then the queue. Actions are numbered in the order of insertion. */
  predicate Ordered(db: Db) {
    && db.inserted == db.freed + Tickets(Work(db))
    && (forall j, k :: 0 <= j < k < |db.inserted| ==> db.inserted[j].id < db.inserted[k].id)
  }

  predicate Numbered(db: Db, actions: nat) {
    forall k :: 0 <= k < |db.inserted| ==> db.inserted[k].id < actions
  }

  /** Every freed action's promise ended as its server's answers demand. */
  predicate SettledAsExpected(db: Db) {
    && |db.outcomes| == |db.freed|
    && forall k :: 0 <= k < |db.freed| ==> db.outcomes[k] == Expected(db.freed[k].server)
  }

  /** `Finish` was entered once for each freed action, in order, and for the running one when it is
      marked finished: it is freed before anything else runs. */
  predicate FinishedOnce(db: Db) {
    db.finishes == Ids(db.freed)
                   + if db.current.Some? && db.current.value.hasFinished then [db.current.value.id] else []
  }

  /** An action that has not started. */
  predicate Fresh(a: Action) {
    && a.m == Init(a.m.Server()) && !a.hasFinished
    && P.Quiescent(a.p) && a.p.result.None?
  }

  predicate Running(db: Db) {
    && (forall k :: 0 <= k < |db.queue| ==> Fresh(db.queue[k]))
    && (if db.current.Some? then ActionInv(db.current.value, db.socket) else db.socket == 0)
  }

  /** The non-blocking calls of the connection: each breach of the discipline was preceded by an
      exception of a query's rejection handler, and no others exist. */
  predicate Disciplined(db: Db) {
    && Suspended(db.calls) == (db.current.Some? && CallSuspended(db.current.value.m, db.socket))
    && Violations(db.calls) + (if db.current.Some? && Interrupted(db.current.value, db.socket) then 1 else 0)
       == db.interruptions
  }

  predicate IsClose(a: Action) {
    ClosesConnection(a.m.Server()) && a.p == P.PENDING
  }

  /** A database that can still be used is connected, and pinned exactly as long as it has work, none of
      which closes it. A collected one has nothing left to do but to close its connection. */
  predicate Lifetime(db: Db) {
    if !db.gced then
      && db.connected && db.reference.Some?
      && (db.pin.Some? <==> HasWork(db))
      && forall k :: 0 <= k < |Work(db)| ==> !ClosesConnection(Work(db)[k].m.Server())
    else
      && db.reference.None? && db.pin.None?
      && (if db.connected then |Work(db)| == 1 && IsClose(Work(db)[0]) else !HasWork(db))
  }

  predicate DbInv(db: Db) {
    && Ordered(db)
    && SettledAsExpected(db)
    && FinishedOnce(db)
    && Running(db)
    && Disciplined(db)
    && Lifetime(db)
  }

  // ----- the whole module -----

  ghost function Optional(r: Option<nat>): multiset<nat> {
    if r.None? then multiset{} else multiset{r.value}
  }

  ghost function ActionRefs(a: Action): multiset<nat> {
    multiset(a.refs)
  }

  /** The registry references held by a database and its pending actions. */
  ghost function Owned(db: Db): multiset<nat> {
    Optional(db.reference) + Optional(db.pin) + Total(ActionRefs, Work(db))
  }

  ghost function Connection(db: Db): multiset<nat> {
    if db.connected then multiset{db.id} else multiset{}
  }

  predicate Ascending(open: seq<Db>) {
    forall i, j :: 0 <= i < j < |open| ==> open[i].id < open[j].id
  }

  predicate Identified(w: World) {
    && Ascending(w.open)
    && (forall i :: 0 <= i < |w.open| ==> 1 <= w.open[i].id <= w.created && Numbered(w.open[i], w.actions))
  }

  predicate AllInv(open: seq<Db>) {
    forall i :: 0 <= i < |open| ==> DbInv(open[i])
  }

  /** `Conserved`: every registry reference is either released or held by exactly one owner. And every
      connection ever opened is either still open, in one open database, or was closed once. */
  ghost predicate Inv(w: World) {
    && Identified(w)
    && AllInv(w.open)
    && AllTarget(w.open, Live(w.open))
    && R.Conserved(w.reg, Total(Owned, w.open))
    && multiset(w.closed) + Total(Connection, w.open) == R.UpTo(w.created)
  }

  lemma StartInv()
    ensures Inv(START)
  {
  }

  lemma LiveUpdate(open: seq<Db>, i: nat, db: Db)
    requires i < |open| && db.id == open[i].id && db.gced == open[i].gced
    ensures Live(open[i := db]) == Live(open)
  {
    var after := open[i := db];
    forall id ensures id in Live(after) <==> id in Live(open) {
      if id in Live(open) {
        var j :| 0 <= j < |open| && !open[j].gced && open[j].id == id;
        assert after[j].id == id && !after[j].gced;
      }
      if id in Live(after) {
        var j :| 0 <= j < |after| && !after[j].gced && after[j].id == id;
        assert open[j].id == id && !open[j].gced;
      }
    }
  }

  lemma AllInvUpdate(open: seq<Db>, i: nat, db: Db)
    requires i < |open| && AllInv(open) && DbInv(db)
    ensures AllInv(open[i := db])
  {
    var after := open[i := db];
    forall j | 0 <= j < |after| ensures DbInv(after[j]) {
      assert DbInv(if j == i then db else open[j]);
    }
  }

  lemma AllTargetUpdate(open: seq<Db>, i: nat, db: Db, live: set<nat>)
    requires i < |open| && AllTarget(open, live) && DbTargets(db, live)
    ensures AllTarget(open[i := db], live)
  {
    var after := open[i := db];
    forall j | 0 <= j < |after| ensures DbTargets(after[j], live) {
      assert DbTargets(if j == i then db else open[j], live);
    }
  }

  lemma IdentifiedUpdate(w: World, i: nat, db: Db, w1: World)
    requires Identified(w) && i < |w.open| && w.actions <= w1.actions && w1.created == w.created
    requires db.id == w.open[i].id && Numbered(db, w1.actions) && w1.open == w.open[i := db]
    ensures Identified(w1)
  {
    var after := w.open[i := db];
    forall j | 0 <= j < |after| ensures 1 <= after[j].id <= w.created && Numbered(after[j], w1.actions) {
      assert Numbered(w.open[j], w.actions);
    }
  }

  /** Replacing database i by `db`, with the registry adjusted, keeps the invariant. */
  lemma ReplaceKeepsInv(w: World, i: nat, db: Db, w1: World)
    requires Inv(w) && i < |w.open| && w.actions <= w1.actions
    requires w1.open == w.open[i := db] && w1.created == w.created
    requires db.id == w.open[i].id && db.gced == w.open[i].gced
    requires DbInv(db) && Numbered(db, w1.actions) && DbTargets(db, Live(w.open))
    requires R.Conserved(w1.reg, Total(Owned, w1.open))
    requires multiset(w1.closed) + Connection(db) == multiset(w.closed) + Connection(w.open[i])
    ensures Inv(w1) && Live(w1.open) == Live(w.open)
  {
    LiveUpdate(w.open, i, db);
    AllInvUpdate(w.open, i, db);
    AllTargetUpdate(w.open, i, db, Live(w.open));
    IdentifiedUpdate(w, i, db, w1);
    TotalUpdate(Connection, w.open, i, db);
    Exchange(Total(Connection, w.open), Total(Connection, w.open[i := db]),
             Connection(w.open[i]), Connection(db), multiset(w.closed), multiset(w1.closed));
  }

  /** What the invariant says of one database. */
  lemma InvOf(w: World, i: nat)
    requires Inv(w) && i < |w.open|
    ensures DbInv(w.open[i]) && DbTargets(w.open[i], Live(w.open)) && Numbered(w.open[i], w.actions)
  {
  }

  lemma InvAscending(w: World)
    requires Inv(w)
    ensures Ascending(w.open)
  {
  }

  lemma InvConserves(w: World)
    requires Inv(w)
    ensures R.Conserved(w.reg, Total(Owned, w.open))
  {
  }
}
