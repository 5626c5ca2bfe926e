// The registry references that the module loses, and the databases that it has deleted, accounted for
// over every possible run.

module Ledger {
  import opened Types
  import opened SocketStatus
  import opened Connector
  import opened Turns
  import opened Actions
  import opened Jobs
  import opened Scheduler
  import opened Invariants
  import opened Insertion
  import opened Ticks
  import opened Sums
  import P = Promise
  import R = Registry

  // ----- what is counted -----

  /** A prepare whose operation returned 0. */
  predicate Prepared(server: Server) {
    match server
    case ForAsync(AsyncServer(Prepare, _, ret, _)) => ret == 0
    case _ => false
  }

  function PreparedTicket(t: Ticket): nat {
    if Prepared(t.server) then 1 else 0
  }

  function PreparedNow(current: Option<Action>): nat {
    if current.Some? && current.value.hasFinished && Prepared(current.value.m.Server()) then 1 else 0
  }

  /** The prepares of a database that have finished successfully. */
  function Prepares(db: Db): nat {
    Sum(PreparedTicket, db.freed) + PreparedNow(db.current)
  }

  function RaisesTypeError(job: P.Job): nat {
    if TypeError(job.server) then 1 else 0
  }

  function AllPrepares(w: World): nat {
    Sum(Prepares, w.open) + Sum(Prepares, w.erased)
  }

  /** The calls of `execute` that ended in a type error. */
  function TypeErrors(w: World): nat {
    Sum(RaisesTypeError, w.requested)
  }

  /** One reference is lost for each successful prepare, three for each type error of `execute`. */
  predicate Accounted(w: World) {
    |w.reg.lost| == AllPrepares(w) + 3 * TypeErrors(w)
  }

  ghost function DbIds(db: Db): multiset<nat> {
    multiset{db.id}
  }

  /** A deleted database was collected, idle and closed. */
  predicate Deleted(db: Db) {
    DbInv(db) && db.gced && !HasWork(db) && !db.connected
  }

  /** Every database ever opened is either open or deleted, once. */
  ghost predicate Books(w: World) {
    && Accounted(w)
    && (forall k :: 0 <= k < |w.erased| ==> Deleted(w.erased[k]))
    && Total(DbIds, w.open) + Total(DbIds, w.erased) == R.UpTo(w.created)
  }

  /** The step changes neither the deleted databases nor which ones are open. */
  predicate SameBooks(w: World, w1: World) {
    && |w1.open| == |w.open| && (forall i :: 0 <= i < |w.open| ==> w1.open[i].id == w.open[i].id)
    && w1.erased == w.erased && w1.created == w.created
  }

  lemma {:induction false} SameIdsTotal(before: seq<Db>, after: seq<Db>)
    requires |after| == |before| && forall i :: 0 <= i < |before| ==> after[i].id == before[i].id
    ensures Total(DbIds, after) == Total(DbIds, before)
  {
    if before != [] {
      SameIdsTotal(before[1..], after[1..]);
    }
  }

  lemma BooksKept(w: World, w1: World)
    requires Books(w) && SameBooks(w, w1) && Accounted(w1)
    ensures Books(w1)
  {
    SameIdsTotal(w.open, w1.open);
  }

  // ----- insertion -----

  lemma RequestCounts(w: World, job: P.Job)
    ensures Sum(RaisesTypeError, w.requested + [job]) == Sum(RaisesTypeError, w.requested) + RaisesTypeError(job)
  {
    SumAppend(RaisesTypeError, w.requested, [job]);
  }

  lemma InsertAtAccounted(w: World, i: nat, job: P.Job)
    requires Accounted(w) && i < |w.open|
    ensures Accounted(InsertAt(w, i, job)) && SameBooks(w, InsertAt(w, i, job))
  {
    hide R.Refs, R.Ref, ReleaseOrder, Sum;
    RequestCounts(w, job);
    if TypeError(job.server) {
      AbandonCounts(w.reg);
    } else {
      var (w1, a) := CreateAction(w, job);
      var (reg, pinned) := EnsurePinned(w1.reg, w.open[i]);
      RefKeepsLost(w1.reg);
      SumUpdate(Prepares, w.open, i, PushBack(pinned, a));
    }
  }

  lemma AbandonCounts(reg: R.State)
    ensures |Abandon(reg).lost| == |reg.lost| + 3
  {
    RefsLength(reg, 3);
  }

  lemma RefKeepsLost(g: R.State)
    ensures R.Ref(g).0.lost == g.lost
  {
  }

  lemma {:induction false} InsertAllAccounted(w: World, requests: seq<P.Request>)
    requires Accounted(w)
    ensures Accounted(InsertAll(w, requests)) && SameBooks(w, InsertAll(w, requests))
    decreases |requests|
  {
    hide Accounted, InsertAt;
    if requests != [] {
      var i := IndexOf(w.open, requests[0].db);
      if i < |w.open| {
        InsertAtAccounted(w, i, requests[0].job);
      }
      InsertAllAccounted(Insert(w, requests[0].db, requests[0].job), requests[1..]);
    }
  }

  // ----- ticks -----

  lemma PopPrepares(db: Db)
    requires DbInv(db)
    ensures Prepares(Pop(db)) == Prepares(db)
  {
  }

  /** `Finish` of a successful prepare is entered once, and loses one reference. */
  lemma VisitedPrepares(db: Db, env: Env, reg: R.State)
    requires DbInv(db) && db.current.Some?
    ensures var v := VisitAction(db.current.value, db.socket, env);
            Prepares(Visited(db, v)) + |reg.lost| == Prepares(db) + |AfterFinish(reg, v).lost|
  {
    hide VisitAction, Sum, R.Ref;
    var v := VisitAction(db.current.value, db.socket, env);
    VisitKeepsInv(db.current.value, db.socket, env);
    RefKeepsLost(reg);
  }

  lemma AfterVisitAccounted(w: World, i: nat, env: Env)
    requires Accounted(w) && i < |w.open| && HasWork(w.open[i]) && DbInv(w.open[i])
    ensures Accounted(AfterVisit(w, i, env)) && SameBooks(w, AfterVisit(w, i, env))
  {
    hide DbInv, VisitAction, AfterFinish, Prepares, Sum;
    PopInv(w.open[i]);
    PopPrepares(w.open[i]);
    VisitedPrepares(Pop(w.open[i]), env, w.reg);
    SumUpdate(Prepares, w.open, i, Visited(Pop(w.open[i]), VisitAt(w, i, env)));
  }

  lemma ReleasedPrepares(db: Db)
    requires db.current.Some? && db.current.value.hasFinished
    ensures Prepares(Released(db)) == Prepares(db)
  {
    SumAppend(PreparedTicket, db.freed, [TicketOf(db.current.value)]);
  }

  lemma ReleaseAccounted(w: World, i: nat)
    requires Accounted(w) && i < |w.open| && w.open[i].current.Some? && w.open[i].current.value.hasFinished
    ensures Accounted(Release(w, i)) && SameBooks(w, Release(w, i))
  {
    hide Prepares, Sum, R.UnrefAll;
    ReleasedPrepares(w.open[i]);
    SumUpdate(Prepares, w.open, i, Released(w.open[i]));
  }

  lemma ConcludeAccounted(w: World, i: nat, requests: seq<P.Request>, verdict: Verdict)
    requires Accounted(w) && i < |w.open|
    requires verdict == Done ==> w.open[i].current.Some? && w.open[i].current.value.hasFinished
    ensures var w1 := Conclude(w, i, requests, verdict).w; Accounted(w1) && SameBooks(w, w1)
  {
    hide Accounted, Release, InsertAll;
    InsertAllAccounted(w, requests);
    InsertAllUndisturbed(w, requests, i);
    if verdict == Done {
      ReleaseAccounted(InsertAll(w, requests), i);
    }
  }

  lemma RunTickAccounted(w: World, i: nat, env: Env)
    requires Accounted(w) && i < |w.open| && HasWork(w.open[i]) && DbInv(w.open[i])
    ensures var w1 := RunTick(w, i, env).w; Accounted(w1) && SameBooks(w, w1)
  {
    hide Accounted, AfterVisit, Conclude, VisitAt, DbInv;
    AfterVisitAccounted(w, i, env);
    AfterVisitDone(w, i, env);
    ConcludeAccounted(AfterVisit(w, i, env), i, VisitAt(w, i, env).requests, VisitAt(w, i, env).verdict);
  }

  lemma EraseBooks(w: World, i: nat)
    requires Inv(w) && Books(w) && i < |w.open| && w.open[i].gced && !HasWork(w.open[i])
    ensures Books(Erase(w, i))
  {
    hide Inv, DbInv, HasWork, AllPrepares, Sum, Total, DbIds, R.UpTo;
    EraseDeletes(w, i);
    EraseCounts(w, i);
    EraseIds(w, i);
  }

  lemma EraseDeletes(w: World, i: nat)
    requires Inv(w) && i < |w.open| && w.open[i].gced && !HasWork(w.open[i])
    ensures Deleted(w.open[i])
  {
    hide Inv, DbInv, HasWork;
    InvOf(w, i);
    EraseKeepsInv(w, i);
  }

  lemma EraseCounts(w: World, i: nat)
    requires i < |w.open|
    ensures AllPrepares(Erase(w, i)) == AllPrepares(w)
  {
    hide Prepares;
    SumSplit(Prepares, w.open, i);
    SumAppend(Prepares, w.open[..i], w.open[i + 1..]);
    SumAppend(Prepares, w.erased, [w.open[i]]);
  }

  lemma EraseIds(w: World, i: nat)
    requires i < |w.open|
    ensures Total(DbIds, Erase(w, i).open) + Total(DbIds, Erase(w, i).erased)
         == Total(DbIds, w.open) + Total(DbIds, w.erased)
  {
    hide Total, DbIds;
    TotalRemove(DbIds, w.open, i);
    TotalOfOne(DbIds, w.erased, w.open[i]);
    Move(Total(DbIds, w.open), Total(DbIds, Erase(w, i).open), Total(DbIds, w.erased), DbIds(w.open[i]));
  }

  lemma {:induction false} TickFromBooks(w: World, i: nat, env: nat -> Env, unready: bool)
    requires Inv(w) && Books(w) && i <= |w.open|
    ensures Books(TickFrom(w, i, env, unready).w)
    decreases |w.open| - i
  {
    hide Inv, RunTick, Accounted, SameBooks, DbInv, Books;
    BooksAccount(w);
    if i == |w.open| {
    } else if HasWork(w.open[i]) {
      var t := RunTick(w, i, env(w.open[i].id));
      InvOf(w, i);
      RunTickAccounted(w, i, env(w.open[i].id));
      BooksKept(w, t.w);
      RunTickKeepsInv(w, i, env(w.open[i].id));
      if !t.threw {
        TickFromBooks(t.w, i + 1, env, true);
      }
    } else if w.open[i].gced {
      EraseBooks(w, i);
      EraseKeepsInv(w, i);
      TickFromBooks(Erase(w, i), i, env, unready);
    } else {
      TickFromBooks(w, i + 1, env, unready);
    }
  }

  // ----- the other steps -----

  lemma NewPrepares(id: nat, reference: nat)
    ensures Prepares(NewDb(id, reference)) == 0 && NewDb(id, reference).id == id
  {
  }

  lemma OpenBooks(w: World)
    requires Books(w)
    ensures Books(OpenDatabase(w))
  {
    hide Deleted, R.Ref, Total, NewDb, Prepares;
    var db := NewDb(w.created + 1, R.Ref(w.reg).1);
    RefKeepsLost(w.reg);
    NewPrepares(w.created + 1, R.Ref(w.reg).1);
    SumAppend(Prepares, w.open, [db]);
    TotalOfOne(DbIds, w.open, db);
    Regroup(Total(DbIds, w.open), multiset{w.created + 1}, Total(DbIds, w.erased));
    Regroup(Total(DbIds, w.open), Total(DbIds, w.erased), multiset{w.created + 1});
    assert OpenDatabase(w).open == w.open + [db];
  }

  lemma CollectAccounted(w: World, i: nat, waits: seq<Wait>)
    requires Accounted(w) && i < |w.open|
    ensures Accounted(CollectAt(w, i, waits)) && SameBooks(w, CollectAt(w, i, waits))
  {
    hide R.Refs, Sum, ReleaseOrder;
    var db := w.open[i];
    var (_, a) := CreateAction(w.(reg := UnrefOptional(w.reg, db.reference)), CloseJob(waits));
    SumUpdate(Prepares, w.open, i, PushBack(db.(reference := None, gced := true), a));
  }

  lemma ChainAccounted(w: World, i: nat, k: nat, c: P.Command)
    requires Accounted(w) && i < |w.open| && k < |Work(w.open[i])|
    ensures Accounted(ChainAt(w, i, k, c)) && SameBooks(w, ChainAt(w, i, k, c))
  {
    hide P.Apply, Sum, InsertAll, Work;
    var r := P.Apply(Work(w.open[i])[k].p, c);
    var db := WithPromise(w.open[i], k, r.p);
    SumUpdate(Prepares, w.open, i, db);
    var w1 := w.(open := w.open[i := db]);
    assert SameBooks(w, w1);
    InsertAllAccounted(w1, r.requests);
  }

  lemma StepBooks(w: World, event: Event)
    requires Inv(w) && Books(w) && Enabled(w, event)
    ensures Books(Step(w, event))
  {
    hide Inv, Accounted, InsertAt, TickFrom, ChainAt, CollectAt, OpenDatabase, Books, SameBooks, JobTargets;
    assert Accounted(w) by {
      BooksAccount(w);
    }
    match event
    case Open => OpenBooks(w);
    case Submit(db, job) =>
      if IndexOf(w.open, db) < |w.open| {
        InsertAtAccounted(w, IndexOf(w.open, db), job);
        BooksKept(w, Step(w, event));
      }
    case Chain(db, k, c) =>
      ChainAccounted(w, IndexOf(w.open, db), k, c);
      BooksKept(w, Step(w, event));
    case Collect(db, waits) =>
      CollectAccounted(w, IndexOf(w.open, db), waits);
      BooksKept(w, Step(w, event));
    case Tick(env) => TickFromBooks(w, 0, env, false);
  }

  lemma BooksAccount(w: World)
    requires Books(w)
    ensures Accounted(w)
  {
  }

  lemma EmptyBooks(w: World)
    requires w.open == [] && w.erased == [] && w.requested == [] && w.reg.lost == [] && w.created == 0
    ensures Books(w)
  {
    hide Deleted, Prepares, RaisesTypeError;
    assert AllPrepares(w) == 0 && TypeErrors(w) == 0;
  }

  lemma StartBooks()
    ensures Books(START)
  {
    hide Books;
    EmptyBooks(START);
  }

  /** In every possible run each lost reference is accounted for, and each database ever opened is open
      or was deleted idle, once. */
  lemma {:induction false} RunBooks(w: World, events: seq<Event>)
    requires Inv(w) && Books(w) && Possible(w, events)
    ensures Books(Run(w, events))
    decreases |events|
  {
    hide Inv, Step, Enabled, Books;
    if events != [] {
      StepBooks(w, events[0]);
      StepKeepsInv(w, events[0]);
      RunBooks(Step(w, events[0]), events[1..]);
    }
  }
}
