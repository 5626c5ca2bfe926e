// src/actions/preparestatement.h:23-28, src/actions/preparestatement_close.h:22-24,
// src/luapreparedstatement_library.cpp:19-27, 36-45 and src/main.cpp:72-74: the prepared statements of
// one database. A handle is a pointer: once closed, it may come back for another statement.

module Statements {
  import opened Types

  type Pointer = nat

  // ----- stmts.erase(std::remove(begin, end, stmt)) -----

  function Filter(s: seq<Pointer>, p: Pointer): (r: seq<Pointer>)
    ensures |r| <= |s|
  {
    if s == [] then [] else (if s[0] == p then [] else [s[0]]) + Filter(s[1..], p)
  }

  lemma {:induction false} FilterLength(s: seq<Pointer>, p: Pointer)
    ensures |Filter(s, p)| == |s| - multiset(s)[p]
  {
    if s != [] {
      FilterLength(s[1..], p);
      assert s == [s[0]] + s[1..];
    }
  }

  /** `std::remove` leaves the elements kept in front, and the last elements as they were. */
  function Compacted(s: seq<Pointer>, p: Pointer): seq<Pointer> {
    Filter(s, p) + s[|Filter(s, p)|..]
  }

  /** `erase` with one iterator takes out one element; at `end()` its behaviour is undefined. */
  function EraseRemove(s: seq<Pointer>, p: Pointer): Option<seq<Pointer>> {
    var newEnd := |Filter(s, p)|;
    if newEnd == |s| then None
    else Some(Compacted(s, p)[..newEnd] + Compacted(s, p)[newEnd + 1..])
  }

  /** The one-iterator form removes the handle, and nothing else, exactly when it occurs once; it is
      undefined exactly when the handle does not occur. */
  lemma EraseRemoveExactly(s: seq<Pointer>, p: Pointer)
    ensures EraseRemove(s, p) == Some(Filter(s, p)) <==> multiset(s)[p] == 1
    ensures EraseRemove(s, p) == None <==> multiset(s)[p] == 0
  {
    var kept := Filter(s, p);
    FilterLength(s, p);
    if |kept| != |s| {
      assert Compacted(s, p)[..|kept|] == kept;
      assert |EraseRemove(s, p).value| == |s| - 1;
      if multiset(s)[p] == 1 {
        assert EraseRemove(s, p).value == kept;
      }
    }
  }

  lemma {:induction false} FilterAppend(s: seq<Pointer>, x: Pointer, p: Pointer)
    ensures Filter(s + [x], p) == Filter(s, p) + if x == p then [] else [x]
  {
    if s == [] {
      assert [x][1..] == [];
    } else {
      hide Filter;
      FilterAppend(s[1..], x, p);
      FilterCons(s[0], s[1..], p);
      FilterCons(s[0], s[1..] + [x], p);
      assert [s[0]] + s[1..] == s && [s[0]] + (s[1..] + [x]) == s + [x];
    }
  }

  /** The loop of `std::remove`. */
  method Remove(s: seq<Pointer>, p: Pointer) returns (t: seq<Pointer>, newEnd: nat)
    ensures t == Compacted(s, p) && newEnd == |Filter(s, p)| && |t| == |s|
  {
    t, newEnd := s, 0;
    var first := 0;
    while first < |s|
      invariant 0 <= newEnd <= first <= |s| == |t|
      invariant newEnd == |Filter(s[..first], p)| && t[..newEnd] == Filter(s[..first], p)
      invariant t[newEnd..] == s[newEnd..]
    {
      assert s[..first + 1] == s[..first] + [s[first]];
      FilterAppend(s[..first], s[first], p);
      assert t[first] == t[newEnd..][first - newEnd];
      if t[first] != p {
        t := t[newEnd := t[first]];
        newEnd := newEnd + 1;
      }
      first := first + 1;
    }
    assert s[..first] == s;
    assert t == t[..newEnd] + t[newEnd..];
  }

  // ----- the statements of one database over time -----

  /** A statement, numbered in the order of `prepare` calls, and its handle. */
  datatype Statement = Statement(serial: nat, p: Pointer)

  /** The actions that touch a handle. `ok`: the server accepts the statement. */
  datatype Operation = Prepare(s: Statement, ok: bool) | Execute(s: Statement) | Close(s: Statement)

  /** `owner`: the statement that each allocated handle belongs to. `usable`: those whose userdata has
      not been collected. `broken`: a handle was used after its close, or `erase(end())` was reached. The
      histories are the statements that the server accepted, those it refused, those closed, and those
      that were open when the database was collected. */
  datatype State = State(
    queue: seq<Operation>, stmts: seq<Pointer>, owner: map<Pointer, nat>, usable: set<Statement>,
    serials: nat, broken: bool, collected: bool,
    prepared: seq<Statement>, refused: seq<Statement>, closed: seq<Statement>, orphaned: seq<Statement>)

  const EMPTY := State([], [], map[], {}, 0, false, false, [], [], [], [])

  /** Lua code prepares, executes; the collector takes the userdata of a statement, or of the database; the
      front action finishes. */
  datatype Event =
    | DoPrepare(p: Pointer, ok: bool)
    | DoExecute(s: Statement)
    | Collect(s: Statement)
    | CollectDatabase
    | Finish

  /** `mysql_stmt_init` returns a handle that is not in use. Code needs the userdata to execute, and the
      collector takes it once. The database can be collected when it is idle, whether or not statements of
      it can still be used: they do not keep it alive. What is done with them later is not modelled. */
  predicate Enabled(st: State, event: Event) {
    && !st.collected
    && match event
       case DoPrepare(p, _) => p !in st.owner
       case DoExecute(s) => s in st.usable
       case Collect(s) => s in st.usable
       case CollectDatabase => st.queue == []
       case Finish => st.queue != []
  }

  predicate Owns(st: State, s: Statement) {
    s.p in st.owner && st.owner[s.p] == s.serial
  }

  function PrepareFinished(st: State, s: Statement, ok: bool): State {
    if ok then st.(stmts := st.stmts + [s.p], prepared := st.prepared + [s], usable := st.usable + {s})
    else st.(refused := st.refused + [s])
  }

  function CloseFinished(st: State, s: Statement): State {
    var erased := EraseRemove(st.stmts, s.p);
    st.(stmts := if erased.Some? then erased.value else st.stmts,
        broken := st.broken || erased.None?, closed := st.closed + [s], owner := st.owner - {s.p})
  }

  function FinishFront(st: State): State
    requires st.queue != []
  {
    var rest := st.(queue := st.queue[1..], broken := st.broken || !Owns(st, st.queue[0].s));
    match st.queue[0]
    case Prepare(s, ok) => PrepareFinished(rest, s, ok)
    case Execute(_) => rest
    case Close(s) => CloseFinished(rest, s)
  }

  function Step(st: State, event: Event): State {
    match event
    case DoPrepare(p, ok) =>
      st.(queue := st.queue + [Prepare(Statement(st.serials, p), ok)], owner := st.owner[p := st.serials],
          serials := st.serials + 1)
    case DoExecute(s) => st.(queue := st.queue + [Execute(s)])
    case Collect(s) => st.(queue := st.queue + [Close(s)], usable := st.usable - {s})
    case CollectDatabase => st.(collected := true, stmts := [], orphaned := Open(st.prepared, st.closed))
    case Finish => if st.queue == [] then st else FinishFront(st)
  }

  predicate Possible(st: State, events: seq<Event>)
    decreases |events|
  {
    events == [] || (Enabled(st, events[0]) && Possible(Step(st, events[0]), events[1..]))
  }

  function Run(st: State, events: seq<Event>): State
    decreases |events|
  {
    if events == [] then st else Run(Step(st, events[0]), events[1..])
  }

  // ----- what every run keeps -----

  /** The statements prepared and not closed, in the order in which they were prepared. */
  function Open(prepared: seq<Statement>, closed: seq<Statement>): seq<Statement> {
    if prepared == [] then []
    else (if prepared[0] in closed then [] else [prepared[0]]) + Open(prepared[1..], closed)
  }

  function Pointers(ss: seq<Statement>): seq<Pointer> {
    if ss == [] then [] else [ss[0].p] + Pointers(ss[1..])
  }

  predicate IsOpen(st: State, s: Statement) {
    s in st.prepared && s !in st.closed
  }

  predicate AscendingSerials(prepared: seq<Statement>) {
    forall i, j :: 0 <= i < j < |prepared| ==> prepared[i].serial < prepared[j].serial
  }

  /** The list of the database is the open statements in order; each was prepared once and closed at
      most once. */
  predicate ListAgrees(st: State) {
    && st.stmts == Pointers(Open(st.prepared, st.closed))
    && AscendingSerials(st.prepared)
    && (forall i, j :: 0 <= i < j < |st.closed| ==> st.closed[i] != st.closed[j])
    && (forall s <- st.closed :: s in st.prepared)
  }

  /** Open statements own their handles, so no two share one. */
  predicate HandlesOwned(st: State) {
    && (forall s <- st.prepared :: s.serial < st.serials && (s !in st.closed ==> Owns(st, s)))
    && (forall p <- st.owner :: st.owner[p] < st.serials)
  }

  predicate LaterThanAll(s: Statement, prepared: seq<Statement>) {
    forall i :: 0 <= i < |prepared| ==> prepared[i].serial < s.serial
  }

  /** Every queued action will find its handle in use by its own statement: a prepare comes before all
      that executes or closes the statement, and a close after. */
  predicate QueueSound(st: State) {
    && (forall k :: 0 <= k < |st.queue| ==> Owns(st, st.queue[k].s))
    && (forall k :: 0 <= k < |st.queue| ==> (st.queue[k].Prepare? <==> !IsOpen(st, st.queue[k].s)))
    && (forall k :: 0 <= k < |st.queue| && st.queue[k].Prepare? ==> LaterThanAll(st.queue[k].s, st.prepared))
    && (forall j, k :: 0 <= j < k < |st.queue| && st.queue[j].Prepare? && st.queue[k].Prepare?
                       ==> st.queue[j].s.serial < st.queue[k].s.serial)
    && (forall j, k :: 0 <= j < k < |st.queue| && st.queue[j].Close? ==> st.queue[k].s != st.queue[j].s)
  }

  /** An open statement can be used, or else its close is queued, never both. */
  predicate Usable(st: State) {
    && (forall s <- st.usable :: IsOpen(st, s) && Operation.Close(s) !in st.queue)
    && (forall s <- st.prepared :: s !in st.closed && s !in st.usable ==> Operation.Close(s) in st.queue)
  }

  /** Before the database is collected. */
  predicate Inv(st: State) {
    && !st.broken && !st.collected && st.orphaned == []
    && ListAgrees(st) && HandlesOwned(st) && QueueSound(st) && Usable(st)
  }

  /** The state when the database was last there. */
  function Last(st: State): State {
    if st.collected then st.(collected := false, stmts := Pointers(st.orphaned), orphaned := []) else st
  }

  /** At any time: once the database is collected its list is gone, with the statements still open. */
  predicate Sound(st: State) {
    && Inv(Last(st))
    && (st.collected ==> st.queue == [] && st.stmts == [] && st.orphaned == Open(st.prepared, st.closed))
  }

  // ----- lists -----

  lemma {:induction false} OpenAppend(prepared: seq<Statement>, s: Statement, closed: seq<Statement>)
    requires s !in closed
    ensures Open(prepared + [s], closed) == Open(prepared, closed) + [s]
  {
    if prepared == [] {
      assert [s][1..] == [];
    } else {
      assert (prepared + [s])[1..] == prepared[1..] + [s];
      OpenAppend(prepared[1..], s, closed);
    }
  }

  lemma {:induction false} OpenMembers(prepared: seq<Statement>, closed: seq<Statement>)
    ensures forall s :: s in Open(prepared, closed) <==> s in prepared && s !in closed
  {
    if prepared != [] {
      OpenMembers(prepared[1..], closed);
    }
  }

  /** No other open statement has the handle of s. */
  predicate Alone(s: Statement, prepared: seq<Statement>, closed: seq<Statement>) {
    forall t <- prepared :: t !in closed && t.p == s.p ==> t == s
  }

  lemma {:induction false} PointersAppend(ss: seq<Statement>, s: Statement)
    ensures Pointers(ss + [s]) == Pointers(ss) + [s.p]
  {
    if ss == [] {
      assert [s][1..] == [];
    } else {
      assert (ss + [s])[1..] == ss[1..] + [s];
      PointersAppend(ss[1..], s);
    }
  }

  lemma OpenCons(prepared: seq<Statement>, closed: seq<Statement>)
    requires prepared != []
    ensures var rest := Open(prepared[1..], closed);
            && (prepared[0] in closed ==> Open(prepared, closed) == rest)
            && (prepared[0] !in closed ==> && Open(prepared, closed) == [prepared[0]] + rest
                                           && Pointers(Open(prepared, closed)) == [prepared[0].p] + Pointers(rest))
  {
    assert ([prepared[0]] + Open(prepared[1..], closed))[1..] == Open(prepared[1..], closed);
  }

  lemma AloneInRest(s: Statement, prepared: seq<Statement>, closed: seq<Statement>)
    requires prepared != [] && Alone(s, prepared, closed)
    ensures Alone(s, prepared[1..], closed)
    ensures prepared[0] !in closed && prepared[0].p == s.p ==> prepared[0] == s
  {
  }

  /** Closing one statement takes its handle out of the list, and only that. */
  lemma {:induction false} FilterOpen(prepared: seq<Statement>, closed: seq<Statement>, s: Statement)
    requires Alone(s, prepared, closed)
    ensures Filter(Pointers(Open(prepared, closed)), s.p) == Pointers(Open(prepared, closed + [s]))
  {
    if prepared != [] {
      hide *;
      AloneInRest(s, prepared, closed);
      FilterOpen(prepared[1..], closed, s);
      OpenCons(prepared, closed);
      OpenCons(prepared, closed + [s]);
      assert prepared[0] in closed + [s] <==> prepared[0] in closed || prepared[0] == s;
      FilterCons(prepared[0].p, Pointers(Open(prepared[1..], closed)), s.p);
    }
  }

  lemma FilterCons(x: Pointer, s: seq<Pointer>, p: Pointer)
    ensures Filter([x] + s, p) == if x == p then Filter(s, p) else [x] + Filter(s, p)
  {
    assert ([x] + s)[1..] == s;
  }

  lemma AscendingCons(prepared: seq<Statement>, s: Statement)
    requires prepared != [] && AscendingSerials(prepared)
    ensures AscendingSerials(prepared[1..]) && prepared[0] !in prepared[1..]
    ensures s in prepared <==> s == prepared[0] || s in prepared[1..]
  {
  }

  lemma {:induction false} OccursOnce(prepared: seq<Statement>, closed: seq<Statement>, s: Statement)
    requires Alone(s, prepared, closed) && AscendingSerials(prepared)
    ensures multiset(Pointers(Open(prepared, closed)))[s.p] == if s in prepared && s !in closed then 1 else 0
  {
    if prepared != [] {
      hide *;
      AloneInRest(s, prepared, closed);
      AscendingCons(prepared, s);
      OccursOnce(prepared[1..], closed, s);
      OpenCons(prepared, closed);
      CountCons(prepared[0].p, Pointers(Open(prepared[1..], closed)), s.p);
    }
  }

  lemma CountCons(x: Pointer, s: seq<Pointer>, p: Pointer)
    ensures multiset([x] + s)[p] == multiset(s)[p] + if x == p then 1 else 0
  {
  }

  lemma OwnersAlone(st: State, s: Statement)
    requires HandlesOwned(st) && Owns(st, s)
    ensures Alone(s, st.prepared, st.closed)
  {
  }

  // ----- steps -----

  lemma PrepareKeepsInv(st: State, p: Pointer, ok: bool)
    requires Inv(st) && p !in st.owner
    ensures Inv(Step(st, DoPrepare(p, ok)))
  {
    var after := Step(st, DoPrepare(p, ok));
    assert !after.broken && !after.collected && after.orphaned == [];
    assert ListAgrees(after) && HandlesOwned(after);
    assert Usable(after) by {
      hide QueueSound, Owns, Open, Pointers;
    }
    PreparedQueue(st, p, ok);
  }

  lemma PreparedQueue(st: State, p: Pointer, ok: bool)
    requires HandlesOwned(st) && QueueSound(st) && p !in st.owner
    ensures QueueSound(Step(st, DoPrepare(p, ok)))
  {
  }

  lemma AppendedQueue(st: State, op: Operation, usable: set<Statement>)
    requires QueueSound(st) && !op.Prepare? && Owns(st, op.s) && IsOpen(st, op.s)
    requires Operation.Close(op.s) !in st.queue
    ensures QueueSound(st.(queue := st.queue + [op], usable := usable))
  {
  }

  lemma UsableOwns(st: State, s: Statement)
    requires HandlesOwned(st) && Usable(st) && s in st.usable
    ensures Owns(st, s) && IsOpen(st, s) && Operation.Close(s) !in st.queue
  {
  }

  lemma ExecuteKeepsInv(st: State, s: Statement)
    requires Inv(st) && s in st.usable
    ensures Inv(Step(st, DoExecute(s)))
  {
    hide QueueSound, Open, Pointers, AscendingSerials;
    UsableOwns(st, s);
    AppendedQueue(st, Execute(s), st.usable);
  }

  lemma CollectKeepsInv(st: State, s: Statement)
    requires Inv(st) && s in st.usable
    ensures Inv(Step(st, Collect(s)))
  {
    hide QueueSound, Open, Pointers, AscendingSerials;
    UsableOwns(st, s);
    AppendedQueue(st, Operation.Close(s), st.usable - {s});
  }

  lemma FinishPrepareKeepsInv(st: State)
    requires Inv(st) && st.queue != [] && st.queue[0].Prepare?
    ensures Inv(FinishFront(st))
  {
    hide QueueSound, Usable;
    var s := st.queue[0].s;
    FinishedPrepareQueue(st);
    FinishedPrepareUsable(st);
    assert LaterThanAll(s, st.prepared) && Owns(st, s) by {
      FrontOf(st);
    }
    if st.queue[0].ok {
      OpenAppend(st.prepared, s, st.closed);
      PointersAppend(Open(st.prepared, st.closed), s);
    }
  }

  lemma FrontOf(st: State)
    requires QueueSound(st) && st.queue != []
    ensures Owns(st, st.queue[0].s)
    ensures st.queue[0].Prepare? ==> LaterThanAll(st.queue[0].s, st.prepared)
    ensures !st.queue[0].Prepare? ==> IsOpen(st, st.queue[0].s)
  {
  }

  lemma FinishedPrepareQueue(st: State)
    requires ListAgrees(st) && QueueSound(st) && st.queue != [] && st.queue[0].Prepare?
    ensures QueueSound(FinishFront(st))
  {
    hide Open, Pointers;
  }

  lemma FinishedPrepareUsable(st: State)
    requires ListAgrees(st) && QueueSound(st) && Usable(st) && st.queue != [] && st.queue[0].Prepare?
    ensures Usable(FinishFront(st))
  {
  }

  lemma FinishExecuteKeepsInv(st: State)
    requires Inv(st) && st.queue != [] && st.queue[0].Execute?
    ensures Inv(FinishFront(st))
  {
  }

  lemma FinishCloseKeepsInv(st: State)
    requires Inv(st) && st.queue != [] && st.queue[0].Close?
    ensures Inv(FinishFront(st))
  {
    hide QueueSound, Usable, ListAgrees, HandlesOwned, FinishFront, IsOpen;
    FrontOf(st);
    FinishedCloseQueue(st);
    FinishedCloseUsable(st);
    FinishedCloseHandles(st);
    FinishedCloseList(st);
  }

  lemma FinishedCloseHandles(st: State)
    requires HandlesOwned(st) && st.queue != [] && st.queue[0].Close? && Owns(st, st.queue[0].s)
    ensures HandlesOwned(FinishFront(st))
  {
    hide EraseRemove;
  }

  /** The handle being closed is in the list once, so the one-iterator `erase` is safe. */
  lemma FinishedCloseList(st: State)
    requires !st.broken && ListAgrees(st) && HandlesOwned(st) && st.queue != [] && st.queue[0].Close?
    requires Owns(st, st.queue[0].s) && IsOpen(st, st.queue[0].s)
    ensures !FinishFront(st).broken && ListAgrees(FinishFront(st))
    ensures FinishFront(st).collected == st.collected && FinishFront(st).orphaned == st.orphaned
  {
    hide EraseRemove, HandlesOwned, AscendingSerials, Open, Pointers, Filter;
    var s := st.queue[0].s;
    OwnersAlone(st, s);
    OccursOnce(st.prepared, st.closed, s);
    EraseRemoveExactly(st.stmts, s.p);
    FilterOpen(st.prepared, st.closed, s);
  }

  lemma FinishedCloseQueue(st: State)
    requires QueueSound(st) && st.queue != [] && st.queue[0].Close?
    ensures QueueSound(FinishFront(st))
  {
    hide EraseRemove;
  }

  lemma FinishedCloseUsable(st: State)
    requires QueueSound(st) && Usable(st) && st.queue != [] && st.queue[0].Close?
    ensures Usable(FinishFront(st))
  {
    hide EraseRemove;
  }

  /** Deleting the database drops the list and leaves everything else as it was. */
  lemma CollectDatabaseSteps(st: State)
    requires Inv(st) && st.queue == []
    ensures var after := Step(st, CollectDatabase);
            Sound(after) && after.collected && Last(after) == st
  {
  }

  lemma StepKeepsInv(st: State, event: Event)
    requires Inv(st) && Enabled(st, event)
    ensures if event.CollectDatabase? then Last(Step(st, event)) == st else Inv(Step(st, event))
    ensures Sound(Step(st, event)) && Step(st, event).collected == event.CollectDatabase?
  {
    hide Inv, FinishFront, Sound;
    assert !st.collected;
    match event
    case DoPrepare(p, ok) => PrepareKeepsInv(st, p, ok); InvIsSound(Step(st, event));
    case DoExecute(s) => ExecuteKeepsInv(st, s); InvIsSound(Step(st, event));
    case Collect(s) => CollectKeepsInv(st, s); InvIsSound(Step(st, event));
    case CollectDatabase => CollectDatabaseSteps(st);
    case Finish =>
      match st.queue[0] {
        case Prepare(_, _) => FinishPrepareKeepsInv(st);
        case Execute(_) => FinishExecuteKeepsInv(st);
        case Close(_) => FinishCloseKeepsInv(st);
      }
      InvIsSound(Step(st, event));
  }

  lemma InvIsSound(st: State)
    requires Inv(st)
    ensures Sound(st) && !st.collected && Last(st) == st
  {
  }

  lemma EmptyInv()
    ensures Inv(EMPTY)
  {
  }

  /** The collection of the database is the last event. */
  lemma {:induction false} RunKeepsInv(st: State, events: seq<Event>)
    requires Inv(st) && Possible(st, events)
    ensures Sound(Run(st, events))
    decreases |events|
  {
    hide Inv, Step, Enabled, Sound;
    if events == [] {
      InvIsSound(st);
    } else {
      StepKeepsInv(st, events[0]);
      if events[0].CollectDatabase? {
        NothingFollows(Step(st, events[0]), events[1..]);
      } else {
        RunKeepsInv(Step(st, events[0]), events[1..]);
      }
    }
  }

  lemma NothingFollows(st: State, events: seq<Event>)
    requires st.collected && Possible(st, events)
    ensures events == []
  {
  }

  // ----- what a user sees -----

  /** In every run, whatever handles the connector reuses: as long as the database is there, the list is
      the statements prepared and not closed, in order, without duplicates; no action uses a closed handle;
      and `erase` is never given `end()`. */
  lemma ListIsExact(events: seq<Event>)
    requires Possible(EMPTY, events)
    ensures var st := Run(EMPTY, events);
            && !st.broken
            && (!st.collected ==> st.stmts == Pointers(Open(st.prepared, st.closed)))
            && (forall p :: multiset(st.stmts)[p] <= 1)
            && (forall k :: 0 <= k < |st.queue| ==> Owns(st, st.queue[k].s))
  {
    hide Run, Possible;
    EmptyInv();
    RunKeepsInv(EMPTY, events);
    var st := Run(EMPTY, events);
    forall p ensures multiset(st.stmts)[p] <= 1 {
      HandleOnce(Last(st), p);
    }
  }

  lemma HandleOnce(st: State, p: Pointer)
    requires ListAgrees(st) && HandlesOwned(st)
    ensures multiset(st.stmts)[p] <= 1
  {
    OpenMembers(st.prepared, st.closed);
    if p in st.stmts {
      var i := PositionOf(Open(st.prepared, st.closed), p);
      var s := Open(st.prepared, st.closed)[i];
      assert s in Open(st.prepared, st.closed);
      OwnersAlone(st, s);
      OccursOnce(st.prepared, st.closed, s);
    }
  }

  lemma {:induction false} PositionOf(ss: seq<Statement>, p: Pointer) returns (i: nat)
    requires p in Pointers(ss)
    ensures i < |ss| && ss[i].p == p
  {
    if ss[0].p == p {
      i := 0;
    } else {
      var j := PositionOf(ss[1..], p);
      i := j + 1;
    }
  }

  lemma {:induction false} OpenOrClosed(prepared: seq<Statement>, closed: seq<Statement>)
    requires AscendingSerials(prepared)
    ensures forall s :: multiset(Open(prepared, closed))[s] == if s in prepared && s !in closed then 1 else 0
    ensures forall s :: multiset(prepared)[s] == if s in prepared then 1 else 0
  {
    if prepared != [] {
      OpenOrClosed(prepared[1..], closed);
      assert prepared == [prepared[0]] + prepared[1..];
      assert prepared[0] !in prepared[1..];
    }
  }

  lemma {:induction false} DistinctCounts(ss: seq<Statement>)
    requires forall i, j :: 0 <= i < j < |ss| ==> ss[i] != ss[j]
    ensures forall s :: multiset(ss)[s] == if s in ss then 1 else 0
  {
    if ss != [] {
      DistinctCounts(ss[1..]);
      assert ss == [ss[0]] + ss[1..];
      assert ss[0] !in ss[1..];
    }
  }

  /** Each statement ever prepared is open, or was closed once. */
  lemma OpenPlusClosed(st: State)
    requires ListAgrees(st)
    ensures multiset(st.closed + Open(st.prepared, st.closed)) == multiset(st.prepared)
  {
    hide Open, Pointers;
    OpenOrClosed(st.prepared, st.closed);
    DistinctCounts(st.closed);
    var survivors := Open(st.prepared, st.closed);
    forall s ensures multiset(st.closed + survivors)[s] == multiset(st.prepared)[s] {
      assert multiset(st.closed + survivors) == multiset(st.closed) + multiset(survivors);
    }
  }

  /** The statements on the list of a database that is still there. */
  function Survivors(st: State): seq<Statement> {
    if st.collected then [] else Open(st.prepared, st.closed)
  }

  /** The hook's loop over the list (src/main.cpp:72-74). */
  function ShutDown(st: State): State {
    st.(stmts := [], closed := st.closed + Survivors(st), owner := st.owner - (set p | p in st.stmts))
  }

  /** When the queue has been drained, the hook's loop over the list closes exactly the statements still
      usable, if the database is still there; and then every statement ever prepared has been closed exactly
      once, except those that were open when the database was collected, which never are. */
  lemma ShutdownClosesSurvivorsOnce(events: seq<Event>)
    requires Possible(EMPTY, events) && Run(EMPTY, events).queue == []
    ensures var st := Run(EMPTY, events);
            && st.stmts == Pointers(Survivors(st))
            && st.orphaned == (if st.collected then Open(st.prepared, st.closed) else [])
            && (forall s :: s in Survivors(st) + st.orphaned <==> s in st.usable)
            && multiset(ShutDown(st).closed + st.orphaned) == multiset(st.prepared)
  {
    hide Run, Possible, QueueSound, HandlesOwned, Open, Pointers, AscendingSerials;
    EmptyInv();
    RunKeepsInv(EMPTY, events);
    var st := Run(EMPTY, events);
    assert Pointers([]) == [] by { NoPointers(); }
    OpenMembers(st.prepared, st.closed);
    OpenPlusClosed(Last(st));
    assert st.closed + Survivors(st) + st.orphaned == st.closed + Open(st.prepared, st.closed);
  }

  lemma NoPointers()
    ensures Pointers([]) == []
  {
  }

  // ----- handles that are never closed -----

  function Serials(ss: seq<Statement>): set<nat> {
    set s <- ss :: s.serial
  }

  /** 0 to n - 1. */
  function Below(n: nat): set<nat> {
    if n == 0 then {} else Below(n - 1) + {n - 1}
  }

  function Pending(queue: seq<Operation>): set<nat> {
    set k | 0 <= k < |queue| && queue[k].Prepare? :: queue[k].s.serial
  }

  /** The statement that an allocated handle belongs to is open, or was refused, or is being prepared. */
  predicate Held(st: State, s: Statement) {
    || IsOpen(st, s)
    || s in st.refused
    || Operation.Prepare(s, true) in st.queue
    || Operation.Prepare(s, false) in st.queue
  }

  /** Refused statements keep their handles. */
  predicate RefusedOwn(st: State) {
    && (forall t <- st.refused :: Owns(st, t) && t.serial !in Serials(st.prepared))
    && (forall k :: 0 <= k < |st.queue| && st.queue[k].Prepare? ==> LaterThanAll(st.queue[k].s, st.refused))
  }

  /** Every statement ever asked for was accepted, or refused, or is still in the queue. */
  predicate Census(st: State) {
    && RefusedOwn(st)
    && (forall p <- st.owner :: Held(st, Statement(st.owner[p], p)))
    && Serials(st.prepared) + Serials(st.refused) + Pending(st.queue) == Below(st.serials)
  }

  lemma SerialsAppend(ss: seq<Statement>, s: Statement)
    ensures Serials(ss + [s]) == Serials(ss) + {s.serial}
  {
    forall n ensures n in Serials(ss + [s]) <==> n in Serials(ss) + {s.serial} {
      if n in Serials(ss) {
        var t :| t in ss && t.serial == n;
        assert t in ss + [s];
      }
      assert s in ss + [s];
    }
  }

  lemma PendingAppend(queue: seq<Operation>, op: Operation)
    ensures Pending(queue + [op]) == Pending(queue) + if op.Prepare? then {op.s.serial} else {}
  {
    var q := queue + [op];
    forall n ensures n in Pending(q) <==> n in Pending(queue) || (op.Prepare? && n == op.s.serial) {
      if n in Pending(queue) {
        var k :| 0 <= k < |queue| && queue[k].Prepare? && queue[k].s.serial == n;
        assert q[k] == queue[k];
      }
      if op.Prepare? && n == op.s.serial {
        assert q[|queue|] == op;
      }
    }
  }

  lemma PendingTail(queue: seq<Operation>)
    requires queue != []
    ensures Pending(queue) == Pending(queue[1..]) + if queue[0].Prepare? then {queue[0].s.serial} else {}
  {
    forall n ensures n in Pending(queue)
                <==> n in Pending(queue[1..]) || (queue[0].Prepare? && n == queue[0].s.serial) {
      if n in Pending(queue) {
        var k :| 0 <= k < |queue| && queue[k].Prepare? && queue[k].s.serial == n;
        assert k > 0 ==> queue[1..][k - 1] == queue[k];
      }
      if n in Pending(queue[1..]) {
        var k :| 0 <= k < |queue[1..]| && queue[1..][k].Prepare? && queue[1..][k].s.serial == n;
        assert queue[k + 1] == queue[1..][k];
      }
    }
  }

  lemma PrepareKeepsCensus(st: State, p: Pointer, ok: bool)
    requires Inv(st) && Census(st) && p !in st.owner
    ensures Census(Step(st, DoPrepare(p, ok)))
  {
    hide Serials, Pending, QueueSound, ListAgrees, Usable;
    var op := Prepare(Statement(st.serials, p), ok);
    PendingAppend(st.queue, op);
    var after := Step(st, DoPrepare(p, ok));
    assert op in after.queue;
    assert forall o <- st.queue :: o in after.queue;
    forall q <- after.owner ensures Held(after, Statement(after.owner[q], q)) {
      if q != p {
        assert Held(st, Statement(st.owner[q], q));
      }
    }
  }

  /** Neither of these steps concerns a prepare. */
  lemma AppendKeepsCensus(st: State, op: Operation, usable: set<Statement>)
    requires Census(st) && !op.Prepare?
    ensures Census(st.(queue := st.queue + [op], usable := usable))
  {
    hide Serials, Pending;
    PendingAppend(st.queue, op);
    var after := st.(queue := st.queue + [op], usable := usable);
    assert forall o <- st.queue :: o in after.queue;
    forall q <- after.owner ensures Held(after, Statement(after.owner[q], q)) {
      assert Held(st, Statement(st.owner[q], q));
    }
  }

  lemma FinishPrepareKeepsRefused(st: State)
    requires Inv(st) && RefusedOwn(st) && st.queue != [] && st.queue[0].Prepare?
    ensures RefusedOwn(FinishFront(st))
  {
    hide Serials, ListAgrees, HandlesOwned, Usable;
    var s := st.queue[0].s;
    SerialsAppend(st.prepared, s);
    NotYetPrepared(st);
    var after := FinishFront(st);
    forall t <- after.refused ensures Owns(after, t) && t.serial !in Serials(after.prepared) {
      if t in st.refused {
        assert LaterThanAll(s, st.refused);
        var i :| 0 <= i < |st.refused| && st.refused[i] == t;
      }
    }
  }

  lemma NotYetPrepared(st: State)
    requires QueueSound(st) && st.queue != [] && st.queue[0].Prepare?
    ensures st.queue[0].s.serial !in Serials(st.prepared)
  {
    assert LaterThanAll(st.queue[0].s, st.prepared);
  }

  lemma FinishPrepareKeepsCensus(st: State)
    requires Inv(st) && Census(st) && st.queue != [] && st.queue[0].Prepare?
    ensures Census(FinishFront(st))
  {
    hide Serials, Pending, QueueSound, HandlesOwned, Usable, RefusedOwn;
    var s := st.queue[0].s;
    PendingTail(st.queue);
    SerialsAppend(st.prepared, s);
    SerialsAppend(st.refused, s);
    FinishPrepareKeepsRefused(st);
    ClosedWerePrepared(st);
    var after := FinishFront(st);
    forall q <- after.owner ensures Held(after, Statement(after.owner[q], q)) {
      var t := Statement(st.owner[q], q);
      assert Held(st, t);
      InTail(st.queue, Prepare(t, true));
      InTail(st.queue, Prepare(t, false));
    }
  }

  lemma ClosedWerePrepared(st: State)
    requires ListAgrees(st) && QueueSound(st) && st.queue != [] && st.queue[0].Prepare?
    ensures st.queue[0].s !in st.closed
  {
    FrontOf(st);
  }

  lemma InTail(queue: seq<Operation>, op: Operation)
    requires queue != []
    ensures op in queue <==> op == queue[0] || op in queue[1..]
  {
  }

  lemma FinishExecuteKeepsCensus(st: State)
    requires Census(st) && st.queue != [] && st.queue[0].Execute?
    ensures Census(FinishFront(st))
  {
    hide Serials, Pending;
    PendingTail(st.queue);
    var after := FinishFront(st);
    forall q <- after.owner ensures Held(after, Statement(after.owner[q], q)) {
      assert Held(st, Statement(st.owner[q], q));
    }
  }

  lemma FinishCloseKeepsCensus(st: State)
    requires Inv(st) && Census(st) && st.queue != [] && st.queue[0].Close?
    ensures Census(FinishFront(st))
  {
    hide Serials, Pending, EraseRemove, QueueSound, HandlesOwned, Usable, ListAgrees;
    FrontOf(st);
    PendingTail(st.queue);
    var s := st.queue[0].s;
    assert s.serial in Serials(st.prepared) by {
      SerialOf(st.prepared, s);
    }
    var after := FinishFront(st);
    forall q <- after.owner ensures Held(after, Statement(after.owner[q], q)) {
      var t := Statement(st.owner[q], q);
      assert Held(st, t) && t != s;
      InTail(st.queue, Prepare(t, true));
      InTail(st.queue, Prepare(t, false));
    }
  }

  lemma SerialOf(ss: seq<Statement>, s: Statement)
    requires s in ss
    ensures s.serial in Serials(ss)
  {
  }

  lemma StepKeepsCensus(st: State, event: Event)
    requires Inv(st) && Census(st) && Enabled(st, event) && !event.CollectDatabase?
    ensures Census(Step(st, event))
  {
    hide Inv, Census, FinishFront;
    match event
    case DoPrepare(p, ok) => PrepareKeepsCensus(st, p, ok);
    case DoExecute(s) => AppendKeepsCensus(st, Execute(s), st.usable);
    case Collect(s) => AppendKeepsCensus(st, Operation.Close(s), st.usable - {s});
    case Finish =>
      match st.queue[0]
      case Prepare(_, _) => FinishPrepareKeepsCensus(st);
      case Execute(_) => FinishExecuteKeepsCensus(st);
      case Close(_) => FinishCloseKeepsCensus(st);
  }

  lemma {:induction false} RunKeepsCensus(st: State, events: seq<Event>)
    requires Inv(st) && Census(st) && Possible(st, events)
    ensures Sound(Run(st, events)) && Census(Last(Run(st, events)))
    decreases |events|
  {
    hide Inv, Census, Step, Enabled, Sound;
    InvIsSound(st);
    if events != [] {
      StepKeepsInv(st, events[0]);
      if events[0].CollectDatabase? {
        NothingFollows(Step(st, events[0]), events[1..]);
      } else {
        StepKeepsCensus(st, events[0]);
        RunKeepsCensus(Step(st, events[0]), events[1..]);
      }
    }
  }

  lemma EmptyCensus()
    ensures Census(EMPTY)
  {
  }

  /** When the queue has been drained and the survivors have been closed, a handle is still allocated if
      and only if the server refused its statement, or the statement was open when the database was
      collected; each statement ever asked for was accepted or refused, not both, and those accepted have
      been closed exactly once, or were open then. */
  lemma HandlesLeftExactly(events: seq<Event>)
    requires Possible(EMPTY, events) && Run(EMPTY, events).queue == []
    ensures var st := Run(EMPTY, events);
            var after := ShutDown(st);
            && (forall p :: p in after.owner <==> exists s :: s in st.refused + st.orphaned && s.p == p)
            && multiset(after.closed + st.orphaned) == multiset(st.prepared)
            && Serials(st.prepared) + Serials(st.refused) == Below(st.serials)
            && Serials(st.prepared) !! Serials(st.refused)
  {
    hide Run, Possible, Inv, Census;
    EmptyInv();
    EmptyCensus();
    RunKeepsCensus(EMPTY, events);
    var st := Run(EMPTY, events);
    ShutdownClosesSurvivorsOnce(events);
    CensusTaken(Last(st));
    forall p ensures p in ShutDown(st).owner <==> exists s :: s in st.refused + st.orphaned && s.p == p {
      if st.collected {
        LeftBehind(st, p);
      } else {
        LeftAllocated(st, p);
      }
    }
  }

  lemma CensusTaken(st: State)
    requires Census(st) && st.queue == []
    ensures Serials(st.prepared) + Serials(st.refused) == Below(st.serials)
    ensures Serials(st.prepared) !! Serials(st.refused)
  {
  }

  lemma LeftAllocated(st: State, p: Pointer)
    requires Inv(st) && Census(st) && st.queue == []
    ensures p in ShutDown(st).owner <==> exists s :: s in st.refused && s.p == p
  {
    hide QueueSound, Usable, Serials;
    OpenMembers(st.prepared, st.closed);
    var open := Open(st.prepared, st.closed);
    if p in st.stmts {
      var i := PositionOf(open, p);
      assert open[i] in open;
      SerialOf(st.prepared, open[i]);
      assert Owns(st, open[i]);
    }
    if p in st.owner {
      var s := Statement(st.owner[p], p);
      assert Held(st, s);
      if s in open {
        PointerOf(open, s);
      }
    }
  }

  /** The same when the database was collected: the list is gone, and with it all that was open. */
  lemma LeftBehind(st: State, p: Pointer)
    requires st.collected && Sound(st) && Census(Last(st))
    ensures p in ShutDown(st).owner <==> exists s :: s in st.refused + st.orphaned && s.p == p
  {
    hide QueueSound, Usable, Serials, Pointers, Open;
    OpenMembers(st.prepared, st.closed);
    var last := Last(st);
    if p in st.owner {
      var s := Statement(st.owner[p], p);
      assert Held(last, s);
      assert s in st.refused + st.orphaned;
    }
    forall s | s in st.refused + st.orphaned ensures s.p in st.owner {
      assert Owns(last, s);
    }
  }

  lemma {:induction false} PointerOf(ss: seq<Statement>, s: Statement)
    requires s in ss
    ensures s.p in Pointers(ss)
  {
    if ss[0] != s {
      PointerOf(ss[1..], s);
    }
  }

  /** One refused prepare: its handle survives the shutdown. */
  lemma RefusedHandleLeaks(p: Pointer)
    ensures var events := [DoPrepare(p, false), Finish];
            Possible(EMPTY, events) && ShutDown(Run(EMPTY, events)).owner == map[p := 0]
  {
    var events := [DoPrepare(p, false), Finish];
    var st := Step(EMPTY, events[0]);
    assert events[1..] == [Finish] && [Finish][1..] == [];
    assert st.queue == [Prepare(Statement(0, p), false)] && st.queue[1..] == [];
    assert Run(EMPTY, events) == Step(st, Finish);
  }

  /** One accepted prepare, and then the database is collected: the handle survives the shutdown, though
      the server refused nothing. */
  lemma OrphanedHandleLeaks(p: Pointer)
    ensures var events := [DoPrepare(p, true), Finish, CollectDatabase];
            var st := Run(EMPTY, events);
            Possible(EMPTY, events) && ShutDown(st).owner == map[p := 0] && st.refused == []
  {
    var events := [DoPrepare(p, true), Finish, CollectDatabase];
    var st := Step(EMPTY, events[0]);
    assert events[1..] == [Finish, CollectDatabase] && [Finish, CollectDatabase][1..] == [CollectDatabase];
    assert [CollectDatabase][1..] == [];
    assert st.queue == [Prepare(Statement(0, p), true)] && st.queue[1..] == [];
    assert Run(EMPTY, events) == Step(Step(st, Finish), CollectDatabase);
  }

  // ----- the list as it is updated in place -----

  /** The member `stmts` of a `LuaDatabase`, and the handles that the connector has given out. */
  class StatementList {
    var stmts: seq<Pointer>
    var handles: set<Pointer>

    ghost predicate Represents(st: State)
      reads this
    {
      stmts == st.stmts && handles == st.owner.Keys
    }

    constructor ()
      ensures Represents(EMPTY)
    {
      stmts, handles := [], {};
    }

    /** `mysql_stmt_init`, in the constructor of `LuaPreparedStatement`. */
    method Init(p: Pointer, ok: bool, ghost st: State)
      requires Represents(st) && p !in handles
      modifies this
      ensures Represents(Step(st, DoPrepare(p, ok)))
    {
      handles := handles + {p};
    }

    /** `PrepareStatementAction::Finish`: the handle is in the list once if the server accepted the
        statement, and not at all otherwise; the others stay where they were. */
    method FinishPrepare(p: Pointer, out: int, ghost st: State) returns (rejected: bool)
      requires Inv(st) && Represents(st)
      requires st.queue != [] && p in st.owner && st.queue[0] == Prepare(Statement(st.owner[p], p), out == 0)
      modifies this
      ensures Represents(FinishFront(st)) && rejected == (out != 0)
      ensures multiset(stmts)[p] == if rejected then 0 else 1
      ensures old(stmts) <= stmts && forall q :: q != p ==> multiset(stmts)[q] == multiset(old(stmts))[q]
    {
      assert multiset(stmts)[p] == 0 by {
        FrontOf(st);
        OwnersAlone(st, st.queue[0].s);
        OccursOnce(st.prepared, st.closed, st.queue[0].s);
      }
      rejected := out != 0;
      if !rejected {
        stmts := stmts + [p];
      }
    }

    /** `PrepareStatementCloseAction::Finish`, once the close is complete, for an action at the front of
        the queue of a database in any reachable state. */
    method FinishClose(p: Pointer, ghost st: State)
      requires Inv(st) && Represents(st) && st.queue != [] && st.queue[0].Close? && st.queue[0].s.p == p
      modifies this
      ensures Represents(FinishFront(st))
      ensures multiset(stmts)[p] == 0 && forall q :: q != p ==> multiset(stmts)[q] == multiset(old(stmts))[q]
    {
      hide Filter, Compacted, Open, Pointers, Alone;
      var t, newEnd := Remove(stmts, p);
      assert multiset(stmts)[p] == 1 by {
        FrontOf(st);
        OwnersAlone(st, st.queue[0].s);
        OccursOnce(st.prepared, st.closed, st.queue[0].s);
      }
      EraseRemoveExactly(stmts, p);
      FilterCounts(stmts, p);
      stmts := t[..newEnd] + t[newEnd + 1..];
      handles := handles - {p};
    }

    /** `delete` of the database, once it has been collected and its connection closed (src/main.cpp:39-43):
        the list goes, its handles stay allocated. */
    method Delete(ghost st: State)
      requires Inv(st) && Represents(st) && st.queue == []
      modifies this
      ensures Represents(Step(st, CollectDatabase)) && handles == old(handles)
    {
      stmts := [];
    }

    /** The loop of the shutdown hook: it closes handles that are allocated, none twice. */
    method Shutdown(ghost st: State)
      requires Inv(st) && Represents(st)
      modifies this
      ensures Represents(ShutDown(st))
      ensures handles + (set p | p in old(stmts)) == old(handles) && handles !! set p | p in old(stmts)
    {
      var k := 0;
      while k < |stmts|
        invariant 0 <= k <= |stmts| && stmts == old(stmts)
        invariant handles == old(handles) - (set p | p in stmts[..k])
      {
        assert stmts[k] in handles by {
          SurvivorAllocated(st, k);
        }
        assert stmts[..k + 1] == stmts[..k] + [stmts[k]];
        handles := handles - {stmts[k]};
        k := k + 1;
      }
      assert stmts[..k] == stmts;
      forall j | 0 <= j < |stmts| ensures stmts[j] in old(handles) {
        SurvivorAllocated(st, j);
      }
      stmts := [];
    }
  }

  lemma SurvivorAllocated(st: State, k: nat)
    requires Inv(st) && k < |st.stmts|
    ensures st.stmts[k] in st.owner && st.stmts[k] !in st.stmts[..k]
  {
    hide QueueSound, Usable;
    OpenMembers(st.prepared, st.closed);
    var open := Open(st.prepared, st.closed);
    var i := PositionOf(open, st.stmts[k]);
    assert open[i] in open && Owns(st, open[i]);
    HandleOnce(st, st.stmts[k]);
    assert st.stmts == st.stmts[..k] + st.stmts[k..];
    assert st.stmts[k] in st.stmts[k..];
  }

  lemma {:induction false} FilterCounts(s: seq<Pointer>, p: Pointer)
    ensures multiset(Filter(s, p))[p] == 0
    ensures forall q :: q != p ==> multiset(Filter(s, p))[q] == multiset(s)[q]
  {
    if s != [] {
      hide Filter;
      FilterCounts(s[1..], p);
      FilterCons(s[0], s[1..], p);
      assert s == [s[0]] + s[1..];
    }
  }
}
