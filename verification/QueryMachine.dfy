// src/actions/query.h: the phases of a query, one start or continue call per tick.

module QueryMachine {
  import opened Types
  import opened SocketStatus
  import opened Rows
  import opened Connector
  import opened Turns

  datatype Phase = Querying | Fetching | Freeing

  /** The fields of `QueryAction`, and the connector's side of it: the suspensions left to the
      running operation, the rows not yet fetched, the connection's error. */
  datatype State = State(
    phase: Phase, started: bool, out: int, row: Option<RawRow>, table: seq<LuaRow>, hasRetried: bool,
    waits: seq<Wait>, left: seq<RowReply>, fault: Fault)

  function Init(q: QueryServer): State {
    State(Querying, false, 0, None, [], false, [], q.rows, Fault("", 0))
  }

  function Suspensions(q: QueryServer, s: State): seq<Wait> {
    match s.phase
    case Querying => q.queryWaits
    case Fetching => if s.left != [] then s.left[0].waits else q.endWaits
    case Freeing => q.freeWaits
  }

  /** The operation of the phase completes and delivers its result. */
  function Completed(q: QueryServer, s: State): State {
    match s.phase
    case Querying => s.(out := q.out, fault := q.queryFault)
    case Fetching =>
      if s.left != [] then s.(row := Some(s.left[0].cells), left := s.left[1..])
      else s.(row := None, fault := q.endFault)
    case Freeing => s.(fault := q.freeFault)
  }

  /** A continue call on an operation that has completed. Whatever it reports, it delivers no row. */
  function Misused(q: QueryServer, s: State): State {
    match s.phase
    case Querying => s.(out := q.misuseOut, fault := q.misuseFault)
    case Fetching => s.(row := None, fault := q.misuseFault)
    case Freeing => s.(fault := q.misuseFault)
  }

  /** The start or continue call of one tick: the state, the returned status, the call made. */
  function Advance(q: QueryServer, s: State, socket: Flags, ready: Readiness): (State, Flags, Option<Call>) {
    if !s.started then
      var (ret, rest) := Issue(Suspensions(q, s));
      var s1 := s.(started := true, waits := rest);
      (if ret == 0 then Completed(q, s1) else s1, ret, Some(StartCall(ret)))
    else if !CheckDatabaseStatus(socket, ready) then
      (s, socket, None)
    else if socket == 0 then
      (Misused(q, s), 0, Some(ContinueCall(0)))
    else
      var (ret, rest) := Issue(s.waits);
      var s1 := s.(waits := rest);
      (if ret == 0 then Completed(q, s1) else s1, ret, Some(ContinueCall(ret)))
  }

  datatype Finish = RejectAndReturn(fault: Fault) | Return | Proceed(s: State)

  /** The third function of the phase, called when its operation has completed. */
  function FinishPhase(q: QueryServer, s: State): Finish {
    match s.phase
    case Querying =>
      if s.out != 0 then RejectAndReturn(s.fault)
      else if q.hasResult then Proceed(s.(phase := Fetching))
      else if q.fieldCount != 0 then RejectAndReturn(q.useFault)
      else Return
    case Fetching =>
      if s.row.Some? then Proceed(s.(table := s.table + [RowTable(s.row.value, false)]))
      else if s.fault.errno != 0 then RejectAndReturn(s.fault)
      else Proceed(s.(phase := Freeing))
    case Freeing => Return
  }

  /** Error numbers after which the code takes the server for lost. */
  predicate ServerLost(errno: int) {
    errno == 2006 || errno == 2013
  }

  /** The connection's error when `Query` is about to return true. */
  function FinalFault(q: QueryServer, s: State): Fault {
    if s.phase == Querying && s.out == 0 then q.useFault else s.fault
  }

  /** "try reperform": only the table is replaced by an empty one. */
  function ResetIfLost(q: QueryServer, s: State): State {
    if !s.hasRetried && ServerLost(FinalFault(q, s).errno) then s.(hasRetried := true, table := [])
    else s
  }

  /** The end of a tick whose operation is over. */
  function Conclude(q: QueryServer, s: State, call: Option<Call>, rejectThrows: bool): Turn<State> {
    match FinishPhase(q, s)
    case RejectAndReturn(fault) =>
      if rejectThrows then Turn(s, 0, call, Some(Failure(fault)), Threw)
      else Turn(ResetIfLost(q, s), 0, call, Some(Failure(fault)), Done)
    case Return => Turn(ResetIfLost(q, s), 0, call, None, Done)
    case Proceed(next) => Turn(next.(started := false), 0, call, None, Waiting)
  }

  /** `QueryAction::Query`; `rejectThrows` tells whether a call of `reject` would leave by an exception. */
  function Query(q: QueryServer, s: State, socket: Flags, ready: Readiness, rejectThrows: bool): Turn<State> {
    var (s1, socket1, call) := Advance(q, s, socket, ready);
    if socket1 != 0 then Turn(s1, socket1, call, None, Waiting) else Conclude(q, s1, call, rejectThrows)
  }

  /** What `Finish` resolves with. */
  function Resolution(q: QueryServer, s: State): Settlement {
    Settlement(true, Table(s.table, q.insertId, q.affected))
  }

  // ----- what a query settles with, for every schedule -----

  /** Freeing a complete result ended with a lost-server error, which empties the table. */
  predicate RowsLost(q: QueryServer) {
    && q.out == 0 && q.hasResult && q.endFault.errno == 0
    && ServerLost(q.freeFault.errno)
  }

  function Expected(q: QueryServer): Settlement {
    if RowsLost(q) then Settlement(true, Table([], q.insertId, q.affected)) else BlockingQuery(q)
  }

  /** A query settles as the blocking program would, exactly when no row is thrown away: that is, unless
      freeing a complete result that has rows ended with error 2006 or 2013. */
  lemma ExpectedIsBlocking(q: QueryServer)
    ensures Expected(q) == BlockingQuery(q) <==> !(RowsLost(q) && q.rows != [])
    ensures RowsLost(q) <==> && q.out == 0 && q.hasResult && q.endFault.errno == 0
                             && (q.freeFault.errno == 2006 || q.freeFault.errno == 2013)
  {
    if RowsLost(q) && q.rows != [] {
      assert |Tables(RowCells(q.rows), false)| == |q.rows|;
    } else if RowsLost(q) {
      assert Tables(RowCells(q.rows), false) == [];
    }
  }

  function Fetched(q: QueryServer, s: State): int {
    |q.rows| - |s.left|
  }

  /** Holds of the query being run, between ticks, as long as it has neither returned true nor
      called `reject`. */
  predicate Progressing(q: QueryServer, s: State, socket: Flags) {
    && (s.started <==> socket != 0)
    && !s.hasRetried
    && 0 <= Fetched(q, s)
    && s.left == q.rows[Fetched(q, s)..]
    && s.table == TablesOf(q, Fetched(q, s))
    && (s.phase == Querying ==> Fetched(q, s) == 0)
    && (s.phase != Querying ==> q.out == 0 && q.hasResult && s.out == 0)
    && (s.phase == Freeing ==> s.left == [] && q.endFault.errno == 0)
  }

  /** The same with `result` the outcome of the promise so far: once it is rejected, what the
      action still does cannot matter. */
  predicate Inv(q: QueryServer, s: State, socket: Flags, result: Option<Settlement>) {
    match result
    case None => Progressing(q, s, socket)
    case Some(r) => !r.success && r == Expected(q) && (!s.started ==> socket == 0)
  }

  /** The rows fetched so far, as tables. */
  function TablesOf(q: QueryServer, k: nat): seq<LuaRow>
    requires k <= |q.rows|
  {
    Tables(RowCells(q.rows[..k]), false)
  }

  lemma TablesSnoc(q: QueryServer, k: nat)
    requires k < |q.rows|
    ensures TablesOf(q, k + 1) == TablesOf(q, k) + [RowTable(q.rows[k].cells, false)]
  {
  }

  lemma TablesAll(q: QueryServer)
    ensures TablesOf(q, |q.rows|) == Tables(RowCells(q.rows), false)
    ensures |TablesOf(q, |q.rows|)| == |q.rows|
  {
    assert q.rows[..|q.rows|] == q.rows;
  }

  /** The state in which the third function of a phase finds an unrejected query. */
  predicate Landed(q: QueryServer, s: State) {
    && s.started
    && !s.hasRetried
    && 0 <= Fetched(q, s)
    && s.left == q.rows[Fetched(q, s)..]
    && (s.phase != Querying ==> q.out == 0 && q.hasResult && s.out == 0)
    && match s.phase
       case Querying =>
         Fetched(q, s) == 0 && s.table == TablesOf(q, 0) && s.out == q.out && s.fault == q.queryFault
       case Fetching =>
         if s.row.Some? then
           && 0 < Fetched(q, s)
           && s.row.value == q.rows[Fetched(q, s) - 1].cells
           && s.table == TablesOf(q, Fetched(q, s) - 1)
         else
           s.left == [] && s.table == TablesOf(q, |q.rows|) && s.fault == q.endFault
       case Freeing =>
         && s.left == [] && s.table == TablesOf(q, |q.rows|)
         && q.endFault.errno == 0 && s.fault == q.freeFault
  }

  lemma AdvanceLands(q: QueryServer, s: State, socket: Flags, ready: Readiness)
    requires Progressing(q, s, socket)
    ensures var (s1, socket1, _) := Advance(q, s, socket, ready);
            if socket1 != 0 then Progressing(q, s1, socket1) else Landed(q, s1)
  {
    if s.phase == Fetching && s.left != [] {
      var k := Fetched(q, s);
      assert q.rows[k..][1..] == q.rows[k + 1..];
    }
  }

  lemma LandedFinishes(q: QueryServer, s: State)
    requires Landed(q, s)
    ensures match FinishPhase(q, s)
            case Proceed(s2) => Progressing(q, s2.(started := false), 0)
            case RejectAndReturn(fault) => Expected(q) == Settlement(false, Failure(fault))
            case Return => Resolution(q, ResetIfLost(q, s)) == Expected(q)
  {
    if s.phase == Fetching && s.row.Some? {
      TablesSnoc(q, Fetched(q, s) - 1);
    }
    TablesAll(q);
    assert TablesOf(q, 0) == [];
  }

  /** One tick keeps the invariant; a tick that ends the query leaves the promise rejected, or about
      to be resolved, with the expected settlement. */
  lemma QueryKeepsInv(q: QueryServer, s: State, socket: Flags, ready: Readiness, rejectThrows: bool,
                      result: Option<Settlement>)
    requires Inv(q, s, socket, result)
    requires result.Some? ==> !rejectThrows
    ensures var t := Query(q, s, socket, ready, rejectThrows);
            var result' := ResultAfter(result, t.reject);
            && (t.verdict != Done ==> Inv(q, t.m, t.socket, result'))
            && (t.verdict == Done ==> t.socket == 0
                                      && (result'.Some? ==> result' == Some(Expected(q)))
                                      && (result'.None? ==> Resolution(q, t.m) == Expected(q)))
            && (t.verdict == Threw ==> rejectThrows && t.reject.Some?)
  {
    if result.None? {
      AdvanceLands(q, s, socket, ready);
      var (s1, socket1, call) := Advance(q, s, socket, ready);
      if socket1 == 0 {
        LandedFinishes(q, s1);
      }
    }
  }

  // ----- the discipline of the non-blocking calls -----

  /** The state in which an exception out of `reject` leaves the action. */
  predicate Interrupted(s: State, socket: Flags) {
    s.started && socket == 0
  }

  /** A tick either waits without a call, or starts an operation when none is running, or continues
      the suspended one; only after an interruption does it continue an operation that is over. */
  lemma QueryCalls(q: QueryServer, s: State, socket: Flags, ready: Readiness, rejectThrows: bool)
    requires !s.started ==> socket == 0
    ensures var t := Query(q, s, socket, ready, rejectThrows);
            && (t.call.None? ==> socket != 0 && t.m == s && t.socket == socket && t.verdict == Waiting)
            && (t.call.Some? ==> t.call.value.ret == t.socket)
            && (t.call.Some? && t.call.value.StartCall? ==> socket == 0 && !Interrupted(s, socket))
            && (t.call.Some? && t.call.value.ContinueCall? ==> socket != 0 || Interrupted(s, socket))
            && (t.verdict == Waiting ==> !Interrupted(t.m, t.socket))
            && (t.verdict == Threw ==> Interrupted(t.m, t.socket))
  {
  }

  // ----- progress -----

  function FetchRank(q: QueryServer, left: seq<RowReply>): nat {
    if left == [] then 1 + |q.endWaits| else 1 + |left[0].waits| + FetchRank(q, left[1..])
  }

  /** An upper bound on the calls still needed. */
  function Rank(q: QueryServer, s: State): nat {
    match s.phase
    case Querying =>
      (if s.started then 1 + |s.waits| else 1 + |q.queryWaits|) + FetchRank(q, s.left) + 1 + |q.freeWaits|
    case Fetching =>
      if !s.started then FetchRank(q, s.left) + 1 + |q.freeWaits|
      else 1 + |s.waits| + (if s.left == [] then 0 else FetchRank(q, s.left[1..])) + 1 + |q.freeWaits|
    case Freeing =>
      if s.started then 1 + |s.waits| else 1 + |q.freeWaits|
  }

  /** The environment lets the action take a step at this tick. */
  predicate Helpful(s: State, socket: Flags, ready: Readiness) {
    s.started ==> CheckDatabaseStatus(socket, ready)
  }

  /** The bound once the running operation has completed. */
  function LandedRank(q: QueryServer, s: State): nat {
    match s.phase
    case Querying => FetchRank(q, s.left) + 1 + |q.freeWaits|
    case Fetching => (if s.row.Some? then FetchRank(q, s.left) else 0) + 1 + |q.freeWaits|
    case Freeing => 0
  }

  lemma AdvanceRank(q: QueryServer, s: State, socket: Flags, ready: Readiness)
    ensures var (s1, socket1, _) := Advance(q, s, socket, ready);
            if s.started && !CheckDatabaseStatus(socket, ready) then s1 == s && socket1 == socket != 0
            else
              && Rank(q, s1) <= Rank(q, s)
              && (socket1 != 0 ==> Rank(q, s1) < Rank(q, s))
              && (socket1 == 0 ==> LandedRank(q, s1) < Rank(q, s))
  {
  }

  lemma FinishRank(q: QueryServer, s: State)
    ensures match FinishPhase(q, s)
            case Proceed(s2) => Rank(q, s2.(started := false)) <= LandedRank(q, s)
            case _ => true
  {
  }

  /** Every tick at which the environment lets it brings the query closer to its end. */
  lemma QueryRank(q: QueryServer, s: State, socket: Flags, ready: Readiness, rejectThrows: bool)
    ensures var t := Query(q, s, socket, ready, rejectThrows);
            && (t.verdict != Done ==> Rank(q, t.m) <= Rank(q, s))
            && (Helpful(s, socket, ready) && t.verdict == Waiting ==> Rank(q, t.m) < Rank(q, s))
  {
    AdvanceRank(q, s, socket, ready);
    FinishRank(q, Advance(q, s, socket, ready).0);
  }

  /** Completed operations of a query that has not been rejected. */
  function OperationsDone(q: QueryServer, s: State): int {
    match s.phase
    case Querying => 0
    case Fetching => 1 + Fetched(q, s)
    case Freeing => 2 + |q.rows|
  }

  /** A call either leaves the operation suspended or completes exactly one. */
  lemma QueryTally(q: QueryServer, s: State, socket: Flags, ready: Readiness, rejectThrows: bool)
    requires Progressing(q, s, socket)
    ensures var t := Query(q, s, socket, ready, rejectThrows);
            t.verdict == Waiting
            ==> && OperationsDone(q, t.m) == OperationsDone(q, s) + (if t.socket == 0 then 1 else 0)
                && (t.socket == 0 ==> s.phase != Freeing)
  {
    hide Advance, Landed, FinishPhase, TablesOf;
    AdvanceLands(q, s, socket, ready);
    var (s1, socket1, call) := Advance(q, s, socket, ready);
    AdvanceStays(q, s, socket, ready);
    if socket1 == 0 {
      LandedTally(q, s1, call, rejectThrows);
    }
  }

  /** Without a rejection, a query with a result set ends by freeing it, and one without ends at once. */
  lemma QueryEnds(q: QueryServer, s: State, socket: Flags, ready: Readiness, rejectThrows: bool)
    requires Progressing(q, s, socket)
    ensures var t := Query(q, s, socket, ready, rejectThrows);
            t.verdict == Done && t.reject.None?
            ==> t.call.Some? && s.phase == if q.hasResult then Freeing else Querying
  {
    hide Advance, Landed, FinishPhase, TablesOf;
    AdvanceLands(q, s, socket, ready);
    var (s1, socket1, call) := Advance(q, s, socket, ready);
    AdvanceStays(q, s, socket, ready);
    if socket1 == 0 {
      LandedTally(q, s1, call, rejectThrows);
    }
  }

  lemma AdvanceStays(q: QueryServer, s: State, socket: Flags, ready: Readiness)
    requires s.started <==> socket != 0
    ensures var (s1, socket1, call) := Advance(q, s, socket, ready);
            && s1.phase == s.phase
            && (socket1 != 0 ==> s1.left == s.left)
            && (s.phase == Fetching && socket1 == 0 && s1.row.None? ==> s.left == [])
            && (socket1 == 0 ==> call.Some?)
            && (socket1 == 0 && s.phase == Fetching ==> s1.left == if s1.row.Some? then s.left[1..] else s.left)
            && (socket1 == 0 && s.phase == Fetching && s1.row.Some? ==> s.left != [])
            && (socket1 == 0 && s.phase != Fetching ==> s1.left == s.left)
  {
  }

  lemma LandedTally(q: QueryServer, s: State, call: Option<Call>, rejectThrows: bool)
    requires Landed(q, s)
    ensures var t := Conclude(q, s, call, rejectThrows);
            && (t.verdict == Waiting
                ==> OperationsDone(q, t.m) == (match s.phase
                                               case Querying => 1
                                               case Fetching => if s.row.Some? then 1 + Fetched(q, s) else 2 + |q.rows|
                                               case Freeing => 0)
                    && s.phase != Freeing)
            && (t.verdict == Done && t.reject.None? && q.hasResult ==> s.phase == Freeing)
            && (t.verdict == Done && t.reject.None? && !q.hasResult ==> s.phase == Querying)
  {
  }

  // ----- the waits on the path of a query -----

  /** Fetching all of `left`, then what follows; `throws` tells whether a call of `reject` would leave by
      an exception, after which the completed operation is continued once more. */
  function FetchWaits(q: QueryServer, left: seq<RowReply>, throws: bool): seq<Flags> {
    if left == [] then q.endWaits + EndWaits(q, q.endFault.errno, throws)
    else left[0].waits + FetchWaits(q, left[1..], throws)
  }

  function EndWaits(q: QueryServer, errno: int, throws: bool): seq<Flags> {
    if errno == 0 || (throws && q.misuseFault.errno == 0) then q.freeWaits else []
  }

  function ResultWaits(q: QueryServer, out: int, left: seq<RowReply>, throws: bool): seq<Flags> {
    if !q.hasResult then []
    else if out == 0 then FetchWaits(q, left, throws)
    else if throws && q.misuseOut == 0 then FetchWaits(q, left, false)
    else []
  }

  /** All the waits that a query meets, from its start to its end, in order. */
  function WaitsOfQuery(q: QueryServer, throws: bool): seq<Flags> {
    q.queryWaits + ResultWaits(q, q.out, q.rows, throws)
  }

  /** Those after the running operation, or the next one. */
  function LaterWaits(q: QueryServer, s: State, throws: bool): seq<Flags> {
    match s.phase
    case Querying => ResultWaits(q, q.out, s.left, throws)
    case Fetching =>
      if s.left != [] then FetchWaits(q, s.left[1..], throws) else EndWaits(q, q.endFault.errno, throws)
    case Freeing => []
  }

  /** Those still ahead, the running operation first. */
  function WaitsAhead(q: QueryServer, s: State, socket: Flags, throws: bool): seq<Flags> {
    if Interrupted(s, socket) then WaitsAfter(q, Misused(q, s), throws)
    else (if s.started then [socket] + s.waits else Suspensions(q, s)) + LaterWaits(q, s, throws)
  }

  /** Those ahead once the operation of the phase has completed. */
  function WaitsAfter(q: QueryServer, s: State, throws: bool): seq<Flags> {
    match s.phase
    case Querying => ResultWaits(q, s.out, s.left, throws)
    case Fetching => if s.row.Some? then FetchWaits(q, s.left, throws) else EndWaits(q, s.fault.errno, throws)
    case Freeing => []
  }

  lemma CompletedWaits(q: QueryServer, s: State, throws: bool)
    ensures WaitsAfter(q, Completed(q, s), throws) == LaterWaits(q, s, throws)
    ensures Completed(q, s).started == s.started
  {
  }

  lemma LaterStays(q: QueryServer, s: State, waits: seq<Wait>, throws: bool)
    ensures LaterWaits(q, s.(started := true, waits := waits), throws) == LaterWaits(q, s, throws)
  {
  }

  /** One call of an operation that is not interrupted. */
  lemma IssueWaits(q: QueryServer, s: State, waits: seq<Wait>, throws: bool)
    ensures var (ret, rest) := Issue(waits);
            var s1 := s.(started := true, waits := rest);
            if ret == 0 then WaitsAfter(q, Completed(q, s1), throws) == waits + LaterWaits(q, s, throws)
            else WaitsAhead(q, s1, ret, throws) == waits + LaterWaits(q, s, throws)
  {
    hide LaterWaits, WaitsAfter, Completed;
    var (ret, rest) := Issue(waits);
    var s1 := s.(started := true, waits := rest);
    CompletedWaits(q, s1, throws);
    LaterStays(q, s, rest, throws);
  }

  lemma AdvanceWaits(q: QueryServer, s: State, socket: Flags, ready: Readiness, throws: bool)
    requires !s.started ==> socket == 0
    ensures var (s1, socket1, call) := Advance(q, s, socket, ready);
            && (call.None? ==> s1 == s && socket1 == socket != 0)
            && (call.Some? ==> s1.started && Wakeable(socket))
            && (call.Some? ==>
                  var ahead := if socket1 == 0 then WaitsAfter(q, s1, throws) else WaitsAhead(q, s1, socket1, throws);
                  WaitsAhead(q, s, socket, throws) == (if socket == 0 then [] else [socket]) + ahead)
  {
    hide LaterWaits, WaitsAfter, Wakeable;
    WakeableExactly(socket);
    CheckedWakeable(socket, ready);
    MisusedStarted(q, s);
    if !s.started {
      IssueWaits(q, s, Suspensions(q, s), throws);
      CompletedWaits(q, s.(started := true, waits := Issue(Suspensions(q, s)).1), throws);
    } else if socket != 0 {
      assert s.(started := true) == s;
      IssueWaits(q, s, s.waits, throws);
      CompletedWaits(q, s.(waits := Issue(s.waits).1), throws);
      assert [socket] + s.waits + LaterWaits(q, s, throws) == [socket] + (s.waits + LaterWaits(q, s, throws));
    }
  }

  lemma CheckedWakeable(socket: Flags, ready: Readiness)
    ensures CheckDatabaseStatus(socket, ready) ==> Wakeable(socket)
    ensures socket == 0 ==> Wakeable(socket) && CheckDatabaseStatus(socket, ready)
  {
    WakeableExactly(socket);
  }

  lemma MisusedStarted(q: QueryServer, s: State)
    ensures Misused(q, s).started == s.started
  {
  }

  lemma ConcludeWaits(q: QueryServer, s: State, call: Option<Call>, throws: bool)
    requires s.started
    ensures var t := Conclude(q, s, call, throws);
            && (t.verdict == Done ==> AllWakeable(WaitsAfter(q, s, throws)))
            && (t.verdict != Done ==> WaitsAhead(q, t.m, 0, throws && t.reject.None?) == WaitsAfter(q, s, throws))
  {
  }

  /** A visit keeps what is ahead, but for waits that have passed the test. */
  lemma QueryWaits(q: QueryServer, s: State, socket: Flags, ready: Readiness, throws: bool)
    requires !s.started ==> socket == 0
    ensures var t := Query(q, s, socket, ready, throws);
            && (!t.m.started ==> t.socket == 0)
            && (t.verdict == Done ==> AllWakeable(WaitsAhead(q, s, socket, throws)))
            && (t.verdict != Done ==> (AllWakeable(WaitsAhead(q, t.m, t.socket, throws && t.reject.None?))
                                       <==> AllWakeable(WaitsAhead(q, s, socket, throws))))
  {
    hide Advance, Conclude, WaitsAhead, WaitsAfter, Wakeable;
    AdvanceWaits(q, s, socket, ready, throws);
    var (s1, socket1, call) := Advance(q, s, socket, ready);
    if call.Some? {
      var ahead := if socket1 == 0 then WaitsAfter(q, s1, throws) else WaitsAhead(q, s1, socket1, throws);
      AllWakeableAppend(if socket == 0 then [] else [socket], ahead);
      if socket1 == 0 {
        ConcludeWaits(q, s1, call, throws);
        ConcludeStops(q, s1, call, throws);
      }
    }
  }

  lemma ConcludeStops(q: QueryServer, s: State, call: Option<Call>, throws: bool)
    ensures Conclude(q, s, call, throws).socket == 0
  {
  }
}
