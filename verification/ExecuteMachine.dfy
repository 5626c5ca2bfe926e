// src/actions/executestatement.h:147-317: a prepared statement is executed, its rows fetched and
// freed by detached worker threads, and the tick polls `thread_finished`.

module ExecuteMachine {
  import opened Types
  import opened SocketStatus
  import opened Rows
  import opened Connector
  import opened Turns

  datatype Phase = Executing | Fetching | FreeingResults | FreeingStatement

  /** Where an unfinished worker thread stands; Idle when there is none. `Flagging` is about to set
      `thread_finished`, its last act. */
  datatype Worker =
    | Idle
    | AtExecute | AtMetadata | AtStore
    | AtFetch | AtPush(row: RawRow)
    | AtFree
    | Flagging

  /** The fields of `ExecuteStatementAction`, its worker, and the connector's side of it. `freed`
      counts the stored rows whose metadata a worker has freed. */
  datatype State = State(
    phase: Phase, started: bool, inThread: bool, threadFinished: bool,
    out: int, fault: Fault, stored: seq<RawRow>, table: seq<LuaRow>,
    worker: Worker, left: seq<RawRow>, waits: seq<Wait>, freed: nat)

  function Init(e: ExecuteServer): State {
    State(Executing, false, false, false, 0, Fault("", 0), [], [], Idle, e.rows, [], 0)
  }

  /** One atomic step of the worker thread. */
  function WorkerStep(e: ExecuteServer, s: State): State {
    match s.worker
    case Idle => s
    case AtExecute =>
      s.(out := e.executeOut, fault := e.executeFault,
         worker := if e.executeOut != 0 then Flagging else AtMetadata)
    case AtMetadata => s.(worker := if e.hasMetadata then AtStore else Flagging)
    case AtStore => s.(out := e.storeOut, fault := e.storeFault, worker := Flagging)
    case AtFetch =>
      if s.left == [] then s.(out := e.endOut, fault := e.fetchFault, worker := Flagging)
      else s.(out := 0, left := s.left[1..], worker := AtPush(s.left[0]))
    case AtPush(row) => s.(stored := s.stored + [row], worker := AtFetch)
    case AtFree =>
      if s.stored == [] then s.(worker := Flagging)
      else s.(stored := s.stored[1..], freed := s.freed + 1)
    case Flagging => s.(threadFinished := true, worker := Idle)
  }

  function WorkerSteps(e: ExecuteServer, s: State, n: nat): State
    decreases n
  {
    if n == 0 then s else WorkerSteps(e, WorkerStep(e, s), n - 1)
  }

  /** Spawn a worker, let it run for `burst` steps, then test the flag. */
  function Spawn(e: ExecuteServer, s: State, worker: Worker, burst: nat): State {
    WorkerSteps(e, s.(inThread := true, worker := worker), burst)
  }

  function FlagStatus(s: State): Flags {
    if s.threadFinished then 0 else WAIT_READ
  }

  /** The first function of the phase. */
  function Start(e: ExecuteServer, s: State, burst: nat): (State, Flags, Option<Call>) {
    match s.phase
    case Executing =>
      var s1 := s.(out := e.bindOut, fault := e.bindFault);
      if e.bindOut != 0 then (s1, 0, None)
      else
        var s2 := Spawn(e, s1, AtExecute, burst);
        (s2, FlagStatus(s2), None)
    case Fetching =>
      var s2 := Spawn(e, s.(threadFinished := false), AtFetch, burst);
      (s2, FlagStatus(s2), None)
    case FreeingResults =>
      if s.stored == [] then (s, 0, None)
      else
        var s2 := Spawn(e, s.(threadFinished := false), AtFree, burst);
        (s2, FlagStatus(s2), None)
    case FreeingStatement =>
      var (ret, rest) := Issue(e.freeWaits);
      (s.(waits := rest), ret, Some(StartCall(ret)))
  }

  /** The second function of the phase. */
  function Continue(e: ExecuteServer, s: State): (State, Flags, Option<Call>) {
    if s.phase == FreeingStatement then
      var (ret, rest) := Issue(s.waits);
      (s.(waits := rest), ret, Some(ContinueCall(ret)))
    else
      (s, FlagStatus(s), None)
  }

  datatype Finish = RejectAndReturn(fault: Fault) | Return | Proceed(reject: Option<Fault>, s: State)

  /** The state in which the third function of the phase calls `reject`, if it does. */
  function LeaveThread(s: State): State {
    if s.phase == Executing || s.phase == Fetching then s.(inThread := false) else s
  }

  /** The third function of the phase. */
  function FinishPhase(e: ExecuteServer, s: State): Finish {
    match s.phase
    case Executing =>
      if s.out != 0 then RejectAndReturn(s.fault)
      else if !e.hasMetadata then Return
      else Proceed(None, LeaveThread(s).(phase := Fetching))
    case Fetching =>
      var next := LeaveThread(s).(phase := FreeingResults);
      if s.out == MYSQL_DATA_TRUNCATED then
        Proceed(Some(s.fault.(message := "MySQL data truncated")), next)
      else if s.out == MYSQL_NO_DATA then
        Proceed(None, next.(table := s.table + Tables(s.stored, true)))
      else
        Proceed(Some(s.fault), next)
    case FreeingResults => Proceed(None, s.(phase := FreeingStatement))
    case FreeingStatement => Return
  }

  /** The call of the first or second function in one visit. */
  function Advance(e: ExecuteServer, s: State, socket: Flags, ready: Readiness, burst: nat)
    : (State, Flags, Option<Call>)
  {
    if !s.started then Start(e, s.(started := true), burst)
    else if s.inThread || CheckDatabaseStatus(socket, ready) then Continue(e, s)
    else (s, socket, None)
  }

  /** The end of a visit whose operation is over. */
  function Conclude(e: ExecuteServer, s: State, call: Option<Call>, rejectThrows: bool): Turn<State> {
    match FinishPhase(e, s)
    case RejectAndReturn(fault) =>
      if rejectThrows then Turn(LeaveThread(s), 0, call, Some(Failure(fault)), Threw)
      else Turn(LeaveThread(s).(started := false), 0, call, Some(Failure(fault)), Done)
    case Return => Turn(LeaveThread(s).(started := false), 0, call, None, Done)
    case Proceed(None, next) => Turn(next.(started := false), 0, call, None, Waiting)
    case Proceed(Some(fault), next) =>
      if rejectThrows then Turn(LeaveThread(s), 0, call, Some(Failure(fault)), Threw)
      else Turn(next.(started := false), 0, call, Some(Failure(fault)), Waiting)
  }

  /** `ExecuteStatementAction::Query`, entered when the worker stands as in `s`. */
  function Query(e: ExecuteServer, s: State, socket: Flags, ready: Readiness, burst: nat, rejectThrows: bool)
    : Turn<State>
  {
    var (s1, socket1, call) := Advance(e, s, socket, ready, burst);
    if socket1 != 0 then Turn(s1, socket1, call, None, Waiting) else Conclude(e, s1, call, rejectThrows)
  }

  /** What `Finish` resolves with. */
  function Resolution(e: ExecuteServer, s: State): Settlement {
    Settlement(true, Table(s.table, e.insertId, e.affected))
  }

  // ----- the invariant of every interleaving -----

  /** `out` and the statement's error once execution is over. */
  predicate Executed(e: ExecuteServer, s: State) {
    if e.executeOut != 0 then s.out == e.executeOut && s.fault == e.executeFault
    else if e.hasMetadata then s.out == e.storeOut && s.fault == e.storeFault
    else s.out == 0
  }

  /** The bind, the execution and the storing of the result have succeeded. */
  predicate HasRows(e: ExecuteServer) {
    e.bindOut == 0 && e.executeOut == 0 && e.hasMetadata && e.storeOut == 0
  }

  /** The rows in hand when `reject` has, or has not, been called by the end of the fetch. */
  predicate FetchSettled(e: ExecuteServer, s: State, result: Option<Settlement>) {
    if e.endOut == MYSQL_NO_DATA then result == None && s.table == Tables(e.rows, true)
    else result == Some(BlockingExecute(e)) && s.table == []
  }

  /** An action interrupted by an exception out of `reject`, and now continued: the phase has not
      changed and the flag still stands, except after a failed bind. */
  predicate Rejected(e: ExecuteServer, result: Option<Settlement>) {
    result == Some(BlockingExecute(e)) && !BlockingExecute(e).success
  }

  predicate InExecuting(e: ExecuteServer, s: State, result: Option<Settlement>) {
    && s.left == e.rows && s.stored == [] && s.table == [] && s.freed == 0
    && (if !s.started then
          result == None && !s.threadFinished && !s.inThread
        else if e.bindOut != 0 then
          s.worker == Idle && !s.threadFinished && !s.inThread && Rejected(e, result)
        else
          && (result == None
              || (&& s.worker == Idle && (e.executeOut != 0 || (e.hasMetadata && e.storeOut != 0))
                  && Rejected(e, result)))
          && match s.worker
             case AtExecute => true
             case AtMetadata => s.out == 0 && e.executeOut == 0
             case AtStore => s.out == 0 && e.executeOut == 0 && e.hasMetadata
             case Flagging => Executed(e, s)
             case Idle => s.threadFinished && Executed(e, s)
             case _ => false)
  }

  predicate InFetching(e: ExecuteServer, s: State, result: Option<Settlement>) {
    && HasRows(e) && s.table == [] && s.freed == 0
    && (if !s.started then
          result == None && s.left == e.rows && s.stored == [] && !s.inThread
        else
          && (result == None || (s.worker == Idle && e.endOut != MYSQL_NO_DATA && Rejected(e, result)))
          && match s.worker
             case AtFetch => s.stored + s.left == e.rows
             case AtPush(row) => s.stored + [row] + s.left == e.rows
             case Flagging => s.stored == e.rows && s.out == e.endOut && s.fault == e.fetchFault
             case Idle => s.threadFinished && s.stored == e.rows && s.out == e.endOut && s.fault == e.fetchFault
             case _ => false)
  }

  /** Rows to free mean a worker, and `inThread` stays set after it. */
  predicate InFreeingResults(e: ExecuteServer, s: State, result: Option<Settlement>) {
    && HasRows(e) && FetchSettled(e, s, result)
    && s.freed + |s.stored| == |e.rows|
    && (if !s.started then
          s.threadFinished && !s.inThread && s.freed == 0
        else
          && (s.inThread <==> e.rows != [])
          && match s.worker
          case AtFree => true
          case Flagging => s.stored == []
          case Idle => s.threadFinished && s.stored == []
          case _ => false)
  }

  predicate InFreeingStatement(e: ExecuteServer, s: State, result: Option<Settlement>) {
    && HasRows(e) && FetchSettled(e, s, result)
    && s.stored == [] && s.freed == |e.rows| && s.worker == Idle
    && (s.inThread <==> e.rows != [])
    && (s.started ==> |s.waits| < |e.freeWaits|)
  }

  /** Holds at every moment of every interleaving of ticks and worker steps, `result` being the
      outcome of the promise so far. */
  predicate Inv(e: ExecuteServer, s: State, socket: Flags, result: Option<Settlement>) {
    && HandoffSafe(s, socket)
    && (s.phase == FreeingStatement && s.started ==> socket != 0)
    && (s.phase != FreeingStatement ==> socket == 0 || socket == WAIT_READ)
    && match s.phase
       case Executing => InExecuting(e, s, result)
       case Fetching => InFetching(e, s, result)
       case FreeingResults => InFreeingResults(e, s, result)
       case FreeingStatement => InFreeingStatement(e, s, result)
  }

  /** A worker exists only inside a started phase that the tick side waits for through the flag. */
  predicate HandoffSafe(s: State, socket: Flags) {
    && (s.worker != Idle ==> s.started && s.inThread && !s.threadFinished && socket != 0)
    && (!s.started ==> socket == 0)
  }

  lemma WorkerStepKeepsInv(e: ExecuteServer, s: State, socket: Flags, result: Option<Settlement>)
    requires Inv(e, s, socket, result)
    ensures Inv(e, WorkerStep(e, s), socket, result)
    ensures WorkerStep(e, s).phase == s.phase && WorkerStep(e, s).started == s.started
  {
  }

  lemma {:induction false} WorkerStepsKeepInv(e: ExecuteServer, s: State, socket: Flags,
                                              result: Option<Settlement>, n: nat)
    requires Inv(e, s, socket, result)
    ensures Inv(e, WorkerSteps(e, s, n), socket, result)
    ensures WorkerSteps(e, s, n).phase == s.phase && WorkerSteps(e, s, n).started == s.started
    decreases n
  {
    if n != 0 {
      WorkerStepKeepsInv(e, s, socket, result);
      WorkerStepsKeepInv(e, WorkerStep(e, s), socket, result, n - 1);
    }
  }

  /** The state in which the third function of a phase is called: no worker is unfinished. */
  predicate Landed(e: ExecuteServer, s: State, result: Option<Settlement>) {
    && s.started && s.worker == Idle
    && match s.phase
       case Executing =>
         if e.bindOut != 0 then
           && result == None && s.out == e.bindOut && s.fault == e.bindFault
           && s.left == e.rows && s.stored == [] && s.table == [] && s.freed == 0
           && !s.threadFinished && !s.inThread
         else InExecuting(e, s, result)
       case Fetching => InFetching(e, s, result)
       case FreeingResults => InFreeingResults(e, s, result)
       case FreeingStatement =>
         && HasRows(e) && FetchSettled(e, s, result) && s.stored == [] && s.freed == |e.rows|
         && (s.inThread <==> e.rows != [])
  }

  lemma StartLands(e: ExecuteServer, s: State, result: Option<Settlement>, burst: nat)
    requires Inv(e, s, 0, result) && !s.started
    ensures s.worker == Idle
    ensures var (s1, socket1, _) := Start(e, s.(started := true), burst);
            && s1.phase == s.phase
            && if socket1 != 0 then Inv(e, s1, socket1, result) else Landed(e, s1, result)
  {
    var s0 := s.(started := true);
    match s.phase
    case Executing =>
      if e.bindOut == 0 {
        var s1 := s0.(out := e.bindOut, fault := e.bindFault, inThread := true, worker := AtExecute);
        assert Inv(e, s1, WAIT_READ, result);
        WorkerStepsKeepInv(e, s1, WAIT_READ, result, burst);
      }
    case Fetching =>
      var s1 := s0.(threadFinished := false, inThread := true, worker := AtFetch);
      assert Inv(e, s1, WAIT_READ, result);
      WorkerStepsKeepInv(e, s1, WAIT_READ, result, burst);
    case FreeingResults =>
      if s.stored != [] {
        var s1 := s0.(threadFinished := false, inThread := true, worker := AtFree);
        assert Inv(e, s1, WAIT_READ, result);
        WorkerStepsKeepInv(e, s1, WAIT_READ, result, burst);
      }
    case FreeingStatement =>
  }

  lemma AdvanceLands(e: ExecuteServer, s: State, socket: Flags, result: Option<Settlement>,
                     ready: Readiness, burst: nat)
    requires Inv(e, s, socket, result)
    ensures var (s1, socket1, _) := Advance(e, s, socket, ready, burst);
            if socket1 != 0 then Inv(e, s1, socket1, result) else Landed(e, s1, result)
  {
    if !s.started {
      StartLands(e, s, result, burst);
    }
  }

  lemma LandedFinishes(e: ExecuteServer, s: State, result: Option<Settlement>)
    requires Landed(e, s, result)
    ensures match FinishPhase(e, s)
            case RejectAndReturn(fault) =>
              var blocking := BlockingExecute(e);
              && blocking == Settlement(false, Failure(fault))
              && (result.Some? ==> result == Some(blocking))
              && Inv(e, LeaveThread(s), 0, Some(blocking))
            case Return =>
              var blocking := BlockingExecute(e);
              && (result.Some? ==> result == Some(blocking))
              && (result.None? ==> Resolution(e, s) == blocking)
            case Proceed(reject, s2) =>
              var blocking := BlockingExecute(e);
              && (reject.Some? ==> blocking == Settlement(false, Failure(reject.value)))
              && (result.Some? ==> result == Some(blocking))
              && (reject.Some? ==> Inv(e, LeaveThread(s), 0, Some(blocking)))
              && Inv(e, s2.(started := false), 0, if reject.Some? then Some(blocking) else result)
              && (s2.phase != Executing)
  {
    assert Tables([], true) == [];
  }

  /** When the fetch ends with 100, the table of every row fetched is appended, in order. */
  lemma FetchAppends(e: ExecuteServer, s: State, result: Option<Settlement>)
    requires Landed(e, s, result) && s.phase == Fetching && s.out == 100
    ensures var f := FinishPhase(e, s);
            && f.Proceed? && f.reject.None? && |f.s.table| == |e.rows|
            && forall i :: 0 <= i < |e.rows| ==> HoldsRow(f.s.table[i], e.rows[i], true)
  {
    hide HoldsRow;
    forall i | 0 <= i < |e.rows| ensures HoldsRow(RowTable(e.rows[i], true), e.rows[i], true) {
      RowTableHolds(e.rows[i], true);
    }
  }

  /** What a visit leaves behind. */
  predicate TurnOk(e: ExecuteServer, t: Turn<State>, rejectThrows: bool, result: Option<Settlement>) {
    var result' := ResultAfter(result, t.reject);
    && (t.verdict != Done ==> Inv(e, t.m, t.socket, result'))
    && (t.verdict == Done ==> && t.socket == 0
                              && (result'.Some? ==> result' == Some(BlockingExecute(e)))
                              && (result'.None? ==> Resolution(e, t.m) == BlockingExecute(e))
                              && t.m.worker == Idle && t.m.stored == []
                              && t.m.freed == if HasRows(e) then |e.rows| else 0)
    && (t.verdict == Threw ==> rejectThrows && t.reject.Some?)
  }

  lemma ConcludeKeepsInv(e: ExecuteServer, s: State, call: Option<Call>, rejectThrows: bool, result: Option<Settlement>)
    requires Landed(e, s, result)
    ensures TurnOk(e, Conclude(e, s, call, rejectThrows), rejectThrows, result)
    ensures Conclude(e, s, call, rejectThrows).m.worker == Idle
  {
    hide Inv, BlockingExecute, Tables;
    LandedFinishes(e, s, result);
  }

  /** One tick keeps the invariant; a tick that ends the execution leaves the promise rejected, or
      about to be resolved, as the blocking program would, with every stored row freed. */
  lemma ExecuteKeepsInv(e: ExecuteServer, s: State, socket: Flags, ready: Readiness, burst: nat,
                        rejectThrows: bool, result: Option<Settlement>)
    requires Inv(e, s, socket, result)
    ensures TurnOk(e, Query(e, s, socket, ready, burst, rejectThrows), rejectThrows, result)
  {
    AdvanceLands(e, s, socket, result, ready, burst);
    var (s1, socket1, call) := Advance(e, s, socket, ready, burst);
    if socket1 == 0 {
      ConcludeKeepsInv(e, s1, call, rejectThrows, result);
    }
  }

  /** Safe handoff: while a worker is unfinished, the tick side spawns no other, leaves the phase and
      everything the worker writes alone, and calls neither `reject` nor the non-blocking interface.
      (`Inv` makes an unfinished worker mean `inThread` and not `threadFinished`.) */
  lemma BusyTickTouchesNothing(e: ExecuteServer, s: State, socket: Flags, ready: Readiness, burst: nat,
                               rejectThrows: bool, result: Option<Settlement>)
    requires Inv(e, s, socket, result) && s.worker != Idle
    ensures Query(e, s, socket, ready, burst, rejectThrows) == Turn(s, WAIT_READ, None, None, Waiting)
  {
    assert s.phase != FreeingStatement;
  }

  lemma {:induction false} WorkerKeepsPhase(e: ExecuteServer, s: State, n: nat)
    ensures var s1 := WorkerSteps(e, s, n);
            s1.phase == s.phase && s1.started == s.started && s1.waits == s.waits
    decreases n
  {
    if n != 0 {
      WorkerKeepsPhase(e, WorkerStep(e, s), n - 1);
    }
  }

  lemma AdvanceCalls(e: ExecuteServer, s: State, socket: Flags, ready: Readiness, burst: nat)
    requires s.phase == FreeingStatement ==> (s.started <==> socket != 0)
    ensures var (s1, socket1, call) := Advance(e, s, socket, ready, burst);
            && s1.phase == s.phase
            && (s.phase != FreeingStatement ==> call.None?)
            && (s.phase == FreeingStatement && call.None? ==> s1 == s && socket1 == socket != 0)
            && (call.Some? ==> call.value.ret == socket1 && (call.value.ContinueCall? <==> socket != 0))
  {
    if !s.started {
      var s1 := s.(started := true, out := e.bindOut, fault := e.bindFault, inThread := true, worker := AtExecute);
      WorkerKeepsPhase(e, s1, burst);
      var s2 := s.(started := true, threadFinished := false, inThread := true);
      WorkerKeepsPhase(e, s2.(worker := AtFetch), burst);
      WorkerKeepsPhase(e, s2.(worker := AtFree), burst);
    }
  }

  /** A worker spawned during a tick is either finished before that tick looks at its work, or still
      unfinished when the tick ends without having looked. */
  lemma SpawningTickWaits(e: ExecuteServer, s: State, socket: Flags, ready: Readiness, burst: nat,
                          rejectThrows: bool, result: Option<Settlement>)
    requires Inv(e, s, socket, result)
    ensures var t := Query(e, s, socket, ready, burst, rejectThrows);
            t.m.worker != Idle ==> t.m.phase == s.phase && t.reject.None? && t.verdict == Waiting
  {
    AdvanceLands(e, s, socket, result, ready, burst);
    AdvanceCalls(e, s, socket, ready, burst);
    var (s1, socket1, call) := Advance(e, s, socket, ready, burst);
    if socket1 == 0 {
      ConcludeKeepsInv(e, s1, call, rejectThrows, result);
    }
  }

  // ----- the discipline of the non-blocking calls -----

  /** A non-blocking call of this action is suspended. */
  predicate CallSuspended(s: State, socket: Flags) {
    s.phase == FreeingStatement && socket != 0
  }

  /** Only the last phase makes non-blocking calls: a start when none is suspended, a continue when
      one is. */
  lemma ExecuteCalls(e: ExecuteServer, s: State, socket: Flags, ready: Readiness, burst: nat,
                     rejectThrows: bool, result: Option<Settlement>)
    requires Inv(e, s, socket, result)
    ensures var t := Query(e, s, socket, ready, burst, rejectThrows);
            && (t.call.None? ==> CallSuspended(s, socket) == CallSuspended(t.m, t.socket))
            && (t.call.Some? ==> && t.call.value.ret == t.socket
                                 && s.phase == t.m.phase == FreeingStatement
                                 && (t.call.value.ContinueCall? <==> CallSuspended(s, socket)))
  {
    AdvanceCalls(e, s, socket, ready, burst);
  }

  // ----- progress -----

  function WorkerRank(s: State): nat {
    match s.worker
    case Idle => 0
    case AtExecute => 4
    case AtMetadata => 3
    case AtStore => 2
    case AtFetch => 2 * |s.left| + 2
    case AtPush(_) => 2 * |s.left| + 3
    case AtFree => |s.stored| + 2
    case Flagging => 1
  }

  function RowsInHand(s: State): nat {
    |s.stored| + |s.left| + if s.worker.AtPush? then 1 else 0
  }

  /** An upper bound on the worker steps and visits of the tick still needed. */
  function Rank(e: ExecuteServer, s: State): nat {
    var free := 2 + |e.freeWaits|;
    WorkerRank(s) +
    match s.phase
    case Executing => (if s.started then 1 else 6) + 2 * |s.left| + RowsInHand(s) + 8 + free
    case Fetching => (if s.started then 1 else 2 * |s.left| + 4) + RowsInHand(s) + 4 + free
    case FreeingResults => (if s.started then 1 else |s.stored| + 4) + free
    case FreeingStatement => if s.started then 1 + |s.waits| else free
  }

  lemma WorkerStepRank(e: ExecuteServer, s: State, socket: Flags, result: Option<Settlement>)
    requires Inv(e, s, socket, result) && s.worker != Idle
    ensures Rank(e, WorkerStep(e, s)) < Rank(e, s)
  {
  }

  lemma {:induction false} WorkerStepsRank(e: ExecuteServer, s: State, socket: Flags,
                                           result: Option<Settlement>, n: nat)
    requires Inv(e, s, socket, result)
    ensures Rank(e, WorkerSteps(e, s, n)) <= Rank(e, s)
    ensures s.worker != Idle && n != 0 ==> Rank(e, WorkerSteps(e, s, n)) < Rank(e, s)
    ensures s.worker == Idle ==> WorkerSteps(e, s, n) == s
    decreases n
  {
    if n != 0 {
      WorkerStepKeepsInv(e, s, socket, result);
      if s.worker != Idle {
        WorkerStepRank(e, s, socket, result);
      }
      WorkerStepsRank(e, WorkerStep(e, s), socket, result, n - 1);
    }
  }

  /** The action waits for a flag that no worker will ever set: the bind failed, so no worker was
      spawned, and the rejection left by an exception. */
  predicate Wedged(e: ExecuteServer, s: State) {
    s.phase == Executing && s.started && e.bindOut != 0
  }

  /** A visit at which the action takes a step. */
  predicate Helpful(e: ExecuteServer, s: State, socket: Flags, ready: Readiness) {
    && s.worker == Idle
    && !Wedged(e, s)
    && (s.started ==> s.inThread || CheckDatabaseStatus(socket, ready))
  }

  lemma StartRank(e: ExecuteServer, s: State, result: Option<Settlement>, burst: nat)
    requires Inv(e, s, 0, result) && !s.started
    ensures Rank(e, Start(e, s.(started := true), burst).0) < Rank(e, s)
  {
    var s0 := s.(started := true);
    match s.phase
    case Executing =>
      if e.bindOut == 0 {
        var s1 := s0.(out := e.bindOut, fault := e.bindFault, inThread := true, worker := AtExecute);
        WorkerStepsRank(e, s1, WAIT_READ, result, burst);
      }
    case Fetching =>
      WorkerStepsRank(e, s0.(threadFinished := false, inThread := true, worker := AtFetch), WAIT_READ, result, burst);
    case FreeingResults =>
      if s.stored != [] {
        WorkerStepsRank(e, s0.(threadFinished := false, inThread := true, worker := AtFree), WAIT_READ, result, burst);
      }
    case FreeingStatement =>
  }

  lemma FinishRank(e: ExecuteServer, s: State)
    requires s.started && s.worker == Idle
    ensures Rank(e, LeaveThread(s)) == Rank(e, s)
    ensures FinishPhase(e, s).Proceed? ==> Rank(e, FinishPhase(e, s).s.(started := false)) < Rank(e, s)
  {
    hide Tables;
  }

  lemma ConcludeRank(e: ExecuteServer, s: State, call: Option<Call>, rejectThrows: bool)
    requires s.started && s.worker == Idle
    ensures var t := Conclude(e, s, call, rejectThrows);
            && (t.verdict != Done ==> Rank(e, t.m) <= Rank(e, s))
            && (t.verdict == Waiting ==> Rank(e, t.m) < Rank(e, s))
  {
    hide Rank, FinishPhase, LeaveThread;
    FinishRank(e, s);
  }

  lemma AdvanceRank(e: ExecuteServer, s: State, socket: Flags, result: Option<Settlement>, ready: Readiness, burst: nat)
    requires Inv(e, s, socket, result)
    ensures var (s1, socket1, _) := Advance(e, s, socket, ready, burst);
            && Rank(e, s1) <= Rank(e, s)
            && (Helpful(e, s, socket, ready) && socket1 != 0 ==> Rank(e, s1) < Rank(e, s))
  {
    if !s.started {
      StartRank(e, s, result, burst);
    }
  }

  /** Every helpful visit brings the execution closer to its end. */
  lemma ExecuteRank(e: ExecuteServer, s: State, socket: Flags, ready: Readiness, burst: nat,
                    rejectThrows: bool, result: Option<Settlement>)
    requires Inv(e, s, socket, result)
    ensures var t := Query(e, s, socket, ready, burst, rejectThrows);
            && (t.verdict != Done ==> Rank(e, t.m) <= Rank(e, s))
            && (Helpful(e, s, socket, ready) && t.verdict == Waiting ==> Rank(e, t.m) < Rank(e, s))
  {
    AdvanceLands(e, s, socket, result, ready, burst);
    AdvanceRank(e, s, socket, result, ready, burst);
    var (s1, socket1, call) := Advance(e, s, socket, ready, burst);
    if socket1 == 0 {
      ConcludeRank(e, s1, call, rejectThrows);
    }
  }

  // ----- the waits on the path of an execution -----

  /** With rows freed by a worker, `inThread` makes every later visit continue without the test. */
  lemma FreeIgnoresSocket(e: ExecuteServer, s: State, socket: Flags, ready: Readiness, burst: nat,
                          rejectThrows: bool, result: Option<Settlement>)
    requires Inv(e, s, socket, result) && CallSuspended(s, socket) && !CheckDatabaseStatus(socket, ready)
    ensures Query(e, s, socket, ready, burst, rejectThrows).call.Some? <==> e.rows != []
  {
  }

  /** The suspended free of the statement, or all of it. */
  function FreeAhead(e: ExecuteServer, s: State, socket: Flags): seq<Flags> {
    if s.phase == FreeingStatement && s.started then [socket] + s.waits else e.freeWaits
  }

  /** The socket is looked at only by the free of a statement that returned no row. */
  predicate LooksAtSocket(e: ExecuteServer) {
    HasRows(e) && e.rows == []
  }

  predicate Unstuck(e: ExecuteServer, s: State, socket: Flags) {
    LooksAtSocket(e) ==> AllWakeable(FreeAhead(e, s, socket))
  }

  lemma AdvanceUnstuck(e: ExecuteServer, s: State, socket: Flags, ready: Readiness, burst: nat,
                       result: Option<Settlement>)
    requires Inv(e, s, socket, result) && LooksAtSocket(e) && s.phase == FreeingStatement
    ensures var (s1, socket1, _) := Advance(e, s, socket, ready, burst);
            && (socket1 == 0 ==> AllWakeable(FreeAhead(e, s, socket)))
            && (socket1 != 0 ==> s1.phase == FreeingStatement && s1.started)
            && (socket1 != 0 ==> (AllWakeable(FreeAhead(e, s1, socket1)) <==> AllWakeable(FreeAhead(e, s, socket))))
  {
    hide AllWakeable, Wakeable;
    WakeableExactly(socket);
    var waits := if s.started then s.waits else e.freeWaits;
    AllWakeableAppend([socket], s.waits);
    AllWakeableOne(socket);
    if waits != [] {
      assert [waits[0]] + waits[1..] == waits;
    }
  }

  /** A visit keeps what is ahead, but for waits that have passed the test. */
  lemma ExecuteWaits(e: ExecuteServer, s: State, socket: Flags, ready: Readiness, burst: nat,
                     rejectThrows: bool, result: Option<Settlement>)
    requires Inv(e, s, socket, result)
    ensures var t := Query(e, s, socket, ready, burst, rejectThrows);
            && (t.verdict == Done ==> Unstuck(e, s, socket))
            && (t.verdict != Done ==> (Unstuck(e, t.m, t.socket) <==> Unstuck(e, s, socket)))
  {
    if LooksAtSocket(e) {
      AdvanceCalls(e, s, socket, ready, burst);
      if s.phase == FreeingStatement {
        AdvanceUnstuck(e, s, socket, ready, burst, result);
      } else {
        AdvanceLands(e, s, socket, result, ready, burst);
        var (s1, socket1, call) := Advance(e, s, socket, ready, burst);
        if socket1 == 0 {
          ConcludeEarly(e, s1, call, rejectThrows, result);
        }
      }
    }
  }

  lemma ConcludeEarly(e: ExecuteServer, s: State, call: Option<Call>, rejectThrows: bool, result: Option<Settlement>)
    requires Landed(e, s, result) && HasRows(e) && s.phase != FreeingStatement
    ensures var t := Conclude(e, s, call, rejectThrows);
            t.verdict != Done && (t.m.phase == FreeingStatement ==> !t.m.started)
  {
  }

  /** An unfinished execution that is neither wedged nor stuck moves on a ready socket. */
  lemma ReadyVisitHelps(e: ExecuteServer, s: State, socket: Flags, result: Option<Settlement>)
    requires Inv(e, s, socket, result) && s.worker == Idle && !Wedged(e, s) && Unstuck(e, s, socket)
    ensures Helpful(e, s, socket, ALL_READY)
  {
    WakeableExactly(socket);
    if s.phase == FreeingStatement && s.started && e.rows == [] {
      assert FreeAhead(e, s, socket)[0] == socket;
    }
  }
}
