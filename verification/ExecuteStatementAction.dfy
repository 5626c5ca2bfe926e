// src/actions/executestatement.h:147-317 as a class: the tick side and the worker thread update the
// same fields, one atomic step at a time.

module ExecuteStatementActions {
  import opened Types
  import opened SocketStatus
  import opened Rows
  import opened Connector
  import opened Binding
  import opened Turns
  import opened Delivery
  import opened PromiseObjects
  import opened LuaActions
  import opened Actions
  import P = Promise
  import E = ExecuteMachine

  class ExecuteStatementAction {
    const id: nat
    const server: ExecuteServer
    const promise: PromiseObject
    const arguments: StatementArguments

    var refs: seq<nat>
    var typeError: Option<nat>

    var hasFinished: bool
    var started: bool
    var phase: E.Phase
    var inThread: bool
    var threadFinished: bool
    var out: int
    var fault: Fault
    var resultData: seq<RawRow>
    var table: seq<LuaRow>

    // the worker thread, and the connector's side
    var worker: E.Worker
    var left: seq<RawRow>
    var waits: seq<Wait>
    var freed: nat

    function Fields(): E.State
      reads this
    {
      E.State(phase, started, inThread, threadFinished, out, fault, resultData, table, worker, left, waits, freed)
    }

    function Value(): Action
      reads this, promise
    {
      Action(id, ExecuteM(server, Fields()), promise.Value(), hasFinished, refs)
    }

    /** `refs` are the references of the promise; the table of the result is created after the arguments
        have been bound, unless a type error leaves the constructor. */
    constructor (id: nat, server: ExecuteServer, job: P.Job, refs: seq<nat>)
      ensures Value() == Action(id, Init(ForExecute(server)),
                                P.PENDING.(next := job.onNext, catch_ := job.onCatch), false, refs)
      ensures fresh(promise)
      ensures typeError == FirstUnbindable(server.args, server.params)
      ensures arguments.Valid() && arguments.arguments.Length == server.params
      ensures typeError.None? ==> forall k :: 0 <= k < server.params ==>
                                    arguments.Value(k) == Parameter(server.args, k)
    {
      this.id, this.refs, this.server := id, refs, server;
      hasFinished, started, phase, inThread, threadFinished := false, false, E.Executing, false, false;
      out, fault, resultData, table, worker := 0, Fault("", 0), [], [], E.Idle;
      left, waits, freed := server.rows, [], 0;
      promise := new PromiseObject(job.onNext, job.onCatch);
      arguments := new StatementArguments(server.params);
      typeError := None;
      new;
      typeError := arguments.PopulateAll(server.args);
    }

    /** `lua_newtable` and `luaL_ref`, at the end of the constructor. */
    method CreateTable(table: nat)
      modifies this`refs
      ensures Value() == old(Value()).(refs := old(refs) + [table])
    {
      refs := refs + [table];
    }

    /** One atomic step of the worker thread (src/actions/executestatement.h:173-192, 220-230, 271-277). */
    method WorkerStep()
      modifies this`out, this`fault, this`worker, this`left, this`resultData, this`freed, this`threadFinished
      ensures Fields() == E.WorkerStep(server, old(Fields()))
    {
      match worker {
        case Idle =>
        case AtExecute =>
          out, fault := server.executeOut, server.executeFault;
          worker := if out != 0 then E.Flagging else E.AtMetadata;
        case AtMetadata =>
          worker := if server.hasMetadata then E.AtStore else E.Flagging;
        case AtStore =>
          out, fault, worker := server.storeOut, server.storeFault, E.Flagging;
        case AtFetch =>
          if left == [] {
            out, fault, worker := server.endOut, server.fetchFault, E.Flagging;
          } else {
            out, worker, left := 0, E.AtPush(left[0]), left[1..];
          }
        case AtPush(fetched) =>
          resultData, worker := resultData + [fetched], E.AtFetch;
        case AtFree =>
          if |resultData| > 0 {
            freed, resultData := freed + 1, resultData[1..];
          } else {
            worker := E.Flagging;
          }
        case Flagging =>
          threadFinished, worker := true, E.Idle;
      }
    }

    method WorkerSteps(n: nat)
      modifies this`out, this`fault, this`worker, this`left, this`resultData, this`freed, this`threadFinished
      ensures Fields() == E.WorkerSteps(server, old(Fields()), n)
    {
      var k := n;
      while k > 0
        invariant 0 <= k <= n
        invariant E.WorkerSteps(server, Fields(), k) == E.WorkerSteps(server, old(Fields()), n)
      {
        WorkerStep();
        k := k - 1;
      }
    }

    /** `std::thread(...).detach()`, then the test of the flag. */
    method Spawn(body: E.Worker, burst: nat) returns (ret: Flags)
      modifies this`out, this`fault, this`worker, this`left, this`resultData, this`freed, this`threadFinished,
               this`inThread
      ensures Fields() == E.Spawn(server, old(Fields()), body, burst)
      ensures ret == E.FlagStatus(Fields())
    {
      inThread, worker := true, body;
      WorkerSteps(burst);
      ret := if threadFinished then 0 else WAIT_READ;
    }

    /** ExecuteStart, FetchStart, FreeResultsStart or FreeStatementStart. */
    method StartPhase(burst: nat) returns (ret: Flags, ghost call: Option<Call>)
      modifies this`out, this`fault, this`worker, this`left, this`resultData, this`freed, this`threadFinished,
               this`inThread, this`waits
      ensures (Fields(), ret, call) == E.Start(server, old(Fields()), burst)
    {
      call := None;
      match phase {
        case Executing =>
          out, fault := server.bindOut, server.bindFault;
          if out != 0 {
            ret := 0;
          } else {
            ret := Spawn(E.AtExecute, burst);
          }
        case Fetching =>
          threadFinished := false;
          ret := Spawn(E.AtFetch, burst);
        case FreeingResults =>
          if |resultData| == 0 {
            ret := 0;
          } else {
            threadFinished := false;
            ret := Spawn(E.AtFree, burst);
          }
        case FreeingStatement =>
          ret, waits := Issue(server.freeWaits).0, Issue(server.freeWaits).1;
          call := Some(StartCall(ret));
      }
    }

    /** The second function of the phase. */
    method ContinuePhase() returns (ret: Flags, ghost call: Option<Call>)
      modifies this`waits
      ensures (Fields(), ret, call) == E.Continue(server, old(Fields()))
    {
      call := None;
      if phase == E.FreeingStatement {
        ret, waits := Issue(waits).0, Issue(waits).1;
        call := Some(ContinueCall(ret));
      } else {
        ret := if threadFinished then 0 else WAIT_READ;
      }
    }

    /** ExecuteFinish, FetchFinish, FreeResultsFinish or FreeStatementFinish. */
    method FinishPhase() returns (done: bool, reject: Option<Payload>, requests: seq<P.Request>, threw: bool)
      requires P.Quiescent(promise.Value())
      modifies this`phase, this`inThread, this`table, promise
      ensures promise.Value() == SettleWith(old(promise.Value()), Rejection(reject)).p
      ensures requests == SettleWith(old(promise.Value()), Rejection(reject)).requests
      ensures threw == (reject.Some? && RejectThrows(old(promise.Value())))
      ensures match E.FinishPhase(server, old(Fields()))
              case RejectAndReturn(f) => done && reject == Some(Failure(f)) && Fields() == E.LeaveThread(old(Fields()))
              case Return => done && reject == None && Fields() == E.LeaveThread(old(Fields()))
              case Proceed(None, next) => !done && reject == None && Fields() == next
              case Proceed(Some(f), next) =>
                !done && reject == Some(Failure(f)) && Fields() == if threw then E.LeaveThread(old(Fields())) else next
    {
      done, reject, requests, threw := false, None, [], false;
      match phase {
        case Executing =>
          inThread := false;
          if out != 0 {
            done, reject := true, Some(Failure(fault));
            requests, threw := Reject(promise, fault);
          } else if !server.hasMetadata {
            done := true;
          } else {
            phase := E.Fetching;
          }
        case Fetching =>
          inThread := false;
          if out == MYSQL_DATA_TRUNCATED {
            var truncated := fault.(message := "MySQL data truncated");
            reject := Some(Failure(truncated));
            requests, threw := Reject(promise, truncated);
          } else if out == MYSQL_NO_DATA {
            AppendRows();
          } else {
            reject := Some(Failure(fault));
            requests, threw := Reject(promise, fault);
          }
          if !threw {
            phase := E.FreeingResults;
          }
        case FreeingResults =>
          phase := E.FreeingStatement;
        case FreeingStatement =>
          done := true;
      }
    }

    /** The stored rows go to the result table, in fetch order: behind what is there already, row by row. */
    method AppendRows()
      modifies this`table
      ensures table == old(table) + Tables(resultData, true)
      ensures |table| == |old(table)| + |resultData| && old(table) <= table
      ensures forall i :: 0 <= i < |resultData| ==>
                && table[|old(table)| + i] == RowTable(resultData[i], true)
                && HoldsRow(table[|old(table)| + i], resultData[i], true)
    {
      for k := 0 to |resultData|
        invariant table == old(table) + Tables(resultData[..k], true)
      {
        var entry := PushRow(resultData[k], true);
        table := table + [entry];
        assert Tables(resultData[..k + 1], true) == Tables(resultData[..k], true) + [entry];
      }
      assert resultData[..|resultData|] == resultData;
      forall i | 0 <= i < |resultData| ensures HoldsRow(table[|old(table)| + i], resultData[i], true) {
        RowTableHolds(resultData[i], true);
      }
    }

    /** The end of `Query`, once the operation of the phase is over. */
    method Conclude(ghost call: Option<Call>)
      returns (reject: Option<Payload>, requests: seq<P.Request>, verdict: Verdict)
      requires P.Quiescent(promise.Value())
      modifies this`phase, this`inThread, this`table, this`started, promise
      ensures Turn(Fields(), 0, call, reject, verdict)
           == E.Conclude(server, old(Fields()), call, RejectThrows(old(promise.Value())))
      ensures promise.Value() == SettleWith(old(promise.Value()), Rejection(reject)).p
      ensures requests == SettleWith(old(promise.Value()), Rejection(reject)).requests
    {
      hide E.FinishPhase, SettleWith, RejectThrows;
      var done, threw;
      done, reject, requests, threw := FinishPhase();
      if threw {
        verdict := Threw;
      } else {
        started := false;
        verdict := if done then Done else Waiting;
      }
    }

    /** `ExecuteStatementAction::Query` (src/actions/executestatement.h:147-166). */
    method Query(socket: Flags, ready: Readiness, burst: nat)
      returns (socket': Flags, ghost call: Option<Call>, reject: Option<Payload>, requests: seq<P.Request>,
               verdict: Verdict)
      requires P.Quiescent(promise.Value())
      modifies this`started, this`phase, this`inThread, this`threadFinished, this`out, this`fault, this`resultData,
               this`table, this`worker, this`left, this`waits, this`freed, promise
      ensures Turn(Fields(), socket', call, reject, verdict)
           == E.Query(server, old(Fields()), socket, ready, burst, RejectThrows(old(promise.Value())))
      ensures promise.Value() == SettleWith(old(promise.Value()), Rejection(reject)).p
      ensures requests == SettleWith(old(promise.Value()), Rejection(reject)).requests
    {
      hide E.Start, E.Continue, E.Conclude, RejectThrows;
      socket', call := socket, None;
      if !started {
        started := true;
        socket', call := StartPhase(burst);
      } else if inThread || CheckDatabaseStatus(socket, ready) {
        socket', call := ContinuePhase();
      }
      reject, requests, verdict := None, [], Waiting;
      if socket' == 0 {
        reject, requests, verdict := Conclude(call);
      }
    }

    /** `Finish` (src/actions/executestatement.h:302-317): a promise still pending is resolved with the table,
        the insert id unless it is 0, and the affected-row count unless it is 2^64 - 1. */
    method Finish() returns (requests: seq<P.Request>, threw: bool)
      modifies promise
      ensures var s := Settlement(true, Table(table, server.insertId, server.affected));
              var r := SettleWith(old(promise.Value()), Some(s));
              promise.Value() == r.p && requests == r.requests && threw == r.threw
      ensures old(promise.Value()).result.None? ==>
                && promise.Value().result.Some? && promise.Value().result.value.success
                && var data := promise.Value().result.value.data;
                   data.ResultTable? && data.rows == table
                   && DeliversNumbers(data, server.insertId, server.affected)
    {
      hide SettleWith;
      var s := Settlement(true, Table(table, server.insertId, server.affected));
      if promise.Value().result.None? {
        PendingTakes(promise.Value(), s);
      }
      requests, threw := Resolve(promise, s);
    }

    /** One visit by `RunTick`: `Query`, then `DoFinish` with `Finish`
        (src/actions/executestatement.h:302-317). */
    method Visited(socket: Flags, env: Env)
      returns (socket': Flags, ghost call: Option<Call>, entered: bool, requests: seq<P.Request>, verdict: Verdict)
      requires P.Quiescent(promise.Value())
      modifies this, promise
      ensures Visit(Value(), socket', call, entered, requests, verdict) == VisitAction(old(Value()), socket, env)
    {
      hide E.Query, E.WorkerSteps, SettleWith, RejectThrows, MachineInv;
      socket', call, entered, requests, verdict := socket, None, false, [], Done;
      if !hasFinished {
        WorkerSteps(env.before);
        var reject;
        socket', call, reject, requests, verdict := Query(socket, env.ready, env.burst);
        if verdict == Done {
          hasFinished, entered := true, true;
          var more, threw := Finish();
          requests := requests + more;
          verdict := if threw then Threw else Done;
        }
      }
    }
  }
}
