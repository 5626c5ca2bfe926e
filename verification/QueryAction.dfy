// src/actions/query.h as a class: fields updated call by call, with the promise it settles.

module LuaActions {
  import opened Types
  import opened PromiseObjects
  import opened Actions
  import P = Promise

  /** `LuaAction::Reject` (src/luaaction.h:30-38): the rejection handler may throw through it. */
  method Reject(promise: PromiseObject, fault: Fault) returns (requests: seq<P.Request>, threw: bool)
    requires P.Quiescent(promise.Value())
    modifies promise
    ensures threw == RejectThrows(old(promise.Value()))
    ensures P.Quiescent(promise.Value())
    ensures var r := SettleWith(old(promise.Value()), Some(Settlement(false, Failure(fault))));
            promise.Value() == r.p && requests == r.requests
  {
    SettleEffect(promise.Value(), Settlement(false, Failure(fault)));
    var calls;
    calls, requests, threw := promise.Finish(false, Failure(fault));
  }

  /** `PushResolve` and the call that follows it. */
  method Resolve(promise: PromiseObject, s: Settlement) returns (requests: seq<P.Request>, threw: bool)
    modifies promise
    ensures var r := SettleWith(old(promise.Value()), Some(s));
            promise.Value() == r.p && requests == r.requests && threw == r.threw
  {
    var calls;
    calls, requests, threw := promise.Finish(s.success, s.data);
  }
}

module QueryActions {
  import opened Types
  import opened SocketStatus
  import opened Rows
  import opened Connector
  import opened Turns
  import opened Delivery
  import opened PromiseObjects
  import opened LuaActions
  import opened Actions
  import P = Promise
  import Q = QueryMachine

  class QueryAction {
    const id: nat
    const refs: seq<nat>
    const server: QueryServer
    const promise: PromiseObject

    var hasFinished: bool
    var started: bool
    var phase: Q.Phase
    var out: int
    var row: Option<RawRow>
    var table: seq<LuaRow>
    var hasRetried: bool

    // the connector's side of the running operation
    var waits: seq<Wait>
    var left: seq<RowReply>
    var fault: Fault

    function Fields(): Q.State
      reads this
    {
      Q.State(phase, started, out, row, table, hasRetried, waits, left, fault)
    }

    function Value(): Action
      reads this, promise
    {
      Action(id, QueryM(server, Fields()), promise.Value(), hasFinished, refs)
    }

    constructor (id: nat, server: QueryServer, job: P.Job, refs: seq<nat>)
      ensures Value() == Action(id, Init(ForQuery(server)),
                                P.PENDING.(next := job.onNext, catch_ := job.onCatch), false, refs)
      ensures fresh(promise)
    {
      this.id, this.refs, this.server := id, refs, server;
      hasFinished, started, phase, out, row, table, hasRetried := false, false, Q.Querying, 0, None, [], false;
      waits, left, fault := [], server.rows, Fault("", 0);
      promise := new PromiseObject(job.onNext, job.onCatch);
    }

    /** StartQuery, StartFetch or StartFreeResult. */
    method StartPhase() returns (ret: Flags)
      modifies this`waits, this`out, this`row, this`left, this`fault
      ensures var (r, rest) := Issue(Q.Suspensions(server, old(Fields())));
              && ret == r
              && Fields() == var s := old(Fields()).(waits := rest); if r == 0 then Q.Completed(server, s) else s
    {
      var ops := Q.Suspensions(server, Fields());
      if ops != [] {
        ret, waits := ops[0], ops[1..];
      } else {
        ret, waits := 0, [];
        CompleteOperation();
      }
    }

    /** ContinueQuery, ContinueFetch or ContinueFreeResult; with no operation suspended, the
        connector reports a misuse. */
    method ContinuePhase(socket: Flags) returns (ret: Flags)
      modifies this`waits, this`out, this`row, this`left, this`fault
      ensures if socket == 0 then ret == 0 && Fields() == Q.Misused(server, old(Fields()))
              else
                var (r, rest) := Issue(old(waits));
                && ret == r
                && Fields() == var s := old(Fields()).(waits := rest); if r == 0 then Q.Completed(server, s) else s
    {
      if socket == 0 {
        ret := 0;
        match phase {
          case Querying => out, fault := server.misuseOut, server.misuseFault;
          case Fetching => row, fault := None, server.misuseFault;
          case Freeing => fault := server.misuseFault;
        }
      } else if waits != [] {
        ret, waits := waits[0], waits[1..];
      } else {
        ret := 0;
        CompleteOperation();
      }
    }

    /** The connector delivers the result of the operation. */
    method CompleteOperation()
      modifies this`out, this`row, this`left, this`fault
      ensures Fields() == Q.Completed(server, old(Fields()))
    {
      match phase {
        case Querying =>
          out, fault := server.out, server.queryFault;
        case Fetching =>
          if left != [] {
            row, left := Some(left[0].cells), left[1..];
          } else {
            row, fault := None, server.endFault;
          }
        case Freeing =>
          fault := server.freeFault;
      }
    }

    /** FinishQuery, FinishFetch or FinishFreeResult. */
    method FinishPhase() returns (done: bool, reject: Option<Payload>, requests: seq<P.Request>, threw: bool)
      requires P.Quiescent(promise.Value())
      modifies this`phase, this`table, promise
      ensures promise.Value() == SettleWith(old(promise.Value()), Rejection(reject)).p
      ensures requests == SettleWith(old(promise.Value()), Rejection(reject)).requests
      ensures threw == (reject.Some? && RejectThrows(old(promise.Value())))
      ensures match Q.FinishPhase(server, old(Fields()))
              case RejectAndReturn(f) => done && reject == Some(Failure(f)) && Fields() == old(Fields())
              case Return => done && reject == None && Fields() == old(Fields())
              case Proceed(next) => !done && reject == None && Fields() == next
    {
      done, reject, requests, threw := true, None, [], false;
      match phase {
        case Querying =>
          if out != 0 {
            reject := Some(Failure(fault));
            requests, threw := Reject(promise, fault);
          } else if server.hasResult {
            phase, done := Q.Fetching, false;
          } else if server.fieldCount != 0 {
            reject := Some(Failure(server.useFault));
            requests, threw := Reject(promise, server.useFault);
          }
        case Fetching =>
          if row.Some? {
            var entry := PushRow(row.value, false);
            table, done := table + [entry], false;
          } else if fault.errno != 0 {
            reject := Some(Failure(fault));
            requests, threw := Reject(promise, fault);
          } else {
            phase, done := Q.Freeing, false;
          }
        case Freeing =>
      }
    }

    /** The end of `Query`, once the operation of the phase is over. */
    method Conclude(ghost call: Option<Call>)
      returns (reject: Option<Payload>, requests: seq<P.Request>, verdict: Verdict)
      requires P.Quiescent(promise.Value())
      modifies this`started, this`phase, this`table, this`hasRetried, promise
      ensures Turn(Fields(), 0, call, reject, verdict)
           == Q.Conclude(server, old(Fields()), call, RejectThrows(old(promise.Value())))
      ensures promise.Value() == SettleWith(old(promise.Value()), Rejection(reject)).p
      ensures requests == SettleWith(old(promise.Value()), Rejection(reject)).requests
    {
      hide Q.FinishPhase, SettleWith, RejectThrows;
      var done, threw;
      done, reject, requests, threw := FinishPhase();
      if threw {
        verdict := Threw;
      } else if done {
        if !hasRetried && Q.ServerLost(Q.FinalFault(server, Fields()).errno) {
          hasRetried, table := true, [];
        }
        verdict := Done;
      } else {
        started := false;
        verdict := Waiting;
      }
    }

    /** `QueryAction::Query` (src/actions/query.h:26-54). */
    method Query(socket: Flags, ready: Readiness)
      returns (socket': Flags, ghost call: Option<Call>, reject: Option<Payload>, requests: seq<P.Request>,
               verdict: Verdict)
      requires P.Quiescent(promise.Value())
      modifies this`started, this`phase, this`out, this`row, this`table, this`hasRetried,
               this`waits, this`left, this`fault, promise
      ensures Turn(Fields(), socket', call, reject, verdict)
           == Q.Query(server, old(Fields()), socket, ready, RejectThrows(old(promise.Value())))
      ensures promise.Value() == SettleWith(old(promise.Value()), Rejection(reject)).p
      ensures requests == SettleWith(old(promise.Value()), Rejection(reject)).requests
    {
      hide Q.Conclude, Q.Completed, Q.Misused, RejectThrows;
      socket', call := socket, None;
      if !started {
        started := true;
        socket' := StartPhase();
        call := Some(StartCall(socket'));
      } else if CheckDatabaseStatus(socket, ready) {
        socket' := ContinuePhase(socket);
        call := Some(ContinueCall(socket'));
      }
      reject, requests, verdict := None, [], Waiting;
      if socket' == 0 {
        reject, requests, verdict := Conclude(call);
      }
    }

    /** `Finish` (src/actions/query.h:120-136): a promise still pending is resolved with the table, the insert
        id unless it is 0, and the affected-row count unless it is 2^64 - 1. */
    method Finish() returns (requests: seq<P.Request>, threw: bool)
      modifies promise
      ensures var s := Settlement(true, Table(table, server.insertId, server.affected));
              var r := SettleWith(old(promise.Value()), Some(s));
              promise.Value() == r.p && requests == r.requests && threw == r.threw
      ensures old(promise.Value()).result.None? ==>
                && promise.Value().result.Some? && promise.Value().result.value.success
                && var data := promise.Value().result.value.data;
                   data.ResultTable? && data.rows == table
                   && DeliversNumbers(data, server.insertId, server.affected)
    {
      hide SettleWith;
      var s := Settlement(true, Table(table, server.insertId, server.affected));
      if promise.Value().result.None? {
        PendingTakes(promise.Value(), s);
      }
      requests, threw := Resolve(promise, s);
    }

    /** One visit by `RunTick`: `Query`, then `DoFinish` with `Finish` (src/actions/query.h:120-136). */
    method Visited(socket: Flags, env: Env)
      returns (socket': Flags, ghost call: Option<Call>, entered: bool, requests: seq<P.Request>, verdict: Verdict)
      requires P.Quiescent(promise.Value())
      modifies this, promise
      ensures Visit(Value(), socket', call, entered, requests, verdict) == VisitAction(old(Value()), socket, env)
    {
      socket', call, entered, requests, verdict := socket, None, false, [], Done;
      if !hasFinished {
        var reject;
        socket', call, reject, requests, verdict := Query(socket, env.ready);
        if verdict == Done {
          hasFinished, entered := true, true;
          var more, threw := Finish();
          requests := requests + more;
          verdict := if threw then Threw else Done;
        }
      }
    }
  }
}
