// src/luaactionasync.h as a class, for the actions with a single operation: connect, ping,
// autocommit, commit, rollback, prepare, and the two closes.

module LuaActionsAsync {
  import opened Types
  import opened SocketStatus
  import opened Connector
  import opened Turns
  import opened Delivery
  import opened PromiseObjects
  import opened LuaActions
  import opened Actions
  import P = Promise

  class LuaActionAsync {
    const id: nat
    const refs: seq<nat>
    const server: AsyncServer
    const promise: PromiseObject

    var hasFinished: bool
    var started: bool
    var waits: seq<Wait>

    function Value(): Action
      reads this, promise
    {
      Action(id, AsyncM(server, AsyncState(started, waits)), promise.Value(), hasFinished, refs)
    }

    constructor (id: nat, server: AsyncServer, job: P.Job, refs: seq<nat>)
      ensures Value() == Action(id, Init(ForAsync(server)),
                                P.PENDING.(next := job.onNext, catch_ := job.onCatch), false, refs)
      ensures fresh(promise)
    {
      this.id, this.refs, this.server := id, refs, server;
      hasFinished, started, waits := false, false, [];
      promise := new PromiseObject(job.onNext, job.onCatch);
    }

    /** `Query` (src/luaactionasync.h:13-25). */
    method Query(socket: Flags, ready: Readiness) returns (socket': Flags, ghost call: Option<Call>, done: bool)
      modifies this`started, this`waits
      ensures Turn(AsyncState(started, waits), socket', call, None, if done then Done else Waiting)
           == AsyncQuery(server, AsyncState(old(started), old(waits)), socket, ready)
    {
      socket', call := socket, None;
      if !started {
        started := true;
        socket', waits := Issue(server.waits).0, Issue(server.waits).1;
        call := Some(StartCall(socket'));
      } else if CheckDatabaseStatus(socket, ready) {
        socket', waits := Issue(waits).0, Issue(waits).1;
        call := Some(ContinueCall(socket'));
      }
      done := socket' == 0;
    }

    /** `Finish` (src/actions/connect.h:20-29 and its like): a pending promise is resolved if and only if the
        operation returned 0, and otherwise rejected with the connection's error; the closes settle nothing. */
    method Finish() returns (requests: seq<P.Request>, threw: bool)
      requires P.Quiescent(promise.Value())
      modifies promise
      ensures var r := SettleWith(old(promise.Value()), BlockingAsync(server));
              promise.Value() == r.p && requests == r.requests && threw == r.threw
      ensures old(promise.Value()).result.None? ==> AsyncDelivers(server, promise.Value().result)
      ensures server.kind == StatementClose || server.kind == ConnectionClose
              ==> promise.Value() == old(promise.Value()) && requests == [] && !threw
    {
      hide P.Apply, P.Quiescent;
      requests, threw := [], false;
      if promise.Value().result.None? && BlockingAsync(server).Some? {
        PendingTakes(promise.Value(), BlockingAsync(server).value);
      }
      if server.kind == Ordinary || server.kind == Prepare {
        requests, threw := Resolve(promise, if server.ret != 0 then Settlement(false, Failure(server.fault))
                                            else Settlement(true, Success));
      }
    }

    /** One visit by `RunTick`: `Query`, then `DoFinish`. */
    method Visited(socket: Flags, env: Env)
      returns (socket': Flags, ghost call: Option<Call>, entered: bool, requests: seq<P.Request>, verdict: Verdict)
      requires P.Quiescent(promise.Value())
      modifies this, promise
      ensures Visit(Value(), socket', call, entered, requests, verdict) == VisitAction(old(Value()), socket, env)
    {
      hide AsyncQuery, P.Apply, P.Quiescent, RejectThrows, BlockingAsync;
      socket', call, entered, requests, verdict := socket, None, false, [], Done;
      if !hasFinished {
        ghost var p := promise.Value();
        assert SettleWith(p, None) == P.Reply(p, [], [], false);
        var done;
        socket', call, done := Query(socket, env.ready);
        if !done {
          verdict := Waiting;
        } else {
          hasFinished, entered := true, true;
          var threw;
          requests, threw := Finish();
          verdict := if threw then Threw else Done;
        }
      }
    }
  }
}
