// src/luaaction.h, src/luaactionasync.h and the virtual calls of src/luadatabase.cpp:61-71: one visit
// of the running action, whatever its kind, together with the promise it settles.

module Actions {
  import opened Types
  import opened SocketStatus
  import opened Connector
  import opened Turns
  import P = Promise
  import Q = QueryMachine
  import E = ExecuteMachine

  /** `started` of `LuaActionAsync`, and the suspensions left to its operation. */
  datatype AsyncState = AsyncState(started: bool, waits: seq<Wait>)

  /** The part of an action that its class adds to `LuaAction`, with the connector's side of it. */
  datatype Machine =
    | AsyncM(a: AsyncServer, async: AsyncState)
    | QueryM(q: QueryServer, query: Q.State)
    | ExecuteM(e: ExecuteServer, execute: E.State)
  {
    function Server(): Server {
      match this
      case AsyncM(a, _) => ForAsync(a)
      case QueryM(q, _) => ForQuery(q)
      case ExecuteM(e, _) => ForExecute(e)
    }
  }

  function Init(server: Server): Machine {
    match server
    case ForAsync(a) => AsyncM(a, AsyncState(false, []))
    case ForQuery(q) => QueryM(q, Q.Init(q))
    case ForExecute(e) => ExecuteM(e, E.Init(e))
  }

  /** `LuaActionAsync::Query` (src/luaactionasync.h:13-25). */
  function AsyncQuery(a: AsyncServer, s: AsyncState, socket: Flags, ready: Readiness): Turn<AsyncState> {
    if s.started && !CheckDatabaseStatus(socket, ready) then
      Turn(s, socket, None, None, if socket == 0 then Done else Waiting)
    else
      var (ret, rest) := Issue(if s.started then s.waits else a.waits);
      Turn(AsyncState(true, rest), ret, Some(if s.started then ContinueCall(ret) else StartCall(ret)), None,
           if ret == 0 then Done else Waiting)
  }

  function Query(m: Machine, socket: Flags, env: Env, rejectThrows: bool): Turn<Machine> {
    match m
    case AsyncM(a, s) =>
      var t := AsyncQuery(a, s, socket, env.ready);
      Turn(AsyncM(a, t.m), t.socket, t.call, t.reject, t.verdict)
    case QueryM(q, s) =>
      var t := Q.Query(q, s, socket, env.ready, rejectThrows);
      Turn(QueryM(q, t.m), t.socket, t.call, t.reject, t.verdict)
    case ExecuteM(e, s) =>
      var t := E.Query(e, E.WorkerSteps(e, s, env.before), socket, env.ready, env.burst, rejectThrows);
      Turn(ExecuteM(e, t.m), t.socket, t.call, t.reject, t.verdict)
  }

  /** What the action's `Finish` settles its promise with, if anything. */
  function FinishWith(m: Machine): Option<Settlement> {
    match m
    case AsyncM(a, _) => BlockingAsync(a)
    case QueryM(q, s) => Some(Q.Resolution(q, s))
    case ExecuteM(e, s) => Some(E.Resolution(e, s))
  }

  /** The settlement of the promise in every run that frees the action. */
  function Expected(server: Server): Option<Settlement> {
    match server
    case ForAsync(a) => BlockingAsync(a)
    case ForQuery(q) => Some(Q.Expected(q))
    case ForExecute(e) => Some(BlockingExecute(e))
  }

  /** An action: its number in the order of creation, its machine, its promise, `has_finished`, and
      the registry references it owns. */
  datatype Action = Action(id: nat, m: Machine, p: P.State, hasFinished: bool, refs: seq<nat>)

  /** One visit: the action and `socket_state` afterwards, the non-blocking call issued, whether
      `Finish` was entered, what the handlers requested, and whether the visit is to be repeated,
      left by an exception, or goes on to `Free`. */
  datatype Visit = Visit(a: Action, socket: Flags, call: Option<Call>, entered: bool,
                         requests: seq<P.Request>, verdict: Verdict)

  /** Whether the next call of `reject` leaves by an exception of the rejection handler. */
  predicate RejectThrows(p: P.State) {
    p.result.None? && p.catch_.Some? && P.Throws(p.catch_.value)
  }

  function SettleWith(p: P.State, s: Option<Settlement>): P.Reply {
    if s.None? then P.Reply(p, [], [], false)
    else P.Apply(p, P.Settle(s.value.success, s.value.data))
  }

  function Rejection(reject: Option<Payload>): Option<Settlement> {
    if reject.None? then None else Some(Settlement(false, reject.value))
  }

  /** `Query`, then `DoFinish` when it returned true; nothing when `has_finished` is already set. */
  function VisitAction(a: Action, socket: Flags, env: Env): Visit {
    if a.hasFinished then
      Visit(a, socket, None, false, [], Done)
    else
      var t := Query(a.m, socket, env, RejectThrows(a.p));
      var rejected := SettleWith(a.p, Rejection(t.reject));
      var a1 := a.(m := t.m, p := rejected.p);
      if t.verdict != Done then
        Visit(a1, t.socket, t.call, false, rejected.requests, t.verdict)
      else
        var resolved := SettleWith(rejected.p, FinishWith(t.m));
        Visit(a1.(p := resolved.p, hasFinished := true), t.socket, t.call, true,
              rejected.requests + resolved.requests, if resolved.threw then Threw else Done)
  }

  // ----- invariants -----

  predicate MachineInv(m: Machine, socket: Flags, result: Option<Settlement>) {
    match m
    case AsyncM(a, s) => result == None && (s.started <==> socket != 0)
    case QueryM(q, s) => Q.Inv(q, s, socket, result)
    case ExecuteM(e, s) => E.Inv(e, s, socket, result)
  }

  predicate ActionInv(a: Action, socket: Flags) {
    && P.Quiescent(a.p)
    && if a.hasFinished then a.p.result == Expected(a.m.Server()) && socket == 0
       else MachineInv(a.m, socket, a.p.result)
  }

  /** The requests made by a handler once it is called: those in its own body, in order, up to the first
      that throws. Handlers that it registers in turn are never called, its settlements absorbed. */
  function Requests(body: seq<P.Command>): seq<P.Request> {
    if body == [] then []
    else if P.CommandThrows(body[0]) then [P.Request(body[0].db, body[0].job)]
    else if body[0].Enqueue? then [P.Request(body[0].db, body[0].job)] + Requests(body[1..])
    else Requests(body[1..])
  }

  lemma {:induction false} FiredRequests(p: P.State, body: seq<P.Command>)
    requires p.finished && p.result.Some?
    ensures P.RunBody(p, body).requests == Requests(body)
    decreases |body|
  {
    P.FiredBodyIsInert(p, body);
    if body != [] {
      P.FiredIsInert(p, body[0]);
      FiredRequests(P.Apply(p, body[0]).p, body[1..]);
    }
  }

  /** Settling: absorbed after the first time; otherwise the matching handler runs. */
  lemma SettleEffect(p: P.State, s: Settlement)
    requires P.Quiescent(p)
    ensures var r := SettleWith(p, Some(s));
            var h := P.Matching(p, s.success);
            && P.Quiescent(r.p)
            && (p.result.Some? ==> r == P.Reply(p, [], [], false))
            && (p.result.None? ==>
                  && r.p.result == Some(s)
                  && r.p.finished == h.Some?
                  && (h.Some? ==> r.threw == P.Throws(h.value) && r.requests == Requests(h.value.body))
                  && (h.None? ==> !r.threw && r.requests == [] && r.p == p.(result := Some(s))))
  {
    P.UseKeepsQuiescent(p, P.Settle(s.success, s.data));
    var h := P.Matching(p, s.success);
    if p.result.None? && h.Some? {
      var fired := p.(result := Some(s), finished := true);
      P.FiredBodyIsInert(fired, h.value.body);
      FiredRequests(fired, h.value.body);
    }
  }

  lemma QueryKeepsMachineInv(m: Machine, socket: Flags, env: Env, rejectThrows: bool, result: Option<Settlement>)
    requires MachineInv(m, socket, result)
    requires result.Some? ==> !rejectThrows
    ensures var t := Query(m, socket, env, rejectThrows);
            var result' := ResultAfter(result, t.reject);
            && t.m.Server() == m.Server()
            && (t.verdict != Done ==> MachineInv(t.m, t.socket, result'))
            && (t.verdict == Done ==> t.socket == 0
                                      && (result'.Some? ==> result' == Expected(m.Server()))
                                      && (result'.None? ==> FinishWith(t.m) == Expected(m.Server())))
            && (t.verdict == Threw ==> rejectThrows && t.reject.Some?)
  {
    hide Q.Query, E.Query, Q.Inv, E.Inv, Q.Resolution, E.Resolution, BlockingExecute, Q.Expected;
    match m
    case AsyncM(_, _) =>
    case QueryM(q, s) => Q.QueryKeepsInv(q, s, socket, env.ready, rejectThrows, result);
    case ExecuteM(e, s) =>
      E.WorkerStepsKeepInv(e, s, socket, result, env.before);
      E.ExecuteKeepsInv(e, E.WorkerSteps(e, s, env.before), socket, env.ready, env.burst, rejectThrows, result);
  }

  /** One visit keeps the action's invariant; it goes on to `Free` only with the promise settled as
      expected, and enters `Finish` exactly when `has_finished` becomes true. */
  lemma VisitKeepsInv(a: Action, socket: Flags, env: Env)
    requires ActionInv(a, socket)
    ensures var v := VisitAction(a, socket, env);
            && ActionInv(v.a, v.socket)
            && v.a.id == a.id && v.a.refs == a.refs && v.a.m.Server() == a.m.Server()
            && v.entered == (!a.hasFinished && v.a.hasFinished)
            && (v.verdict == Done ==> v.a.hasFinished)
            && (v.verdict == Waiting ==> !v.a.hasFinished)
            && (a.hasFinished ==> v.verdict == Done && v.a == a && v.requests == [])
  {
    if !a.hasFinished {
      var t := Query(a.m, socket, env, RejectThrows(a.p));
      QueryKeepsMachineInv(a.m, socket, env, RejectThrows(a.p), a.p.result);
      if t.reject.Some? {
        SettleEffect(a.p, Settlement(false, t.reject.value));
      }
      var p1 := SettleWith(a.p, Rejection(t.reject)).p;
      assert P.Quiescent(p1) && p1.result == ResultAfter(a.p.result, t.reject);
      if t.verdict == Done && FinishWith(t.m).Some? {
        SettleEffect(p1, FinishWith(t.m).value);
      }
    }
  }

  // ----- the discipline of the non-blocking calls -----

  predicate CallSuspended(m: Machine, socket: Flags) {
    match m
    case AsyncM(_, _) => socket != 0
    case QueryM(_, _) => socket != 0
    case ExecuteM(_, s) => E.CallSuspended(s, socket)
  }

  /** A query whose rejection handler has thrown out of `Query`. */
  predicate Interrupted(a: Action, socket: Flags) {
    !a.hasFinished && a.m.QueryM? && Q.Interrupted(a.m.query, socket)
  }

  lemma MachineCalls(m: Machine, socket: Flags, env: Env, rejectThrows: bool, result: Option<Settlement>)
    requires MachineInv(m, socket, result)
    ensures var t := Query(m, socket, env, rejectThrows);
            var interrupted := m.QueryM? && Q.Interrupted(m.query, socket);
            && (t.call.None? ==> CallSuspended(t.m, t.socket) == CallSuspended(m, socket) && !interrupted)
            && (t.call.Some? ==> && CallSuspended(t.m, t.socket) == (t.call.value.ret != 0)
                                 && ((t.call.value.StartCall? == CallSuspended(m, socket)) <==> interrupted))
            && (t.verdict != Done && t.m.QueryM? ==> (Q.Interrupted(t.m.query, t.socket) <==> t.verdict == Threw))
  {
    match m
    case AsyncM(_, _) =>
    case QueryM(q, s) => Q.QueryCalls(q, s, socket, env.ready, rejectThrows);
    case ExecuteM(e, s) =>
      E.WorkerStepsKeepInv(e, s, socket, result, env.before);
      E.ExecuteCalls(e, E.WorkerSteps(e, s, env.before), socket, env.ready, env.burst, rejectThrows, result);
  }

  /** A visit makes at most one non-blocking call, and that call breaks the discipline exactly when
      the previous visit was left by an exception of a query's rejection handler. */
  lemma VisitCalls(a: Action, socket: Flags, env: Env)
    requires ActionInv(a, socket)
    ensures var v := VisitAction(a, socket, env);
            && (v.call.None? ==> && CallSuspended(v.a.m, v.socket) == CallSuspended(a.m, socket)
                                 && !Interrupted(a, socket))
            && (v.call.Some? ==> && CallSuspended(v.a.m, v.socket) == (v.call.value.ret != 0)
                                 && ((v.call.value.StartCall? == CallSuspended(a.m, socket))
                                     <==> Interrupted(a, socket)))
            && (Interrupted(v.a, v.socket) <==> v.verdict == Threw && !v.entered && a.m.QueryM?)
  {
    hide Query, MachineInv, CallSuspended, SettleWith, FinishWith;
    VisitKeepsInv(a, socket, env);
    if !a.hasFinished {
      MachineCalls(a.m, socket, env, RejectThrows(a.p), a.p.result);
    }
  }

  /** An exception leaves a visit only out of a handler that throws: before `Finish` is entered it is
      the rejection handler of a promise still pending. */
  lemma ThrowsComeFromHandlers(a: Action, socket: Flags, env: Env)
    requires ActionInv(a, socket) && VisitAction(a, socket, env).verdict == Threw
    ensures a.p.result.None?
    ensures RejectThrows(a.p) || (VisitAction(a, socket, env).entered && a.p.next.Some? && P.Throws(a.p.next.value))
  {
    var t := Query(a.m, socket, env, RejectThrows(a.p));
    QueryKeepsMachineInv(a.m, socket, env, RejectThrows(a.p), a.p.result);
    if t.verdict == Done {
      if t.reject.Some? {
        SettleEffect(a.p, Settlement(false, t.reject.value));
      }
      var p1 := SettleWith(a.p, Rejection(t.reject)).p;
      SettleEffect(p1, FinishWith(t.m).value);
    }
  }

  // ----- progress -----

  function MachineRank(m: Machine): nat {
    match m
    case AsyncM(a, s) => if s.started then 1 + |s.waits| else 2 + |a.waits|
    case QueryM(q, s) => Q.Rank(q, s)
    case ExecuteM(e, s) => E.Rank(e, s)
  }

  /** Steps that an action may still take before `Free`. */
  function Budget(a: Action): nat {
    if a.hasFinished then 0 else 1 + MachineRank(a.m) + if a.p.result.None? then 1 else 0
  }

  predicate MachineHelpful(m: Machine, socket: Flags, env: Env) {
    match m
    case AsyncM(_, s) => s.started ==> CheckDatabaseStatus(socket, env.ready)
    case QueryM(_, s) => Q.Helpful(s, socket, env.ready)
    case ExecuteM(e, s) => if s.worker.Idle? then E.Helpful(e, s, socket, env.ready) else env.before != 0
  }

  /** The environment lets the action take a step at this visit. */
  predicate Helpful(a: Action, socket: Flags, env: Env) {
    a.hasFinished || MachineHelpful(a.m, socket, env)
  }

  lemma MachineBudget(m: Machine, socket: Flags, env: Env, rejectThrows: bool, result: Option<Settlement>)
    requires MachineInv(m, socket, result)
    ensures var t := Query(m, socket, env, rejectThrows);
            && (t.verdict != Done ==> MachineRank(t.m) <= MachineRank(m))
            && (MachineHelpful(m, socket, env) && t.verdict == Waiting ==> MachineRank(t.m) < MachineRank(m))
  {
    match m
    case AsyncM(_, _) =>
    case QueryM(q, s) => Q.QueryRank(q, s, socket, env.ready, rejectThrows);
    case ExecuteM(e, s) =>
      E.WorkerStepsKeepInv(e, s, socket, result, env.before);
      E.WorkerStepsRank(e, s, socket, result, env.before);
      E.ExecuteRank(e, E.WorkerSteps(e, s, env.before), socket, env.ready, env.burst, rejectThrows, result);
  }

  /** A helpful visit frees the action or lowers its budget; no visit raises it. */
  lemma VisitBudget(a: Action, socket: Flags, env: Env)
    requires ActionInv(a, socket)
    ensures var v := VisitAction(a, socket, env);
            && (v.verdict != Done ==> Budget(v.a) <= Budget(a))
            && (v.verdict != Done && Helpful(a, socket, env) ==> Budget(v.a) < Budget(a))
  {
    VisitKeepsInv(a, socket, env);
    if !a.hasFinished {
      var t := Query(a.m, socket, env, RejectThrows(a.p));
      MachineBudget(a.m, socket, env, RejectThrows(a.p), a.p.result);
      QueryKeepsMachineInv(a.m, socket, env, RejectThrows(a.p), a.p.result);
      if t.reject.Some? {
        SettleEffect(a.p, Settlement(false, t.reject.value));
      }
    }
  }

  // ----- what a visit settles -----

  /** A promise rejected by its action is rejected with the expected settlement. */
  lemma InvExpected(m: Machine, socket: Flags, result: Option<Settlement>)
    requires MachineInv(m, socket, result) && result.Some?
    ensures result == Expected(m.Server())
  {
  }

  /** A `reject` that leaves by an exception ends the turn, and only that does. */
  lemma RejectEndsTurn(m: Machine, socket: Flags, env: Env, rejectThrows: bool)
    ensures var t := Query(m, socket, env, rejectThrows);
            && (t.verdict == Threw <==> t.reject.Some? && rejectThrows)
            && (t.verdict != Threw ==> t == Query(m, socket, env, false))
  {
  }

  /** The handler that the promise will call when its action settles it, whatever happens until then. */
  function Awaited(p: P.State, server: Server): Option<P.Handler> {
    if p.result.Some? || Expected(server).None? then None
    else P.Matching(p, Expected(server).value.success)
  }

  /** A visit either leaves the promise alone and calls nothing, or settles it as expected, and then calls
      the awaited handler, out of which alone an exception can come. */
  lemma VisitSettles(a: Action, socket: Flags, env: Env)
    requires ActionInv(a, socket)
    ensures var v := VisitAction(a, socket, env);
            var h := Awaited(a.p, a.m.Server());
            && v.a.m.Server() == a.m.Server()
            && (v.a.p.result == a.p.result ==> v.a.p == a.p && v.requests == [] && v.verdict != Threw)
            && (v.a.p.result != a.p.result ==>
                  && a.p.result.None? && v.a.p.result == Expected(a.m.Server())
                  && (h.None? ==> v.requests == [] && v.verdict != Threw
                                  && v.a.p == a.p.(result := v.a.p.result))
                  && (h.Some? ==> v.requests == Requests(h.value.body) && v.a.p.finished
                                  && (v.verdict == Threw <==> P.Throws(h.value))))
  {
    hide Query, MachineInv, FinishWith;
    VisitKeepsInv(a, socket, env);
    if !a.hasFinished {
      var t := Query(a.m, socket, env, RejectThrows(a.p));
      QueryKeepsMachineInv(a.m, socket, env, RejectThrows(a.p), a.p.result);
      RejectEndsTurn(a.m, socket, env, RejectThrows(a.p));
      var result := ResultAfter(a.p.result, t.reject);
      if t.verdict != Done && result.Some? {
        InvExpected(t.m, t.socket, result);
      }
      if t.reject.Some? {
        SettleEffect(a.p, Settlement(false, t.reject.value));
      }
      var p1 := SettleWith(a.p, Rejection(t.reject)).p;
      if t.verdict == Done && FinishWith(t.m).Some? {
        SettleEffect(p1, FinishWith(t.m).value);
      }
    }
  }
}
