// The three kinds of action objects behind one pointer: the virtual calls of src/luadatabase.cpp:61-71.

module ActionObjects {
  import opened Types
  import opened SocketStatus
  import opened Connector
  import opened Turns
  import opened PromiseObjects
  import opened LuaActionsAsync
  import opened QueryActions
  import opened ExecuteStatementActions
  import opened Actions
  import P = Promise

  datatype ActionObject =
    | OfAsync(a: LuaActionAsync)
    | OfQuery(q: QueryAction)
    | OfExecute(e: ExecuteStatementAction)
  {
    function PromiseOf(): PromiseObject {
      match this
      case OfAsync(a) => a.promise
      case OfQuery(q) => q.promise
      case OfExecute(e) => e.promise
    }

    /** The objects that a visit may change. */
    ghost function Footprint(): set<object> {
      match this
      case OfAsync(a) => {a, a.promise}
      case OfQuery(q) => {q, q.promise}
      case OfExecute(e) => {e, e.promise}
    }

    function Value(): Action
      reads Footprint()
    {
      match this
      case OfAsync(a) => a.Value()
      case OfQuery(q) => q.Value()
      case OfExecute(e) => e.Value()
    }

    function ServerOf(): Server {
      match this
      case OfAsync(a) => ForAsync(a.server)
      case OfQuery(q) => ForQuery(q.server)
      case OfExecute(e) => ForExecute(e.server)
    }

    function RefsOf(): seq<nat>
      reads Footprint()
    {
      match this
      case OfAsync(a) => a.refs
      case OfQuery(q) => q.refs
      case OfExecute(e) => e.refs
    }

    ghost predicate Quiet()
      reads Footprint()
    {
      P.Quiescent(PromiseOf().Value())
    }
  }

  /** `has_finished`, `Query` and `DoFinish` of whatever object it is. */
  method VisitObject(o: ActionObject, socket: Flags, env: Env)
    returns (socket': Flags, ghost call: Option<Call>, entered: bool, requests: seq<P.Request>, verdict: Verdict)
    requires o.Quiet()
    modifies o.Footprint()
    ensures Visit(o.Value(), socket', call, entered, requests, verdict) == VisitAction(old(o.Value()), socket, env)
    ensures o.Quiet()
  {
    hide VisitAction;
    ghost var before := o.Value();
    VisitKeepsQuiescent(before, socket, env);
    match o {
      case OfAsync(a) => socket', call, entered, requests, verdict := a.Visited(socket, env);
      case OfQuery(q) => socket', call, entered, requests, verdict := q.Visited(socket, env);
      case OfExecute(e) => socket', call, entered, requests, verdict := e.Visited(socket, env);
    }
  }

  /** Every promise stays quiescent, whatever a visit does to it. */
  lemma VisitKeepsQuiescent(a: Action, socket: Flags, env: Env)
    requires P.Quiescent(a.p)
    ensures P.Quiescent(VisitAction(a, socket, env).a.p)
  {
    if !a.hasFinished {
      var t := Query(a.m, socket, env, RejectThrows(a.p));
      if t.reject.Some? {
        SettleEffect(a.p, Settlement(false, t.reject.value));
      }
      var p1 := SettleWith(a.p, Rejection(t.reject)).p;
      if FinishWith(t.m).Some? {
        SettleEffect(p1, FinishWith(t.m).value);
      }
    }
  }
}
