// lua/promise.lua as the table it is: methods that update `_next`, `_catch`, `result` and
// `_finished` in place and call back into user code.

module PromiseObjects {
  import opened Types
  import opened Connector
  import opened Promise

  class PromiseObject {
    var next: Option<Handler>
    var catch_: Option<Handler>
    var result: Option<Settlement>
    var finished: bool

    function Value(): State
      reads this
    {
      State(next, catch_, result, finished)
    }

    constructor (onNext: Option<Handler>, onCatch: Option<Handler>)
      ensures Value() == PENDING.(next := onNext, catch_ := onCatch)
    {
      next, catch_, result, finished := onNext, onCatch, None, false;
    }

    method Next(h: Option<Handler>) returns (calls: seq<HandlerCall>, requests: seq<Request>, threw: bool)
      modifies this
      ensures Reply(Value(), calls, requests, threw) == Apply(old(Value()), Command.Next(h))
      decreases if finished then 0 else 1, 1
    {
      next := h;
      calls, requests, threw := TryFire();
    }

    method Catch(h: Option<Handler>) returns (calls: seq<HandlerCall>, requests: seq<Request>, threw: bool)
      modifies this
      ensures Reply(Value(), calls, requests, threw) == Apply(old(Value()), Command.Catch(h))
      decreases if finished then 0 else 1, 1
    {
      catch_ := h;
      calls, requests, threw := TryFire();
    }

    method Finish(success: bool, data: Payload)
      returns (calls: seq<HandlerCall>, requests: seq<Request>, threw: bool)
      modifies this
      ensures Reply(Value(), calls, requests, threw) == Apply(old(Value()), Command.Settle(success, data))
      decreases if finished then 0 else 1, 1
    {
      if result.Some? {
        return [], [], false;
      }
      result := Some(Settlement(success, data));
      calls, requests, threw := TryFire();
    }

    method TryFire() returns (calls: seq<HandlerCall>, requests: seq<Request>, threw: bool)
      modifies this
      ensures Reply(Value(), calls, requests, threw) == Try(old(Value()))
      decreases if finished then 0 else 1, 0
    {
      if finished {
        return [], [], false;
      }
      if result.None? {
        return [], [], false;
      }
      var settlement := result.value;
      var h := if settlement.success then next else catch_;
      if h.None? {
        return [], [], false;
      }
      finished := true;
      calls, requests, threw := RunHandler(h.value.body);
      calls := [HandlerCall(h.value, settlement)] + calls;
      threw := threw || h.value.throws;
    }

    /** User code running inside a handler, using this very promise. */
    method RunHandler(body: seq<Command>)
      returns (calls: seq<HandlerCall>, requests: seq<Request>, threw: bool)
      modifies this
      ensures Reply(Value(), calls, requests, threw) == RunBody(old(Value()), body)
      decreases if finished then 0 else 1, 2 + |body|
    {
      if body == [] {
        return [], [], false;
      }
      match body[0] {
        case Next(h) => calls, requests, threw := Next(h);
        case Catch(h) => calls, requests, threw := Catch(h);
        case Settle(success, data) => calls, requests, threw := Finish(success, data);
        case Enqueue(db, job) => calls, requests, threw := [], [Request(db, job)], TypeError(job.server);
      }
      if !threw {
        var calls', requests', threw' := RunHandler(body[1..]);
        calls, requests, threw := calls + calls', requests + requests', threw';
      }
    }
  }
}
