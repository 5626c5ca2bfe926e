// lua/promise.lua: a promise settles on the first call and calls at most one handler, whatever the
// handlers do to the promise while they run.

module Promise {
  import opened Types
  import opened Connector

  /** What a piece of Lua code does: use the promise it runs for, or start a database operation. A
      registration of nil takes the handler away. */
  datatype Command =
    | Next(h: Option<Handler>)
    | Catch(h: Option<Handler>)
    | Settle(success: bool, data: Payload)
    | Enqueue(db: nat, job: Job)

  /** A handler runs its commands in order and then returns or throws; a type error of `execute` throws
      at once. */
  datatype Handler = Handler(body: seq<Command>, throws: bool)

  /** An operation requested on a database, with the handlers chained onto its promise. */
  datatype Job = Job(server: Server, onNext: Option<Handler>, onCatch: Option<Handler>)

  /** The fields `_next`, `_catch`, `result` and `_finished`. */
  datatype State = State(next: Option<Handler>, catch_: Option<Handler>,
                         result: Option<Settlement>, finished: bool)

  const PENDING := State(None, None, None, false)

  /** A handler called with the data of the settlement. */
  datatype HandlerCall = HandlerCall(h: Handler, settlement: Settlement)

  datatype Request = Request(db: nat, job: Job)

  datatype Reply = Reply(p: State, calls: seq<HandlerCall>, requests: seq<Request>, threw: bool)

  function Matching(p: State, success: bool): Option<Handler> {
    if success then p.next else p.catch_
  }

  /** `_try` (lua/promise.lua:69-88). */
  function Try(p: State): (r: Reply)
    ensures p.finished ==> r.p.finished
    decreases if p.finished then 0 else 1, 0
  {
    if p.finished || p.result.None? then
      Reply(p, [], [], false)
    else
      var h := Matching(p, p.result.value.success);
      if h.None? then
        Reply(p, [], [], false)
      else
        var r := RunBody(p.(finished := true), h.value.body);
        Reply(r.p, [HandlerCall(h.value, p.result.value)] + r.calls, r.requests, r.threw || h.value.throws)
  }

  predicate CommandThrows(c: Command) {
    c.Enqueue? && TypeError(c.job.server)
  }

  predicate BodyThrows(body: seq<Command>) {
    body != [] && (CommandThrows(body[0]) || BodyThrows(body[1..]))
  }

  /** Whether a call of the handler ends in an exception. */
  predicate Throws(h: Handler) {
    h.throws || BodyThrows(h.body)
  }

  /** One use of the promise (lua/promise.lua:40-52, 90-101), or one request. */
  function Apply(p: State, c: Command): (r: Reply)
    ensures p.finished ==> r.p.finished
    decreases if p.finished then 0 else 1, 1
  {
    match c
    case Next(h) => Try(p.(next := h))
    case Catch(h) => Try(p.(catch_ := h))
    case Settle(success, data) =>
      if p.result.Some? then Reply(p, [], [], false)
      else Try(p.(result := Some(Settlement(success, data))))
    case Enqueue(db, job) => Reply(p, [], [Request(db, job)], TypeError(job.server))
  }

  /** The body of a handler: a throw abandons the rest of it. */
  function RunBody(p: State, body: seq<Command>): (r: Reply)
    ensures p.finished ==> r.p.finished
    decreases if p.finished then 0 else 1, 2 + |body|
  {
    if body == [] then
      Reply(p, [], [], false)
    else
      var first := Apply(p, body[0]);
      if first.threw then
        first
      else
        var rest := RunBody(first.p, body[1..]);
        Reply(rest.p, first.calls + rest.calls, first.requests + rest.requests, rest.threw)
  }

  /** The handler calls made by a history of uses, each made from its own piece of code, so that a
      throw out of one does not prevent the next. */
  function History(p: State, uses: seq<Command>): seq<HandlerCall>
    decreases |uses|
  {
    if uses == [] then []
    else
      var r := Apply(p, uses[0]);
      r.calls + History(r.p, uses[1..])
  }

  function After(p: State, uses: seq<Command>): State
    decreases |uses|
  {
    if uses == [] then p else After(Apply(p, uses[0]).p, uses[1..])
  }

  // ----- what a history does, said without running it -----

  /** Index of the first settling use, or the length when there is none. */
  function FirstSettle(uses: seq<Command>): nat {
    if uses == [] || uses[0].Settle? then 0 else 1 + FirstSettle(uses[1..])
  }

  predicate Registers(c: Command, success: bool) {
    if success then c.Next? else c.Catch?
  }

  function LastRegistered(uses: seq<Command>, success: bool, default: Option<Handler>): Option<Handler> {
    if uses == [] then default
    else LastRegistered(uses[1..], success, if Registers(uses[0], success) then uses[0].h else default)
  }

  function FirstRegistered(uses: seq<Command>, success: bool): Option<Handler> {
    if uses == [] then None
    else if Registers(uses[0], success) && uses[0].h.Some? then uses[0].h
    else FirstRegistered(uses[1..], success)
  }

  /** The handler that a history calls: of the kind of the first settlement, the last one
      registered before it (or already present in p) and not taken away again, or else the first one
      registered after it. */
  function Chosen(p: State, uses: seq<Command>): Option<HandlerCall> {
    var i := FirstSettle(uses);
    if i >= |uses| || !uses[i].Settle? then None
    else
      var s := Settlement(uses[i].success, uses[i].data);
      var before := LastRegistered(uses[..i], s.success, Matching(p, s.success));
      var h := if before.Some? then before else FirstRegistered(uses[i + 1..], s.success);
      if h.Some? then Some(HandlerCall(h.value, s)) else None
  }

  function AtMostOne(call: Option<HandlerCall>): seq<HandlerCall> {
    if call.None? then [] else [call.value]
  }

  /** A promise that has called its handler calls nothing and keeps its outcome, whatever is done. */
  lemma FiredIsInert(p: State, c: Command)
    requires p.finished && p.result.Some?
    ensures Apply(p, c).calls == [] && Apply(p, c).threw == CommandThrows(c)
    ensures Apply(p, c).p.finished && Apply(p, c).p.result == p.result
  {
  }

  lemma {:induction false} FiredBodyIsInert(p: State, body: seq<Command>)
    requires p.finished && p.result.Some?
    ensures RunBody(p, body).calls == [] && RunBody(p, body).threw == BodyThrows(body)
    ensures RunBody(p, body).p.finished && RunBody(p, body).p.result == p.result
    decreases |body|
  {
    if body != [] {
      FiredIsInert(p, body[0]);
      FiredBodyIsInert(Apply(p, body[0]).p, body[1..]);
    }
  }

  lemma {:induction false} FiredHistory(p: State, uses: seq<Command>)
    requires p.finished && p.result.Some?
    ensures History(p, uses) == []
    decreases |uses|
  {
    if uses != [] {
      FiredIsInert(p, uses[0]);
      FiredHistory(Apply(p, uses[0]).p, uses[1..]);
    }
  }

  /** No lost callback: a settled promise with a matching handler has called it. */
  predicate Quiescent(p: State) {
    && (p.finished ==> p.result.Some?)
    && (p.result.Some? && Matching(p, p.result.value.success).Some? ==> p.finished)
  }

  /** Every use keeps the promise quiescent, keeps its first outcome, and calls the matching handler
      at once exactly when the use completes the pair of outcome and handler. */
  lemma UseKeepsQuiescent(p: State, c: Command)
    requires Quiescent(p)
    ensures var r := Apply(p, c);
            && Quiescent(r.p)
            && (p.result.Some? ==> r.p.result == p.result)
            && |r.calls| <= 1
            && (r.calls != [] <==> !p.finished && r.p.finished)
            && (r.calls == [] ==> r.threw == CommandThrows(c))
            && (r.calls != [] ==> && r.p.result == Some(r.calls[0].settlement)
                                  && r.threw == Throws(r.calls[0].h))
  {
    var q := match c
             case Next(h) => p.(next := h)
             case Catch(h) => p.(catch_ := h)
             case Settle(success, data) =>
               if p.result.Some? then p else p.(result := Some(Settlement(success, data)))
             case Enqueue(_, _) => p;
    if !q.finished && q.result.Some? && Matching(q, q.result.value.success).Some? {
      FiredBodyIsInert(q.(finished := true), Matching(q, q.result.value.success).value.body);
    } else if q.finished {
      FiredIsInert(p, c);
    }
  }

  lemma {:induction false} SettledHistory(p: State, uses: seq<Command>)
    requires Quiescent(p) && p.result.Some? && !p.finished
    ensures var s := p.result.value;
            var h := FirstRegistered(uses, s.success);
            History(p, uses) == AtMostOne(if h.Some? then Some(HandlerCall(h.value, s)) else None)
    decreases |uses|
  {
    if uses != [] {
      var s := p.result.value;
      UseKeepsQuiescent(p, uses[0]);
      var q := Apply(p, uses[0]).p;
      if Registers(uses[0], s.success) && uses[0].h.Some? {
        var armed := if s.success then p.(next := uses[0].h) else p.(catch_ := uses[0].h);
        assert Apply(p, uses[0]) == Try(armed);
        FiredBodyIsInert(armed.(finished := true), uses[0].h.value.body);
        FiredHistory(q, uses[1..]);
      } else {
        SettledHistory(q, uses[1..]);
      }
    }
  }

  lemma ChosenAtSettle(p: State, uses: seq<Command>)
    requires p.result.None? && !p.finished && uses != [] && uses[0].Settle?
    ensures History(p, uses) == AtMostOne(Chosen(p, uses))
  {
    var s := Settlement(uses[0].success, uses[0].data);
    var settled := p.(result := Some(s));
    assert Apply(p, uses[0]) == Try(settled);
    if Matching(p, s.success).Some? {
      FiredBodyIsInert(settled.(finished := true), Matching(p, s.success).value.body);
      FiredHistory(Apply(p, uses[0]).p, uses[1..]);
    } else {
      SettledHistory(settled, uses[1..]);
    }
  }

  lemma ChosenPastRegistration(p: State, uses: seq<Command>)
    requires p.result.None? && !p.finished && uses != [] && !uses[0].Settle?
    ensures Apply(p, uses[0]).calls == []
    ensures Apply(p, uses[0]).p.result.None? && !Apply(p, uses[0]).p.finished
    ensures Chosen(p, uses) == Chosen(Apply(p, uses[0]).p, uses[1..])
  {
    var i := FirstSettle(uses);
    assert i == 1 + FirstSettle(uses[1..]);
    if i < |uses| {
      assert uses[..i][1..] == uses[1..][..i - 1];
      assert uses[i + 1..] == uses[1..][i..];
    }
  }

  /** Over any history of registrations and settlements, including those made inside handlers, a
      promise calls exactly the chosen handler, once, with the first settlement. */
  lemma {:induction false} HistoryCallsChosen(p: State, uses: seq<Command>)
    requires p.result.None? && !p.finished
    ensures History(p, uses) == AtMostOne(Chosen(p, uses))
    decreases |uses|
  {
    if uses == [] {
    } else if uses[0].Settle? {
      ChosenAtSettle(p, uses);
    } else {
      ChosenPastRegistration(p, uses);
      HistoryCallsChosen(Apply(p, uses[0]).p, uses[1..]);
    }
  }

  lemma {:induction false} HistoryKeepsQuiescent(p: State, uses: seq<Command>)
    requires Quiescent(p)
    ensures Quiescent(After(p, uses))
    ensures p.result.Some? ==> After(p, uses).result == p.result
    decreases |uses|
  {
    if uses != [] {
      UseKeepsQuiescent(p, uses[0]);
      HistoryKeepsQuiescent(Apply(p, uses[0]).p, uses[1..]);
    }
  }
}
