// Jobs are trees: the handlers of a job request further jobs. What the trees weigh, which databases
// they name, and what one visit of an action does to both.

module Jobs {
  import opened Types
  import opened SocketStatus
  import opened Connector
  import opened Turns
  import opened Actions
  import P = Promise

  function NewAction(id: nat, job: P.Job, refs: seq<nat>): Action {
    Action(id, Init(job.server), P.PENDING.(next := job.onNext, catch_ := job.onCatch), false, refs)
  }

  // ----- weight: an upper bound on all the work that an action can still give rise to -----

  function BodyWeight(body: seq<P.Command>): nat
    decreases body
  {
    if body == [] then 0 else CommandWeight(body[0]) + BodyWeight(body[1..])
  }

  function CommandWeight(c: P.Command): nat
    decreases c
  {
    if c.Enqueue? then JobWeight(c.job) else 0
  }

  function HandlerWeight(h: Option<P.Handler>): nat
    decreases h
  {
    match h
    case None => 0
    case Some(handler) => BodyWeight(handler.body)
  }

  function JobWeight(job: P.Job): nat
    decreases job
  {
    3 + MachineRank(Init(job.server)) + HandlerWeight(job.onNext) + HandlerWeight(job.onCatch)
  }

  function PromiseWeight(p: P.State): nat {
    if p.finished then 0 else HandlerWeight(p.next) + HandlerWeight(p.catch_)
  }

  function ActionWeight(a: Action): nat {
    1 + Budget(a) + PromiseWeight(a.p)
  }

  function RequestsWeight(requests: seq<P.Request>): nat {
    if requests == [] then 0 else JobWeight(requests[0].job) + RequestsWeight(requests[1..])
  }

  lemma {:induction false} RequestsWeightAppend(r: seq<P.Request>, s: seq<P.Request>)
    ensures RequestsWeight(r + s) == RequestsWeight(r) + RequestsWeight(s)
  {
    if r == [] {
      assert r + s == s;
    } else {
      assert (r + s)[1..] == r[1..] + s;
      RequestsWeightAppend(r[1..], s);
    }
  }

  lemma {:induction false} BodyRequestsWeight(body: seq<P.Command>)
    ensures RequestsWeight(Requests(body)) <= BodyWeight(body)
  {
    if body != [] {
      BodyRequestsWeight(body[1..]);
      if body[0].Enqueue? && !P.CommandThrows(body[0]) {
        assert Requests(body)[1..] == Requests(body[1..]);
      }
    }
  }

  lemma NewActionWeight(id: nat, job: P.Job, refs: seq<nat>)
    ensures ActionWeight(NewAction(id, job, refs)) == JobWeight(job)
  {
  }

  lemma SettleWeight(p: P.State, s: Option<Settlement>)
    requires P.Quiescent(p)
    ensures var r := SettleWith(p, s);
            RequestsWeight(r.requests) + PromiseWeight(r.p) <= PromiseWeight(p)
  {
    if s.Some? {
      SettleEffect(p, s.value);
      var h := P.Matching(p, s.value.success);
      if p.result.None? && h.Some? {
        BodyRequestsWeight(h.value.body);
      }
    }
  }

  /** What the handlers called during a visit request is paid for by the handlers no longer pending. */
  lemma VisitPays(a: Action, socket: Flags, env: Env)
    requires ActionInv(a, socket)
    ensures var v := VisitAction(a, socket, env);
            RequestsWeight(v.requests) + PromiseWeight(v.a.p) <= PromiseWeight(a.p)
  {
    if !a.hasFinished {
      var t := Query(a.m, socket, env, RejectThrows(a.p));
      var rejected := SettleWith(a.p, Rejection(t.reject));
      SettleWeight(a.p, Rejection(t.reject));
      if t.reject.Some? {
        SettleEffect(a.p, Settlement(false, t.reject.value));
      }
      SettleWeight(rejected.p, FinishWith(t.m));
      RequestsWeightAppend(rejected.requests, SettleWith(rejected.p, FinishWith(t.m)).requests);
    }
  }

  // ----- targets: the databases that an action can still address -----

  predicate BodyTargets(body: seq<P.Command>, live: set<nat>)
    decreases body
  {
    body == [] || (CommandTargets(body[0], live) && BodyTargets(body[1..], live))
  }

  predicate CommandTargets(c: P.Command, live: set<nat>)
    decreases c
  {
    c.Enqueue? ==> c.db in live && JobTargets(c.job, live)
  }

  predicate HandlerTargets(h: Option<P.Handler>, live: set<nat>)
    decreases h
  {
    match h
    case None => true
    case Some(handler) => BodyTargets(handler.body, live)
  }

  /** Every database named in the tree is live, and no job closes a connection: only the collector
      does that. */
  predicate JobTargets(job: P.Job, live: set<nat>)
    decreases job
  {
    && !ClosesConnection(job.server)
    && HandlerTargets(job.onNext, live)
    && HandlerTargets(job.onCatch, live)
  }

  predicate ClosesConnection(server: Server) {
    server.ForAsync? && server.a.kind == ConnectionClose
  }

  predicate PromiseTargets(p: P.State, live: set<nat>) {
    p.finished || (HandlerTargets(p.next, live) && HandlerTargets(p.catch_, live))
  }

  predicate RequestsTarget(requests: seq<P.Request>, live: set<nat>) {
    forall i :: 0 <= i < |requests| ==> requests[i].db in live && JobTargets(requests[i].job, live)
  }

  lemma {:induction false} BodyRequestsTarget(body: seq<P.Command>, live: set<nat>)
    requires BodyTargets(body, live)
    ensures RequestsTarget(Requests(body), live)
  {
    if body != [] {
      BodyRequestsTarget(body[1..], live);
    }
  }

  lemma SettleTargets(p: P.State, s: Option<Settlement>, live: set<nat>)
    requires P.Quiescent(p) && PromiseTargets(p, live)
    ensures var r := SettleWith(p, s);
            RequestsTarget(r.requests, live) && PromiseTargets(r.p, live)
  {
    if s.Some? {
      SettleEffect(p, s.value);
      var h := P.Matching(p, s.value.success);
      if p.result.None? && h.Some? {
        BodyRequestsTarget(h.value.body, live);
      }
    }
  }

  /** The handlers called during a visit request jobs of live databases only. */
  lemma VisitTargets(a: Action, socket: Flags, env: Env, live: set<nat>)
    requires ActionInv(a, socket) && PromiseTargets(a.p, live)
    ensures var v := VisitAction(a, socket, env);
            RequestsTarget(v.requests, live) && PromiseTargets(v.a.p, live)
  {
    if !a.hasFinished {
      var t := Query(a.m, socket, env, RejectThrows(a.p));
      var rejected := SettleWith(a.p, Rejection(t.reject));
      SettleTargets(a.p, Rejection(t.reject), live);
      if t.reject.Some? {
        SettleEffect(a.p, Settlement(false, t.reject.value));
      }
      SettleTargets(rejected.p, FinishWith(t.m), live);
    }
  }

  lemma {:induction false} BodyTargetsGrow(body: seq<P.Command>, live: set<nat>, more: set<nat>)
    requires BodyTargets(body, live) && live <= more
    ensures BodyTargets(body, more)
    decreases body
  {
    if body != [] {
      CommandTargetsGrow(body[0], live, more);
      BodyTargetsGrow(body[1..], live, more);
    }
  }

  lemma {:induction false} CommandTargetsGrow(c: P.Command, live: set<nat>, more: set<nat>)
    requires CommandTargets(c, live) && live <= more
    ensures CommandTargets(c, more)
    decreases c
  {
    if c.Enqueue? {
      JobTargetsGrow(c.job, live, more);
    }
  }

  lemma {:induction false} HandlerTargetsGrow(h: Option<P.Handler>, live: set<nat>, more: set<nat>)
    requires HandlerTargets(h, live) && live <= more
    ensures HandlerTargets(h, more)
    decreases h
  {
    if h.Some? {
      BodyTargetsGrow(h.value.body, live, more);
    }
  }

  lemma {:induction false} JobTargetsGrow(job: P.Job, live: set<nat>, more: set<nat>)
    requires JobTargets(job, live) && live <= more
    ensures JobTargets(job, more)
    decreases job
  {
    HandlerTargetsGrow(job.onNext, live, more);
    HandlerTargetsGrow(job.onCatch, live, more);
  }
}
