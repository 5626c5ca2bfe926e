// src/luadatabase.h, src/luadatabase.cpp, src/main.cpp and the database's __gc, as the classes and
// loops they are: `LuaDatabase` objects in one list, each with a queue of action objects.

module LuaDatabases {
  import opened Types
  import opened SocketStatus
  import opened Connector
  import opened Turns
  import opened LuaActionsAsync
  import opened QueryActions
  import opened ExecuteStatementActions
  import opened ActionObjects
  import opened Actions
  import opened Jobs
  import opened Scheduler
  import opened Shutdown
  import P = Promise
  import R = Registry

  ghost function FootprintsOf(os: seq<ActionObject>): set<object> {
    set o, x | o in os && x in o.Footprint() :: x
  }

  ghost function ActionsOf(os: seq<ActionObject>): (actions: seq<Action>)
    reads FootprintsOf(os)
    ensures |actions| == |os|
    ensures forall k :: 0 <= k < |os| ==> actions[k] == os[k].Value()
  {
    if os == [] then [] else [os[0].Value()] + ActionsOf(os[1..])
  }

  lemma FieldsOf(db: LuaDatabase)
    requires db.Valid()
    ensures db.Value().pin == db.queueReference && db.Value().id == db.id && db.Value().gced == db.gced
    ensures HasWork(db.Value()) <==> db.currentAction.Some? || |db.queue| > 0
    ensures db.Value().reference == db.reference && db.Value().current.Some? == db.currentAction.Some?
  {
  }

  lemma TurnOf(db: LuaDatabase, w: World, i: nat, env: Env)
    requires db.Valid() && i < |w.open| && w.open[i] == db.Value() && HasWork(db.Value())
    ensures var popped := Scheduler.Pop(db.Value());
            && popped.current.Some?
            && VisitAt(w, i, env) == VisitAction(popped.current.value, popped.socket, env)
            && AfterVisit(w, i, env) == w.(open := w.open[i := Visited(popped, VisitAt(w, i, env))],
                                           reg := AfterFinish(w.reg, VisitAt(w, i, env)))
  {
  }

  lemma AfterFinishIs(reg: R.State, v: Visit)
    ensures AfterFinish(reg, v) == if v.entered && Accepted(v.a.m.Server()) then R.Lose(R.Ref(reg).0, [R.Ref(reg).1])
                                   else reg
  {
  }

  lemma CurrentOf(db: LuaDatabase)
    requires db.Valid() && db.currentAction.Some?
    ensures db.Value().current == Some(db.currentAction.value.Value())
  {
  }

  lemma ReleaseIs(w: World, i: nat, refs: seq<nat>, closes: bool)
    requires i < |w.open| && w.open[i].current.Some?
    requires refs == w.open[i].current.value.refs
    requires closes == ClosesConnection(w.open[i].current.value.m.Server())
    requires Unpins(w.open[i]) ==> w.open[i].pin.Some?
    ensures var reg := R.UnrefAll(w.reg, refs);
            Release(w, i) == w.(open := w.open[i := Released(w.open[i])],
                                reg := if Unpins(w.open[i]) then R.Unref(reg, w.open[i].pin.value) else reg,
                                closed := if closes then w.closed + [w.open[i].id] else w.closed)
  {
  }

  lemma UnpinsPinned(db: Db)
    ensures Unpins(db) ==> db.pin.Some?
  {
  }

  lemma ServerIsValue(o: ActionObject)
    ensures o.ServerOf() == o.Value().m.Server() && o.RefsOf() == o.Value().refs
  {
  }

  class LuaDatabase {
    const id: nat
    var queue: seq<ActionObject>
    var currentAction: Option<ActionObject>
    var socketState: Flags
    var reference: Option<nat>
    var queueReference: Option<nat>
    var gced: bool
    var connected: bool

    ghost var inserted: seq<Ticket>
    ghost var freed: seq<Ticket>
    ghost var outcomes: seq<Option<Settlement>>
    ghost var finishes: seq<nat>
    ghost var calls: seq<Call>
    ghost var interruptions: nat

    /** The objects of all actions inserted so far. */
    ghost var footprint: set<object>

    /** No two pending actions share an object. */
    ghost predicate Valid()
      reads this, footprint
    {
      && this !in footprint
      && (forall k :: 0 <= k < |queue| ==> queue[k].Footprint() <= footprint && queue[k].Quiet())
      && (forall j, k :: 0 <= j < k < |queue| ==> queue[j].Footprint() !! queue[k].Footprint())
      && (currentAction.Some? ==>
            && currentAction.value.Footprint() <= footprint && currentAction.value.Quiet()
            && forall k :: 0 <= k < |queue| ==> currentAction.value.Footprint() !! queue[k].Footprint())
    }

    ghost function Current(): Option<Action>
      reads this, footprint
      requires Valid()
    {
      if currentAction.Some? then Some(currentAction.value.Value()) else None
    }

    ghost function Value(): Db
      reads this, footprint
      requires Valid()
    {
      Db(id, ActionsOf(queue), Current(), socketState, reference, queueReference, gced, connected,
         inserted, freed, outcomes, finishes, calls, interruptions)
    }

    constructor (id: nat, reference: nat)
      ensures Valid() && Value() == NewDb(id, reference) && footprint == {}
    {
      this.id, this.reference, queueReference := id, Some(reference), None;
      queue, currentAction, socketState, gced, connected := [], None, 0, false, true;
      inserted, freed, outcomes, finishes, calls, interruptions, footprint := [], [], [], [], [], 0, {};
    }

    /** The next action starts when none is running. */
    method Pop()
      requires Valid()
      modifies this`queue, this`currentAction
      ensures Valid() && Value() == Scheduler.Pop(old(Value()))
    {
      hide ActionObject.Value, ActionObject.Footprint, ActionObject.Quiet;
      if currentAction.None? && |queue| > 0 {
        ghost var actions := ActionsOf(queue);
        currentAction, queue := Some(queue[0]), queue[1..];
        assert ActionsOf(queue) == actions[1..];
      }
    }

    /** `current_action->Query` and `DoFinish`, which the action object does. */
    method Dispatch(env: Env)
      returns (socket: Flags, ghost call: Option<Call>, entered: bool, requests: seq<P.Request>, verdict: Verdict)
      requires Valid() && currentAction.Some?
      modifies currentAction.value.Footprint()
      ensures Valid()
      ensures Visit(currentAction.value.Value(), socket, call, entered, requests, verdict)
           == VisitAction(old(currentAction.value.Value()), socketState, env)
      ensures Value() == old(Value()).(current := Some(currentAction.value.Value()))
    {
      hide VisitAction, ActionObject.Value, ActionObject.Footprint, ActionObject.Quiet, ActionsOf;
      ghost var actions := ActionsOf(queue);
      socket, call, entered, requests, verdict := VisitObject(currentAction.value, socketState, env);
      assert ActionsOf(queue) == actions;
    }

    /** The same, recorded in the database. */
    method VisitCurrent(env: Env) returns (ghost v: Visit, entered: bool, requests: seq<P.Request>, verdict: Verdict)
      requires Valid() && currentAction.Some?
      modifies this`socketState, this`finishes, this`calls, this`interruptions, currentAction.value.Footprint()
      ensures Valid() && currentAction == old(currentAction) && v.a == currentAction.value.Value()
      ensures v == VisitAction(old(currentAction.value.Value()), old(socketState), env)
      ensures entered == v.entered && requests == v.requests && verdict == v.verdict
      ensures Value() == Visited(old(Value()), v)
    {
      hide VisitAction, RejectionThrew, ActionObject.Value, ActionObject.Footprint, ActionObject.Quiet, ActionsOf;
      ghost var before := Value();
      ghost var call;
      var socket;
      socket, call, entered, requests, verdict := Dispatch(env);
      v := Visit(currentAction.value.Value(), socket, call, entered, requests, verdict);
      Record(v, socket);
    }

    method Record(ghost v: Visit, socket: Flags)
      requires Valid() && socket == v.socket
      modifies this`socketState, this`finishes, this`calls, this`interruptions
      ensures Valid()
      ensures Value() == old(Value()).(
                           socket := socket,
                           calls := if v.call.Some? then old(calls) + [v.call.value] else old(calls),
                           finishes := if v.entered then old(finishes) + [v.a.id] else old(finishes),
                           interruptions := if RejectionThrew(v) then old(interruptions) + 1 else old(interruptions))
    {
      hide ActionObject.Value, ActionObject.Footprint, ActionObject.Quiet, ActionsOf, RejectionThrew;
      socketState := socket;
      calls := if v.call.Some? then calls + [v.call.value] else calls;
      finishes := if v.entered then finishes + [v.a.id] else finishes;
      interruptions := if RejectionThrew(v) then interruptions + 1 else interruptions;
    }

    /** The beginning of `RunTick`: pop and visit; `accepted` when a prepare has just succeeded. */
    method Turn(env: Env) returns (ghost v: Visit, accepted: bool, requests: seq<P.Request>, verdict: Verdict)
      requires Valid() && HasWork(Value())
      modifies this`queue, this`currentAction, this`socketState, this`finishes, this`calls, this`interruptions
      modifies footprint
      ensures Valid() && Scheduler.Pop(old(Value())).current.Some?
      ensures v == VisitAction(Scheduler.Pop(old(Value())).current.value, Scheduler.Pop(old(Value())).socket, env)
      ensures requests == v.requests && verdict == v.verdict
      ensures accepted == (v.entered && Accepted(v.a.m.Server()))
      ensures Value() == Visited(Scheduler.Pop(old(Value())), v)
    {
      hide VisitAction, Visited, ActionObject.Value, ActionObject.Footprint, ActionObject.Quiet, ActionsOf;
      Pop();
      var entered;
      v, entered, requests, verdict := VisitCurrent(env);
      ServerIsValue(currentAction.value);
      accepted := entered && Accepted(currentAction.value.ServerOf());
    }

    /** `current_action = nullptr` after `Free`; returns the self-pin if it is given up. */
    method DropCurrent() returns (unpinned: Option<nat>)
      requires Valid() && currentAction.Some?
      modifies this`currentAction, this`queueReference, this`connected, this`freed, this`outcomes
      ensures Valid() && Value() == Released(old(Value()))
      ensures unpinned == if Unpins(old(Value())) then old(queueReference) else None
    {
      hide ActionObject.Value, ActionObject.Footprint, ActionObject.Quiet, ActionsOf, ClosesConnection, TicketOf;
      ghost var a := currentAction.value.Value();
      ServerIsValue(currentAction.value);
      connected := connected && !ClosesConnection(currentAction.value.ServerOf());
      currentAction := None;
      freed, outcomes := freed + [TicketOf(a)], outcomes + [a.p.result];
      unpinned := None;
      if |queue| == 0 && queueReference.Some? {
        unpinned, queueReference := queueReference, None;
      }
    }

    method Orphan()
      requires Valid()
      modifies this`reference, this`gced
      ensures Valid() && Value() == old(Value()).(reference := None, gced := true)
    {
      hide ActionObject.Value, ActionObject.Footprint, ActionObject.Quiet, ActionsOf;
      reference, gced := None, true;
    }

    method SetPin(pin: Option<nat>)
      requires Valid()
      modifies this`queueReference
      ensures Valid() && Value() == old(Value()).(pin := pin)
    {
      hide ActionObject.Value, ActionObject.Footprint, ActionObject.Quiet, ActionsOf;
      queueReference := pin;
    }

    method PushBack(o: ActionObject)
      requires Valid() && o.Quiet() && o.Footprint() !! footprint && this !in o.Footprint()
      modifies this`queue, this`inserted, this`footprint
      ensures Valid() && Value() == Scheduler.PushBack(old(Value()), o.Value())
      ensures footprint == old(footprint) + o.Footprint()
    {
      hide ActionObject.Value, ActionObject.Footprint, ActionObject.Quiet, ActionsOf;
      ghost var actions := ActionsOf(queue);
      queue := queue + [o];
      inserted := inserted + [TicketOf(o.Value())];
      footprint := footprint + o.Footprint();
      assert ActionsOf(queue) == actions + [o.Value()];
    }
  }

  ghost function Footprints(dbs: seq<LuaDatabase>): set<object>
    reads dbs`footprint
  {
    set d, x | d in dbs && x in d.footprint :: x
  }

  ghost predicate AllValid(dbs: seq<LuaDatabase>)
    reads dbs, Footprints(dbs)
  {
    forall i :: 0 <= i < |dbs| ==> dbs[i].Valid()
  }

  ghost function Values(dbs: seq<LuaDatabase>): (values: seq<Db>)
    requires AllValid(dbs)
    reads dbs, Footprints(dbs)
    ensures |values| == |dbs|
    ensures forall i :: 0 <= i < |dbs| ==> values[i] == dbs[i].Value()
  {
    if dbs == [] then []
    else
      assert forall i :: 0 <= i < |dbs[1..]| ==> dbs[1..][i] == dbs[i + 1];
      [dbs[0].Value()] + Values(dbs[1..])
  }

  /** The state of the module: the Lua registry, `open_databases`, and how many actions and databases
      have been created. */
  class LuaModule {
    var registry: R.State
    var openDatabases: seq<LuaDatabase>
    var actions: nat
    var created: nat
    var hasCleanedUpAlready: bool

    ghost var closed: seq<nat>
    ghost var erased: seq<Db>
    ghost var requested: seq<P.Job>

    /** No database is listed twice, and no two share an action. */
    ghost predicate Valid()
      reads this, openDatabases, Footprints(openDatabases)
    {
      && AllValid(openDatabases)
      && (forall i :: 0 <= i < |openDatabases| ==> this !in openDatabases[i].footprint)
      && (forall i, j :: 0 <= i < |openDatabases| && 0 <= j < |openDatabases|
                         ==> openDatabases[i] !in openDatabases[j].footprint)
      && (forall i, j :: 0 <= i < j < |openDatabases|
                         ==> openDatabases[i] != openDatabases[j]
                             && openDatabases[i].footprint !! openDatabases[j].footprint)
    }

    ghost function Value(): World
      requires AllValid(openDatabases)
      reads this, openDatabases, Footprints(openDatabases)
    {
      World(Values(openDatabases), registry, actions, created, closed, erased, requested)
    }

    lemma AllListed()
      requires AllValid(openDatabases)
      ensures |Value().open| == |openDatabases|
    {
    }

    ghost function AllValues(): seq<Db>
      reads this, openDatabases, Footprints(openDatabases)
    {
      if AllValid(openDatabases) then Values(openDatabases) else []
    }

    /** The databases are as they were. */
    ghost predicate Same(valid: bool, listed: seq<Db>)
      reads this, openDatabases, Footprints(openDatabases)
    {
      valid ==> Valid() && AllValues() == listed
    }

    constructor ()
      ensures Valid() && Value() == START && !hasCleanedUpAlready
    {
      registry, openDatabases, actions, created, hasCleanedUpAlready := R.EMPTY, [], 0, 0, false;
      closed, erased, requested := [], [], [];
    }

    method LuaRef() returns (r: nat)
      modifies this`registry
      ensures (registry, r) == R.Ref(old(registry)) && Same(old(Valid()), old(AllValues()))
    {
      hide LuaDatabase.Valid, LuaDatabase.Value, Values;
      if registry.free != [] {
        r := registry.free[|registry.free| - 1];
        registry := registry.(free := registry.free[..|registry.free| - 1]);
      } else {
        r := registry.top + 1;
        registry := registry.(top := r);
      }
    }

    method LuaUnref(r: nat)
      modifies this`registry
      ensures registry == R.Unref(old(registry), r) && Same(old(Valid()), old(AllValues()))
    {
      hide LuaDatabase.Valid, LuaDatabase.Value, Values;
      registry := registry.(free := registry.free + [r]);
    }

    /** The promise of an action takes three references; they are listed in the order of their release. */
    method TakeReferences() returns (refs: seq<nat>)
      modifies this`registry
      ensures var (reg, created) := R.Refs(old(registry), 3);
              && registry == reg && refs == ReleaseOrder(created)
              && |created| == 3 && refs == [created[2], created[1], created[0]]
      ensures Same(old(Valid()), old(AllValues()))
    {
      hide R.Ref, R.Refs, LuaDatabase.Valid, LuaDatabase.Value, Values, Valid, AllValues;
      var resolve := LuaRef();
      var reject := LuaRef();
      var promise := LuaRef();
      refs := [promise, reject, resolve];
      ThreeRefs(old(registry));
    }

    /** The constructor of an action, whatever its kind; a type error of `execute` leaves it, and nobody
        will release the references it has taken. */
    method Construct(job: P.Job) returns (o: Option<ActionObject>)
      modifies this`registry, this`actions
      ensures TypeError(job.server) <==> o.None?
      ensures o.None? ==> registry == Abandon(old(registry)) && actions == old(actions)
      ensures o.Some? ==> && fresh(o.value.Footprint()) && o.value.Quiet()
                          && Created(old(registry), old(actions), job) == (registry, actions, o.value.Value())
    {
      hide R.Ref, R.Refs, ReleaseOrder, LuaDatabase.Valid, LuaDatabase.Value, Values, Valid, AllValues;
      FourthRef(registry);
      var refs := TakeReferences();
      match job.server {
        case ForAsync(a) =>
          var action := new LuaActionAsync(actions, a, job, refs);
          o := Some(OfAsync(action));
        case ForQuery(q) =>
          var table := LuaRef();
          var action := new QueryAction(actions, q, job, refs + [table]);
          o := Some(OfQuery(action));
        case ForExecute(e) =>
          var action := new ExecuteStatementAction(actions, e, job, refs);
          if action.typeError.Some? {
            registry := R.Lose(registry, refs);
            return None;
          }
          var table := LuaRef();
          action.CreateTable(table);
          o := Some(OfExecute(action));
      }
      actions := actions + 1;
    }

    /** The same, seen from the databases. */
    method CreateAction(job: P.Job) returns (o: Option<ActionObject>)
      requires Valid()
      modifies this`registry, this`actions
      ensures Valid() && Value() == old(Value()).(reg := registry, actions := actions)
      ensures Footprints(openDatabases) == old(Footprints(openDatabases))
      ensures TypeError(job.server) <==> o.None?
      ensures o.None? ==> registry == Abandon(old(registry)) && actions == old(actions)
      ensures o.Some? ==> && fresh(o.value.Footprint()) && o.value.Quiet()
                          && Created(old(registry), old(actions), job) == (registry, actions, o.value.Value())
    {
      hide LuaDatabase.Valid, LuaDatabase.Value, Values, Created, Abandon, TypeError;
      hide ActionObject.Footprint, ActionObject.Value, ActionObject.Quiet;
      ghost var open := Values(openDatabases);
      o := Construct(job);
      assert Values(openDatabases) == open;
    }

    /** `queue.push_back` of a new action. */
    method Append(db: LuaDatabase, o: ActionObject, ghost i: nat)
      requires Valid() && i < |openDatabases| && openDatabases[i] == db && o.Quiet()
      requires this !in o.Footprint() && o.Footprint() !! Footprints(openDatabases)
      requires forall j :: 0 <= j < |openDatabases| ==> openDatabases[j] !in o.Footprint()
      modifies db`queue, db`inserted, db`footprint
      ensures Valid() && Footprints(openDatabases) <= old(Footprints(openDatabases)) + o.Footprint()
      ensures o.Value() == old(o.Value())
      ensures Value() == old(Value()).(open := old(Value()).open[i := Scheduler.PushBack(old(db.Value()), o.Value())])
    {
      hide LuaDatabase.Valid, LuaDatabase.Value, Values, ActionObject.Footprint, Scheduler.PushBack;
      db.PushBack(o);
      assert Values(openDatabases) == old(Values(openDatabases))[i := db.Value()];
    }

    method Pin(db: LuaDatabase, ghost i: nat)
      requires Valid() && i < |openDatabases| && openDatabases[i] == db
      modifies this`registry, db`queueReference
      ensures Footprints(openDatabases) == old(Footprints(openDatabases))
      ensures var (reg, pinned) := EnsurePinned(old(registry), old(db.Value()));
              && Valid() && db.Value() == pinned
              && Value() == old(Value()).(reg := reg, open := old(Value()).open[i := pinned])
    {
      hide LuaDatabase.Valid, LuaDatabase.Value, Values, R.Ref;
      assert db.Value().pin == db.queueReference by {
        FieldsOf(db);
      }
      if db.queueReference.None? {
        var pin := LuaRef();
        db.SetPin(Some(pin));
      }
      assert Values(openDatabases) == old(Values(openDatabases))[i := db.Value()];
    }

    /** `db->InsertAction` with a newly constructed action (src/luadatabase.h:79-85). */
    method InsertAction(db: LuaDatabase, job: P.Job, ghost i: nat)
      requires Valid() && i < |openDatabases| && openDatabases[i] == db
      modifies this`registry, this`actions, this`requested, db
      ensures Valid() && fresh(Footprints(openDatabases) - old(Footprints(openDatabases)))
      ensures Value() == InsertAt(old(Value()), i, job)
    {
      hide LuaDatabase.Valid, LuaDatabase.Value, Values, ActionObject.Footprint, Scheduler.PushBack, EnsurePinned;
      hide Created, InsertAt, Abandon, TypeError, ActionObject.Quiet, ActionObject.Value;
      ghost var before := Value();
      requested := requested + [job];
      var o := CreateAction(job);
      assert db.Value() == before.open[i];
      if o.Some? {
        Enqueue(db, o.value, i);
      }
      assert Value() == InsertAt(before, i, job) by {
        InsertAtSteps(before, i, job);
      }
    }

    method Find(id: nat) returns (i: nat)
      requires AllValid(openDatabases)
      ensures i == IndexOf(Values(openDatabases), id)
    {
      hide LuaDatabase.Valid, LuaDatabase.Value;
      i := 0;
      while i < |openDatabases| && openDatabases[i].id != id
        invariant 0 <= i <= |openDatabases|
        invariant IndexOf(Values(openDatabases), id) == i + IndexOf(Values(openDatabases)[i..], id)
      {
        FieldsOf(openDatabases[i]);
        assert Values(openDatabases)[i..][1..] == Values(openDatabases)[i + 1..];
        i := i + 1;
      }
      if i < |openDatabases| {
        FieldsOf(openDatabases[i]);
      }
    }

    method Request(request: P.Request)
      requires Valid()
      modifies this`registry, this`actions, this`requested, openDatabases
      ensures Valid() && fresh(Footprints(openDatabases) - old(Footprints(openDatabases)))
      ensures var w := old(Value());
              var i := IndexOf(w.open, request.db);
              Value() == if i < |w.open| then InsertAt(w, i, request.job) else w
    {
      hide LuaDatabase.Valid, LuaDatabase.Value, Values, InsertAt, IndexOf;
      var i := Find(request.db);
      if i < |openDatabases| {
        InsertAction(openDatabases[i], request.job, i);
      }
    }

    /** Lua code inside a handler runs its requests one after the other. */
    method RunRequests(requests: seq<P.Request>)
      requires Valid()
      modifies this`registry, this`actions, this`requested, openDatabases
      ensures Valid() && fresh(Footprints(openDatabases) - old(Footprints(openDatabases)))
      ensures Value() == InsertAll(old(Value()), requests)
    {
      hide LuaDatabase.Valid, LuaDatabase.Value, Values, InsertAll, InsertAt, IndexOf;
      var k := 0;
      while k < |requests|
        invariant 0 <= k <= |requests| && Valid()
        invariant fresh(Footprints(openDatabases) - old(Footprints(openDatabases)))
        invariant InsertAll(Value(), requests[k..]) == InsertAll(old(Value()), requests)
      {
        InsertAllUnfolds(Value(), requests[k..]);
        assert requests[k..][0] == requests[k] && requests[k..][1..] == requests[k + 1..];
        Request(requests[k]);
        k := k + 1;
      }
      assert requests[k..] == [];
      InsertAllOfNone(Value());
    }

    /** The visit of the running action, and the registry reference that a successful prepare takes. */
    method Visit(db: LuaDatabase, env: Env, ghost i: nat) returns (requests: seq<P.Request>, verdict: Verdict)
      requires Valid() && i < |openDatabases| && openDatabases[i] == db && HasWork(db.Value())
      modifies this`registry, db, db.footprint
      ensures Valid() && Footprints(openDatabases) == old(Footprints(openDatabases))
      ensures Value() == AfterVisit(old(Value()), i, env)
      ensures var v := VisitAt(old(Value()), i, env); requests == v.requests && verdict == v.verdict
    {
      hide LuaDatabase.Valid, LuaDatabase.Value, Values, VisitAction, VisitAt, Visited, Scheduler.Pop, HasWork, R.Ref;
      hide AfterFinish, AfterVisit;
      ghost var before := Value();
      TurnOf(db, before, i, env);
      ghost var v;
      var accepted;
      v, accepted, requests, verdict := TurnAt(db, env, i);
      if accepted {
        LoseReference();
      }
      AfterFinishIs(before.reg, v);
    }

    /** The reference of a weak table that nobody will release. */
    method LoseReference()
      modifies this`registry
      ensures registry == R.Lose(R.Ref(old(registry)).0, [R.Ref(old(registry)).1])
      ensures Same(old(Valid()), old(AllValues()))
    {
      hide LuaDatabase.Valid, LuaDatabase.Value, Values;
      var weak := LuaRef();
      registry := R.Lose(registry, [weak]);
    }

    method TurnAt(db: LuaDatabase, env: Env, ghost i: nat)
      returns (ghost v: Visit, accepted: bool, requests: seq<P.Request>, verdict: Verdict)
      requires Valid() && i < |openDatabases| && openDatabases[i] == db && HasWork(db.Value())
      modifies db, db.footprint
      ensures Valid() && Footprints(openDatabases) == old(Footprints(openDatabases))
      ensures Scheduler.Pop(old(db.Value())).current.Some?
      ensures v == VisitAction(Scheduler.Pop(old(db.Value())).current.value, Scheduler.Pop(old(db.Value())).socket, env)
      ensures requests == v.requests && verdict == v.verdict
      ensures accepted == (v.entered && Accepted(v.a.m.Server()))
      ensures Value() == old(Value()).(open := old(Value()).open[i := Visited(Scheduler.Pop(old(db.Value())), v)])
    {
      hide LuaDatabase.Valid, LuaDatabase.Value, Values, VisitAction, Visited, Scheduler.Pop, HasWork;
      ghost var open := Values(openDatabases);
      v, accepted, requests, verdict := db.Turn(env);
      assert Values(openDatabases) == open[i := db.Value()];
    }

    /** `LuaDatabase::RunTick` (src/luadatabase.cpp:50-82). */
    method RunTick(db: LuaDatabase, env: Env, ghost i: nat) returns (threw: bool)
      requires Valid() && i < |openDatabases| && openDatabases[i] == db && HasWork(db.Value())
      modifies this`registry, this`actions, this`closed, this`requested, openDatabases, db.footprint
      ensures Valid() && fresh(Footprints(openDatabases) - old(Footprints(openDatabases)))
      ensures Ticked(Value(), threw) == Scheduler.RunTick(old(Value()), i, env)
    {
      hide LuaDatabase.Valid, LuaDatabase.Value, Values, VisitAt, AfterVisit, InsertAll, Release, HasWork;
      var requests, verdict := Visit(db, env, i);
      RunRequests(requests);
      FieldsOf(db);
      if verdict == Done && db.currentAction.Some? {
        FreeCurrent(db, i);
      }
      threw := verdict == Threw;
    }

    /** `Free`, `current_action = nullptr`, and the end of `RunTick`; the loop of `RunTick` then tests
        `current_action`, so it never goes round again. */
    method FreeCurrent(db: LuaDatabase, ghost i: nat)
      requires Valid() && i < |openDatabases| && openDatabases[i] == db && db.currentAction.Some?
      modifies this`registry, this`closed, db`currentAction, db`queueReference, db`connected, db`freed, db`outcomes
      ensures Valid() && Footprints(openDatabases) == old(Footprints(openDatabases))
      ensures old(db.Value()).current.Some? && Value() == Release(old(Value()), i)
    {
      hide LuaDatabase.Valid, LuaDatabase.Value, Values, Released, R.Unref, R.UnrefAll, ActionObject.Value, Unpins;
      hide ClosesConnection, Release;
      ghost var before := Value();
      assert db.Value() == before.open[i];
      CurrentOf(db);
      ServerIsValue(db.currentAction.value);
      ghost var refs := db.currentAction.value.RefsOf();
      ghost var closes := ClosesConnection(db.currentAction.value.ServerOf());
      assert before.open[i].current.Some? && before.open[i].current.value.refs == refs;
      FreeReferences(db.currentAction.value.RefsOf());
      var unpinned := Drop(db, i);
      if unpinned.Some? {
        LuaUnref(unpinned.value);
      }
      UnpinsPinned(before.open[i]);
      ReleaseIs(before, i, refs, closes);
      assert Value() == before.(open := before.open[i := Released(before.open[i])], reg := registry, closed := closed);
    }

    method Drop(db: LuaDatabase, ghost i: nat) returns (unpinned: Option<nat>)
      requires Valid() && i < |openDatabases| && openDatabases[i] == db && db.currentAction.Some?
      modifies this`closed, db`currentAction, db`queueReference, db`connected, db`freed, db`outcomes
      ensures Valid() && Footprints(openDatabases) == old(Footprints(openDatabases))
      ensures old(db.Value()).current.Some?
      ensures Value() == old(Value()).(
                           open := old(Value()).open[i := Released(old(db.Value()))],
                           closed := if old(ClosesConnection(db.currentAction.value.ServerOf()))
                                     then old(closed) + [old(db.Value()).id] else old(closed))
      ensures unpinned == if Unpins(old(db.Value())) then old(db.Value()).pin else None
    {
      hide LuaDatabase.Valid, LuaDatabase.Value, Values, Released, Unpins, ActionObject.Value;
      FieldsOf(db);
      CurrentOf(db);
      if ClosesConnection(db.currentAction.value.ServerOf()) {
        closed := closed + [db.id];
      }
      unpinned := db.DropCurrent();
      assert Values(openDatabases) == old(Values(openDatabases))[i := db.Value()];
    }

    /** `LuaPromise::Free`, and the release of the result table. */
    method FreeReferences(refs: seq<nat>)
      modifies this`registry
      ensures registry == R.UnrefAll(old(registry), refs) && Same(old(Valid()), old(AllValues()))
    {
      hide LuaDatabase.Valid, LuaDatabase.Value, Values;
      var k := 0;
      while k < |refs|
        invariant 0 <= k <= |refs| && Same(old(Valid()), old(AllValues()))
        invariant R.UnrefAll(registry, refs[k..]) == R.UnrefAll(old(registry), refs)
      {
        LuaUnref(refs[k]);
        assert refs[k..][1..] == refs[k + 1..];
        k := k + 1;
      }
    }

    /** `list.erase(it); delete db`. */
    method EraseAt(i: nat)
      requires Valid() && i < |openDatabases|
      modifies this`openDatabases, this`erased
      ensures Valid() && |openDatabases| == |old(openDatabases)| - 1
      ensures Listed(old(openDatabases)) && Footprints(openDatabases) <= old(Footprints(openDatabases))
      ensures Value() == Erase(old(Value()), i)
    {
      hide LuaDatabase.Valid, LuaDatabase.Value, Values;
      ghost var open := Values(openDatabases);
      erased := erased + [openDatabases[i].Value()];
      openDatabases := openDatabases[..i] + openDatabases[i + 1..];
      assert Values(openDatabases) == open[..i] + open[i + 1..];
    }

    /** One turn of the loop of `TickHookTick`: `next` is where the iterator stands afterwards. */
    method VisitDatabase(i: nat, env: nat -> Env, ghost unready: bool) returns (worked: bool, threw: bool, next: nat)
      requires Valid() && i < |openDatabases|
      modifies this`registry, this`actions, this`closed, this`requested, this`erased, this`openDatabases
      modifies openDatabases, Footprints(openDatabases)
      ensures Valid() && Listed(old(openDatabases))
      ensures fresh(Footprints(openDatabases) - old(Footprints(openDatabases)))
      ensures next <= |openDatabases| && |openDatabases| - next < old(|openDatabases|) - i
      ensures if threw then TickFrom(old(Value()), i, env, unready) == Swept(Value(), true, true)
              else TickFrom(old(Value()), i, env, unready) == TickFrom(Value(), next, env, unready || worked)
    {
      hide LuaDatabase.Valid, LuaDatabase.Value, Values, Scheduler.RunTick, HasWork, Erase, TickFrom;
      var db := openDatabases[i];
      worked, threw, next := false, false, i + 1;
      FieldsOf(db);
      TickFromUnfolds(Value(), i, env, unready);
      if db.currentAction.Some? || |db.queue| > 0 {
        threw := RunTick(db, env(db.id), i);
        worked := true;
      } else if db.gced {
        EraseAt(i);
        next := i;
      }
    }

    /** `TickHookTick` (src/main.cpp:28-50): erases while it iterates. */
    method TickHookTick(env: nat -> Env) returns (unready: bool, threw: bool)
      requires Valid()
      modifies this`registry, this`actions, this`closed, this`requested, this`erased, this`openDatabases
      modifies openDatabases, Footprints(openDatabases)
      ensures Valid() && Listed(old(openDatabases))
      ensures fresh(Footprints(openDatabases) - old(Footprints(openDatabases)))
      ensures Swept(Value(), unready, threw) == Scheduler.TickHookTick(old(Value()), env)
    {
      hide LuaDatabase.Valid, LuaDatabase.Value, Values, TickFrom;
      unready, threw := false, false;
      var i := 0;
      while i < |openDatabases|
        invariant 0 <= i <= |openDatabases| && Valid() && Listed(old(openDatabases))
        invariant fresh(Footprints(openDatabases) - old(Footprints(openDatabases)))
        invariant TickFrom(Value(), i, env, unready) == TickFrom(old(Value()), 0, env, false)
        decreases |openDatabases| - i
      {
        var worked: bool;
        worked, threw, i := VisitDatabase(i, env, unready);
        unready := unready || worked || threw;
        if threw {
          return;
        }
      }
      TickFromUnfolds(Value(), i, env, unready);
    }

    /** `ShutdownHook` (src/main.cpp:59-82), for any callbacks; n bounds its drain. An exception out of a
        tick leaves it before the closing loop. */
    method ShutdownHook(envs: nat -> (nat -> Env), ghost n: nat) returns (threw: bool)
      requires Valid() && Ends(Value(), envs, 0, n)
      modifies this, openDatabases, Footprints(openDatabases)
      ensures Valid() && Value() == Hook(old(Value()), envs, n)
      ensures threw == Drained(old(Value()), envs, 0, n).threw
      ensures !threw ==> openDatabases == []
      ensures hasCleanedUpAlready == (old(hasCleanedUpAlready)
                                      || (!threw && Drained(old(Value()), envs, 0, n).w.open != []))
    {
      hide LuaModule.Value, LuaDatabase.Valid, LuaDatabase.Value, Scheduler.TickHookTick, Ends, Drained, DrainsTo;
      var t := 0;
      ghost var last := Drained(Value(), envs, 0, n);
      assert DrainsTo(Value(), envs, 0, n, last) by {
        DrainBegins(Value(), envs, n);
      }
      var clean := false;
      threw := false;
      while !clean && !threw
        invariant Valid() && Listed(old(openDatabases))
        invariant fresh(Footprints(openDatabases) - old(Footprints(openDatabases)))
        invariant hasCleanedUpAlready == old(hasCleanedUpAlready)
        invariant !clean && !threw ==> t <= n && DrainsTo(Value(), envs, t, n - t, last)
        invariant clean || threw ==> Value() == last.w && threw == last.threw
        decreases !clean && !threw, n - t
      {
        DrainUnfolds(Value(), envs, t, n - t, last);
        var unready: bool;
        unready, threw := TickHookTick(envs(t));
        clean := !unready;
        t := t + 1;
      }
      if !threw {
        AllListed();
        CloseDatabases();
      }
    }

    /** `mysql_close`, `delete` and `erase` of the first database (src/main.cpp:75-78). */
    method CloseFirst()
      requires Valid() && |openDatabases| > 0
      modifies this`openDatabases, this`closed, this`hasCleanedUpAlready
      ensures Valid() && openDatabases == old(openDatabases)[1..] && hasCleanedUpAlready
      ensures var w := old(Value());
              |w.open| > 0 && Value() == w.(open := w.open[1..], closed := w.closed + [w.open[0].id])
    {
      hide LuaDatabase.Valid, LuaDatabase.Value, Values;
      ghost var open := Values(openDatabases);
      FieldsOf(openDatabases[0]);
      closed := closed + [openDatabases[0].id];
      openDatabases := openDatabases[1..];
      hasCleanedUpAlready := true;
      assert Values(openDatabases) == open[1..];
    }

    /** The loop that closes every database left (src/main.cpp:69-79). */
    method CloseDatabases()
      requires Valid()
      modifies this`openDatabases, this`closed, this`hasCleanedUpAlready
      ensures Valid() && openDatabases == [] && Value() == CloseAll(old(Value()))
      ensures hasCleanedUpAlready == (old(hasCleanedUpAlready) || |old(openDatabases)| > 0)
    {
      hide LuaDatabase.Valid, LuaDatabase.Value, Values, CloseAll;
      while |openDatabases| > 0
        invariant Valid() && |openDatabases| <= |old(openDatabases)|
        invariant CloseAll(Value()) == CloseAll(old(Value()))
        invariant hasCleanedUpAlready == (old(hasCleanedUpAlready) || |openDatabases| < |old(openDatabases)|)
        decreases |openDatabases|
      {
        CloseAllUnfolds(Value());
        CloseFirst();
      }
      CloseAllUnfolds(Value());
    }

    /** `new LuaDatabase` (src/luadatabase.h:43-64). */
    method Open() returns (db: LuaDatabase)
      requires Valid()
      modifies this`registry, this`created, this`openDatabases
      ensures Valid() && fresh(db) && openDatabases == old(openDatabases) + [db]
      ensures Value() == OpenDatabase(old(Value()))
    {
      hide LuaDatabase.Valid, LuaDatabase.Value, Values, NewDb, R.Ref;
      var reference := LuaRef();
      created := created + 1;
      db := new LuaDatabase(created, reference);
      Add(db);
    }

    /** `open_databases.push_back(this)`. */
    method Add(db: LuaDatabase)
      requires Valid() && db.Valid() && db.footprint == {}
      requires forall j :: 0 <= j < |openDatabases| ==> openDatabases[j] != db && db !in openDatabases[j].footprint
      modifies this`openDatabases
      ensures Valid() && openDatabases == old(openDatabases) + [db]
      ensures Value() == old(Value()).(open := old(Value()).open + [db.Value()])
    {
      hide LuaDatabase.Valid, LuaDatabase.Value, Values;
      ghost var open := Values(openDatabases);
      openDatabases := openDatabases + [db];
      assert Values(openDatabases) == open + [db.Value()];
    }

    /** `__gc` of the database's userdata (src/luadatabase_library.cpp:20-40). */
    method Collect(db: LuaDatabase, waits: seq<Wait>, ghost i: nat)
      requires Valid() && i < |openDatabases| && openDatabases[i] == db
      modifies this`registry, this`actions, db
      ensures Valid() && Value() == if hasCleanedUpAlready then old(Value()) else CollectAt(old(Value()), i, waits)
    {
      hide CollectAt, LuaDatabase.Valid, LuaDatabase.Value, Values;
      if !hasCleanedUpAlready {
        CloseLater(db, waits, i);
      }
    }

    method CloseLater(db: LuaDatabase, waits: seq<Wait>, ghost i: nat)
      requires Valid() && i < |openDatabases| && openDatabases[i] == db
      modifies this`registry, this`actions, db
      ensures Valid() && Value() == CollectAt(old(Value()), i, waits)
    {
      hide LuaDatabase.Valid, LuaDatabase.Value, Values, ActionObject.Footprint, ActionObject.Value, ActionObject.Quiet;
      hide CollectAt, Created, Scheduler.PushBack, CloseJob, UnrefOptional, TypeError;
      ghost var before := Value();
      assert db.Value() == before.open[i];
      Unreference(db, i);
      CollectSteps(before, i, waits);
      AppendNew(db, CloseJob(waits), i);
    }

    /** `queue.push_back` of a new action, without pinning. */
    method AppendNew(db: LuaDatabase, job: P.Job, ghost i: nat)
      requires Valid() && i < |openDatabases| && openDatabases[i] == db && !TypeError(job.server)
      modifies this`registry, this`actions, db
      ensures Valid()
      ensures var (reg, actions', a) := Created(old(registry), old(actions), job);
              Value() == old(Value()).(reg := reg, actions := actions',
                                       open := old(Value()).open[i := Scheduler.PushBack(old(db.Value()), a)])
    {
      hide LuaDatabase.Valid, LuaDatabase.Value, Values, ActionObject.Footprint, ActionObject.Value, ActionObject.Quiet;
      hide Created, Scheduler.PushBack, TypeError;
      var o := CreateAction(job);
      Append(db, o.value, i);
    }

    method Unreference(db: LuaDatabase, ghost i: nat)
      requires Valid() && i < |openDatabases| && openDatabases[i] == db
      modifies this`registry, db`reference, db`gced
      ensures Valid() && Footprints(openDatabases) == old(Footprints(openDatabases))
      ensures Value() == old(Value()).(
                           reg := UnrefOptional(old(registry), old(db.Value()).reference),
                           open := old(Value()).open[i := old(db.Value()).(reference := None, gced := true)])
    {
      hide LuaDatabase.Valid, LuaDatabase.Value, Values, R.Unref;
      assert db.Value() == Value().open[i];
      FieldsOf(db);
      if db.reference.Some? {
        LuaUnref(db.reference.value);
      }
      OrphanAt(db, i);
    }

    method OrphanAt(db: LuaDatabase, ghost i: nat)
      requires Valid() && i < |openDatabases| && openDatabases[i] == db
      modifies db`reference, db`gced
      ensures Valid() && Footprints(openDatabases) == old(Footprints(openDatabases))
      ensures Value() == old(Value()).(
                           open := old(Value()).open[i := old(db.Value()).(reference := None, gced := true)])
    {
      hide LuaDatabase.Valid, LuaDatabase.Value, Values;
      ghost var open := Values(openDatabases);
      db.Orphan();
      assert Values(openDatabases) == open[i := db.Value()];
    }

    /** All open databases are among these. */
    ghost predicate Listed(dbs: seq<LuaDatabase>)
      reads this
    {
      forall k :: 0 <= k < |openDatabases| ==> openDatabases[k] in dbs
    }

    /** `InsertAction` (src/luadatabase.h:79-85). */
    method Enqueue(db: LuaDatabase, o: ActionObject, ghost i: nat)
      requires Valid() && i < |openDatabases| && openDatabases[i] == db && o.Quiet()
      requires this !in o.Footprint() && o.Footprint() !! Footprints(openDatabases)
      requires forall j :: 0 <= j < |openDatabases| ==> openDatabases[j] !in o.Footprint()
      modifies this`registry, db
      ensures Valid() && Footprints(openDatabases) <= old(Footprints(openDatabases)) + o.Footprint()
      ensures o.Value() == old(o.Value())
      ensures var (reg, pinned) := EnsurePinned(old(registry), old(db.Value()));
              Value() == old(Value()).(reg := reg,
                                       open := old(Value()).open[i := Scheduler.PushBack(pinned, o.Value())])
    {
      hide LuaDatabase.Valid, LuaDatabase.Value, Values, ActionObject.Footprint, Scheduler.PushBack, EnsurePinned;
      Pin(db, i);
      Append(db, o, i);
    }
  }

  /** One turn of the loop of `TickHookTick`. */
  lemma TickFromUnfolds(w: World, i: nat, env: nat -> Env, unready: bool)
    requires i <= |w.open|
    ensures TickFrom(w, i, env, unready) ==
            if i == |w.open| then Swept(w, unready, false)
            else if HasWork(w.open[i]) then
              var t := Scheduler.RunTick(w, i, env(w.open[i].id));
              if t.threw then Swept(t.w, true, true) else TickFrom(t.w, i + 1, env, true)
            else if w.open[i].gced then TickFrom(Erase(w, i), i, env, unready)
            else TickFrom(w, i + 1, env, unready)
  {
  }

  /** The drain that has come to tick t ends within m ticks, and `last` is its last one. */
  predicate DrainsTo(w: World, envs: nat -> (nat -> Env), t: nat, m: nat, last: Swept) {
    Ends(w, envs, t, m) && Drained(w, envs, t, m) == last
  }

  lemma DrainBegins(w: World, envs: nat -> (nat -> Env), n: nat)
    requires Ends(w, envs, 0, n)
    ensures DrainsTo(w, envs, 0, n, Drained(w, envs, 0, n))
  {
  }

  /** One turn of the drain. */
  lemma DrainUnfolds(w: World, envs: nat -> (nat -> Env), t: nat, m: nat, last: Swept)
    requires DrainsTo(w, envs, t, m, last)
    ensures var tick := Scheduler.TickHookTick(w, envs(t));
            m > 0 && if tick.threw || !tick.unready then tick == last
                     else DrainsTo(tick.w, envs, t + 1, m - 1, last)
  {
    hide Scheduler.TickHookTick;
  }

  lemma CloseAllUnfolds(w: World)
    ensures CloseAll(w) == if w.open == [] then w
                           else CloseAll(w.(open := w.open[1..], closed := w.closed + [w.open[0].id]))
  {
  }

  lemma CollectSteps(w: World, i: nat, waits: seq<Wait>)
    requires i < |w.open|
    ensures !TypeError(CloseJob(waits).server)
    ensures var orphan := w.open[i].(reference := None, gced := true);
            var (reg, actions, a) := Created(UnrefOptional(w.reg, w.open[i].reference), w.actions, CloseJob(waits));
            CollectAt(w, i, waits) == w.(reg := reg, actions := actions,
                                         open := w.open[i := Scheduler.PushBack(orphan, a)])
  {
  }

  lemma InsertAllUnfolds(w: World, requests: seq<P.Request>)
    requires requests != []
    ensures var i := IndexOf(w.open, requests[0].db);
            var w1 := if i < |w.open| then InsertAt(w, i, requests[0].job) else w;
            InsertAll(w, requests) == InsertAll(w1, requests[1..])
  {
  }

  lemma InsertAllOfNone(w: World)
    ensures InsertAll(w, []) == w
  {
  }

  lemma InsertAtSteps(w: World, i: nat, job: P.Job)
    requires i < |w.open|
    ensures TypeError(job.server) ==> InsertAt(w, i, job) == w.(reg := Abandon(w.reg), requested := w.requested + [job])
    ensures !TypeError(job.server) ==>
              var (reg, actions, a) := Created(w.reg, w.actions, job);
              var (reg', pinned) := EnsurePinned(reg, w.open[i]);
              InsertAt(w, i, job) == w.(reg := reg', actions := actions, requested := w.requested + [job],
                                        open := w.open[i := Scheduler.PushBack(pinned, a)])
  {
  }

  /** What creating an action does to the registry and the count of actions. */
  function Created(reg: R.State, actions: nat, job: P.Job): (R.State, nat, Action) {
    var (reg', refs) := R.Refs(reg, ReferencesOf(job.server));
    (reg', actions + 1, NewAction(actions, job, ReleaseOrder(refs)))
  }

  lemma RefsStep(g: R.State, n: nat)
    ensures R.Refs(g, n + 1) == (R.Refs(R.Ref(g).0, n).0, [R.Ref(g).1] + R.Refs(R.Ref(g).0, n).1)
    ensures R.Refs(g, 0) == (g, [])
  {
  }

  lemma ThreeRefs(reg: R.State)
    ensures var (g1, a) := R.Ref(reg);
            var (g2, b) := R.Ref(g1);
            var (g3, c) := R.Ref(g2);
            R.Refs(reg, 3) == (g3, [a, b, c])
  {
    hide R.Ref, R.Refs;
    var g1 := R.Ref(reg).0;
    var g2 := R.Ref(g1).0;
    RefsStep(reg, 2);
    RefsStep(g1, 1);
    RefsStep(g2, 0);
    RefsStep(R.Ref(g2).0, 0);
    assert [R.Ref(reg).1] + ([R.Ref(g1).1] + ([R.Ref(g2).1] + [])) == [R.Ref(reg).1, R.Ref(g1).1, R.Ref(g2).1];
  }

  lemma FourthRef(reg: R.State)
    ensures var (g3, refs) := R.Refs(reg, 3);
            var (g4, d) := R.Ref(g3);
            |refs| == 3 && R.Refs(reg, 4).0 == g4 && ReleaseOrder(R.Refs(reg, 4).1) == ReleaseOrder(refs) + [d]
  {
    hide R.Ref, R.Refs;
    ThreeRefs(reg);
    RefsStep(reg, 3);
    ThreeRefs(R.Ref(reg).0);
    var (g3, refs) := R.Refs(reg, 3);
    var d := R.Ref(g3).1;
    assert [R.Ref(reg).1] + R.Refs(R.Ref(reg).0, 3).1 == refs + [d];
  }
}
