// src/luadatabase.h, src/luadatabase.cpp:50-82, src/main.cpp:28-50 and the collector's entry point in
// src/luadatabase_library.cpp:20-40, as functions on the whole state of the module.

module Scheduler {
  import opened Types
  import opened SocketStatus
  import opened Connector
  import opened Turns
  import opened Actions
  import opened Jobs
  import P = Promise
  import R = Registry

  /** What identifies an action in the histories. */
  datatype Ticket = Ticket(id: nat, server: Server)

  /** A `LuaDatabase`. `reference` is the weak table, `pin` the self-pin `queue_reference`;
      `connected` tells whether the connection instance is still open. The rest is history: actions
      inserted and freed, the outcome of each freed one's promise, the actions whose `Finish` was
      entered, the non-blocking calls made, and how often a query's rejection handler threw. */
  datatype Db = Db(
    id: nat, queue: seq<Action>, current: Option<Action>, socket: Flags,
    reference: Option<nat>, pin: Option<nat>, gced: bool, connected: bool,
    inserted: seq<Ticket>, freed: seq<Ticket>, outcomes: seq<Option<Settlement>>,
    finishes: seq<nat>, calls: seq<Call>, interruptions: nat)

  /** The registry, `open_databases` in order, the numbers of actions and databases created so far. The
      rest is history: the databases whose connection has been closed, in that order; the databases that
      were deleted, as they were then; and every operation that Lua code has asked an open database for. */
  datatype World = World(
    open: seq<Db>, reg: R.State, actions: nat, created: nat,
    closed: seq<nat>, erased: seq<Db>, requested: seq<P.Job>)

  const START := World([], R.EMPTY, 0, 0, [], [], [])

  function TicketOf(a: Action): Ticket {
    Ticket(a.id, a.m.Server())
  }

  /** The pending actions of a database, the running one first. */
  function Work(db: Db): seq<Action> {
    (if db.current.Some? then [db.current.value] else []) + db.queue
  }

  predicate HasWork(db: Db) {
    db.current.Some? || db.queue != []
  }

  // ----- creating and inserting actions -----

  /** The reference of the result table comes on top of the three of the promise. */
  function ReferencesOf(server: Server): nat {
    if server.ForAsync? then 3 else 4
  }

  /** The promise's references are created in the order resolve, reject, promise, and released in the
      order promise, reject, resolve (src/luapromise.h:8-20, 38-45). */
  function ReleaseOrder(created: seq<nat>): seq<nat> {
    if |created| < 3 then created else [created[2], created[1], created[0]] + created[3..]
  }

  function CreateAction(w: World, job: P.Job): (World, Action) {
    var (reg, refs) := R.Refs(w.reg, ReferencesOf(job.server));
    (w.(reg := reg, actions := w.actions + 1), NewAction(w.actions, job, ReleaseOrder(refs)))
  }

  function PushBack(db: Db, a: Action): Db {
    db.(queue := db.queue + [a], inserted := db.inserted + [TicketOf(a)])
  }

  /** The database refers to its own userdata through the registry while it has work. */
  function EnsurePinned(reg: R.State, db: Db): (R.State, Db) {
    if db.pin.Some? then (reg, db)
    else
      var (reg', pin) := R.Ref(reg);
      (reg', db.(pin := Some(pin)))
  }

  /** `execute` with an argument that cannot be bound: the constructor has taken the references of the
      promise when the type error leaves it, and `Free` never runs (src/luapromise.h:8-14,
      src/actions/executestatement.h:78-86, 136). */
  function Abandon(reg: R.State): R.State {
    var (reg', refs) := R.Refs(reg, 3);
    R.Lose(reg', ReleaseOrder(refs))
  }

  /** The constructor of an action followed by `InsertAction` (src/luadatabase.h:79-85). */
  function InsertAt(w: World, i: nat, job: P.Job): (r: World)
    requires i < |w.open|
    ensures |r.open| == |w.open|
  {
    if TypeError(job.server) then
      w.(reg := Abandon(w.reg), requested := w.requested + [job])
    else
      var (w1, a) := CreateAction(w, job);
      var (reg, pinned) := EnsurePinned(w1.reg, w.open[i]);
      w1.(reg := reg, open := w.open[i := PushBack(pinned, a)], requested := w.requested + [job])
  }

  /** Index of a database, or the length when it is not open. */
  function IndexOf(open: seq<Db>, id: nat): (i: nat)
    ensures i <= |open|
    ensures i < |open| ==> open[i].id == id
  {
    if open == [] || open[0].id == id then 0 else 1 + IndexOf(open[1..], id)
  }

  function Insert(w: World, id: nat, job: P.Job): (r: World)
    ensures |r.open| == |w.open|
  {
    var i := IndexOf(w.open, id);
    if i < |w.open| then InsertAt(w, i, job) else w
  }

  function InsertAll(w: World, requests: seq<P.Request>): (r: World)
    ensures |r.open| == |w.open|
    decreases |requests|
  {
    if requests == [] then w
    else InsertAll(Insert(w, requests[0].db, requests[0].job), requests[1..])
  }

  // ----- one tick of one database -----

  function Pop(db: Db): Db {
    if db.current.None? && db.queue != [] then db.(current := Some(db.queue[0]), queue := db.queue[1..])
    else db
  }

  /** A query's rejection handler threw out of its `Query`. */
  predicate RejectionThrew(v: Visit) {
    v.a.m.QueryM? && v.verdict == Threw && !v.entered
  }

  /** The database after a visit of its running action. */
  function Visited(db: Db, v: Visit): Db {
    db.(current := Some(v.a), socket := v.socket,
        calls := if v.call.Some? then db.calls + [v.call.value] else db.calls,
        finishes := if v.entered then db.finishes + [v.a.id] else db.finishes,
        interruptions := if RejectionThrew(v) then db.interruptions + 1 else db.interruptions)
  }

  /** The self-pin is given up with the last action. */
  predicate Unpins(db: Db) {
    db.queue == [] && db.pin.Some?
  }

  predicate ClosesNow(db: Db) {
    db.current.Some? && ClosesConnection(db.current.value.m.Server())
  }

  /** The database after `Free` and `current_action = nullptr`. The close of the connection, done by
      the operation just completed, is recorded here. */
  function Released(db: Db): Db
    requires db.current.Some?
  {
    var a := db.current.value;
    db.(current := None, pin := if Unpins(db) then None else db.pin,
        freed := db.freed + [TicketOf(a)], outcomes := db.outcomes + [a.p.result],
        connected := db.connected && !ClosesNow(db))
  }

  function RegistryAfterRelease(reg: R.State, db: Db): R.State
    requires db.current.Some?
  {
    var reg1 := R.UnrefAll(reg, db.current.value.refs);
    if Unpins(db) then R.Unref(reg1, db.pin.value) else reg1
  }

  function Release(w: World, i: nat): (r: World)
    requires i < |w.open| && w.open[i].current.Some?
    ensures |r.open| == |w.open|
  {
    var db := w.open[i];
    w.(open := w.open[i := Released(db)], reg := RegistryAfterRelease(w.reg, db),
       closed := if ClosesNow(db) then w.closed + [db.id] else w.closed)
  }

  datatype Ticked = Ticked(w: World, threw: bool)

  /** The visit that `RunTick` makes, after taking the next action if none is running. */
  function VisitAt(w: World, i: nat, env: Env): Visit
    requires i < |w.open| && HasWork(w.open[i])
  {
    var db := Pop(w.open[i]);
    VisitAction(db.current.value, db.socket, env)
  }

  /** The server accepted the statement of a prepare. */
  predicate Accepted(server: Server) {
    server.ForAsync? && server.a.kind == Prepare && server.a.ret == 0
  }

  /** A prepare that succeeds keeps its statement in a weak table of its own, before it resolves; nothing
      ever releases the reference of the table (src/actions/preparestatement.h:29-47). */
  function AfterFinish(reg: R.State, v: Visit): R.State {
    if v.entered && Accepted(v.a.m.Server()) then
      var (reg', weak) := R.Ref(reg);
      R.Lose(reg', [weak])
    else
      reg
  }

  function AfterVisit(w: World, i: nat, env: Env): World
    requires i < |w.open| && HasWork(w.open[i])
  {
    var v := VisitAt(w, i, env);
    w.(open := w.open[i := Visited(Pop(w.open[i]), v)], reg := AfterFinish(w.reg, v))
  }

  /** The rest of `RunTick`: the insertions that the handlers made, then `Free` if it is reached. */
  function Conclude(w: World, i: nat, requests: seq<P.Request>, verdict: Verdict): (r: Ticked)
    requires i < |w.open|
    ensures |r.w.open| == |w.open|
  {
    var w1 := InsertAll(w, requests);
    if verdict == Done && w1.open[i].current.Some? then Ticked(Release(w1, i), false)
    else Ticked(w1, verdict == Threw)
  }

  /** `RunTick` on a database with work: its loop always ends after one action. */
  function RunTick(w: World, i: nat, env: Env): (r: Ticked)
    requires i < |w.open| && HasWork(w.open[i])
    ensures |r.w.open| == |w.open|
  {
    var v := VisitAt(w, i, env);
    Conclude(AfterVisit(w, i, env), i, v.requests, v.verdict)
  }

  // ----- one tick of all databases -----

  /** `list.erase(it); delete db`. */
  function Erase(w: World, i: nat): World
    requires i < |w.open|
  {
    w.(open := w.open[..i] + w.open[i + 1..], erased := w.erased + [w.open[i]])
  }

  datatype Swept = Swept(w: World, unready: bool, threw: bool)

  /** The loop of `TickHookTick` from index i on (src/main.cpp:33-47): it erases while it iterates. An
      exception out of a callback ends it. */
  function TickFrom(w: World, i: nat, env: nat -> Env, unready: bool): Swept
    requires i <= |w.open|
    decreases |w.open| - i
  {
    if i == |w.open| then
      Swept(w, unready, false)
    else if HasWork(w.open[i]) then
      var t := RunTick(w, i, env(w.open[i].id));
      if t.threw then Swept(t.w, true, true) else TickFrom(t.w, i + 1, env, true)
    else if w.open[i].gced then
      TickFrom(Erase(w, i), i, env, unready)
    else
      TickFrom(w, i + 1, env, unready)
  }

  function TickHookTick(w: World, env: nat -> Env): Swept {
    TickFrom(w, 0, env, false)
  }

  // ----- opening and collecting -----

  function NewDb(id: nat, reference: nat): Db {
    Db(id, [], None, 0, Some(reference), None, false, true, [], [], [], [], [], 0)
  }

  /** The constructor of `LuaDatabase` (src/luadatabase.h:43-64). */
  function OpenDatabase(w: World): World {
    var (reg, reference) := R.Ref(w.reg);
    w.(reg := reg, created := w.created + 1, open := w.open + [NewDb(w.created + 1, reference)])
  }

  /** A `CloseAction`, whose promise no Lua code ever sees. */
  function CloseJob(waits: seq<Wait>): P.Job {
    P.Job(ForAsync(AsyncServer(ConnectionClose, waits, 0, Fault("", 0))), None, None)
  }

  /** `luaL_unref` of an optional reference: nothing happens for `LUA_REFNIL`. */
  function UnrefOptional(reg: R.State, r: Option<nat>): R.State {
    if r.Some? then R.Unref(reg, r.value) else reg
  }

  /** `__gc` of the database (src/luadatabase_library.cpp:20-40); the close suspends as in `waits`. */
  function CollectAt(w: World, i: nat, waits: seq<Wait>): World
    requires i < |w.open|
  {
    var db := w.open[i];
    var (w1, a) := CreateAction(w.(reg := UnrefOptional(w.reg, db.reference)), CloseJob(waits));
    w1.(open := w.open[i := PushBack(db.(reference := None, gced := true), a)])
  }

  // ----- chaining handlers onto a promise that is already pending -----

  function WithPromise(db: Db, k: nat, p: P.State): Db
    requires k < |Work(db)|
  {
    if db.current.None? then db.(queue := db.queue[k := db.queue[k].(p := p)])
    else if k == 0 then db.(current := Some(db.current.value.(p := p)))
    else db.(queue := db.queue[k - 1 := db.queue[k - 1].(p := p)])
  }

  /** Lua code that holds the promise of pending action k registers a handler; if the promise is
      already settled, the handler may run at once. */
  function ChainAt(w: World, i: nat, k: nat, c: P.Command): World
    requires i < |w.open| && k < |Work(w.open[i])|
  {
    var r := P.Apply(Work(w.open[i])[k].p, c);
    InsertAll(w.(open := w.open[i := WithPromise(w.open[i], k, r.p)]), r.requests)
  }

  // ----- runs -----

  /** What can happen to the module between two ticks, and a tick. */
  datatype Event =
    | Open
    | Submit(db: nat, job: P.Job)
    | Chain(db: nat, k: nat, c: P.Command)
    | Collect(db: nat, waits: seq<Wait>)
    | Tick(env: nat -> Env)

  /** The databases that Lua code can still hold: open and not collected. */
  function Live(open: seq<Db>): set<nat> {
    set i | 0 <= i < |open| && !open[i].gced :: open[i].id
  }

  predicate DbTargets(db: Db, live: set<nat>) {
    forall k :: 0 <= k < |Work(db)| ==> PromiseTargets(Work(db)[k].p, live)
  }

  /** No pending handler, in any database, can address a database outside `live`. */
  predicate AllTarget(open: seq<Db>, live: set<nat>) {
    forall i :: 0 <= i < |open| ==> DbTargets(open[i], live)
  }

  /** Code can use only databases it can hold. The collector takes a database only when nothing
      reaches it: it is not pinned in the registry, and no pending handler holds it. */
  predicate Enabled(w: World, event: Event) {
    match event
    case Open => true
    case Submit(db, job) => db in Live(w.open) && JobTargets(job, Live(w.open))
    case Chain(db, k, c) =>
      var i := IndexOf(w.open, db);
      && i < |w.open| && !w.open[i].gced && k < |Work(w.open[i])|
      && (c.Next? || c.Catch?) && HandlerTargets(c.h, Live(w.open))
    case Collect(db, _) =>
      var i := IndexOf(w.open, db);
      && i < |w.open| && !w.open[i].gced && w.open[i].pin.None?
      && AllTarget(w.open, Live(w.open) - {db})
    case Tick(_) => true
  }

  function Step(w: World, event: Event): World {
    match event
    case Open => OpenDatabase(w)
    case Submit(db, job) => Insert(w, db, job)
    case Chain(db, k, c) =>
      var i := IndexOf(w.open, db);
      if i < |w.open| && k < |Work(w.open[i])| then ChainAt(w, i, k, c) else w
    case Collect(db, waits) =>
      var i := IndexOf(w.open, db);
      if i < |w.open| then CollectAt(w, i, waits) else w
    case Tick(env) => TickHookTick(w, env).w
  }

  predicate Possible(w: World, events: seq<Event>)
    decreases |events|
  {
    events == [] || (Enabled(w, events[0]) && Possible(Step(w, events[0]), events[1..]))
  }

  function Run(w: World, events: seq<Event>): World
    decreases |events|
  {
    if events == [] then w else Run(Step(w, events[0]), events[1..])
  }
}
