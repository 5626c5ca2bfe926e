// The database side, as fixed data. Every connector call suspends a finite number of times, each
// time returning wait flags, and then has the outcome recorded here.

module Connector {
  import opened Types
  import opened SocketStatus
  import opened Rows
  import opened Binding

  /** One `mysql_fetch_row` that delivers a row. */
  datatype RowReply = RowReply(waits: seq<Wait>, cells: RawRow)

  /** Everything the connector answers to one `QueryAction` (src/actions/query.h). `misuse*` is what
      it answers to a continue call on an operation that has already completed. */
  datatype QueryServer = QueryServer(
    queryWaits: seq<Wait>, out: int, queryFault: Fault,
    hasResult: bool, fieldCount: nat, useFault: Fault,
    rows: seq<RowReply>, endWaits: seq<Wait>, endFault: Fault,
    freeWaits: seq<Wait>, freeFault: Fault,
    misuseOut: int, misuseFault: Fault,
    insertId: nat, affected: nat)

  /** What `mysql_stmt_fetch` returns when it delivers no row. */
  type FetchEnd = code: int | code != 0 witness 100
  const MYSQL_NO_DATA := 100
  const MYSQL_DATA_TRUNCATED := 101

  /** Everything the connector answers to one `ExecuteStatementAction`
      (src/actions/executestatement.h), and what `execute` was called with: the arguments and the
      number of parameters of the statement. */
  datatype ExecuteServer = ExecuteServer(
    args: seq<LuaValue>, params: nat,
    bindOut: int, bindFault: Fault,
    executeOut: int, executeFault: Fault,
    hasMetadata: bool,
    storeOut: int, storeFault: Fault,
    rows: seq<RawRow>, endOut: FetchEnd, fetchFault: Fault,
    freeWaits: seq<Wait>,
    insertId: nat, affected: nat)

  /** The actions built on `LuaActionAsync`: those that settle their promise in `Finish` (connect,
      ping, autocommit, commit, rollback as Ordinary, and prepare), and the two closes, which never
      settle it. */
  datatype AsyncKind = Ordinary | Prepare | StatementClose | ConnectionClose

  datatype AsyncServer = AsyncServer(kind: AsyncKind, waits: seq<Wait>, ret: int, fault: Fault)

  datatype Server =
    | ForAsync(a: AsyncServer)
    | ForQuery(q: QueryServer)
    | ForExecute(e: ExecuteServer)

  /** The call of `execute` raises a type error while it binds its arguments. */
  predicate TypeError(server: Server) {
    server.ForExecute? && FirstUnbindable(server.e.args, server.e.params).Some?
  }

  /** Nil, booleans, numbers and strings within the parameter count raise none; anything else does. */
  lemma TypeErrorExactly(server: Server)
    ensures TypeError(server) <==>
            && server.ForExecute?
            && exists k :: 0 <= k < server.e.params && k < |server.e.args| && server.e.args[k].Object?
  {
    if server.ForExecute? {
      BindsExactly(server.e.args, server.e.params);
    }
  }

  /** `(my_ulonglong) -1`: the connector has no affected-row count. */
  const NO_AFFECTED_ROWS: nat := 0xFFFF_FFFF_FFFF_FFFF

  /** The table handed to `resolve` (src/actions/query.h:121-135). */
  function Table(rows: seq<LuaRow>, insertId: nat, affected: nat): Payload {
    ResultTable(rows,
                if insertId != 0 then Some(insertId) else None,
                if affected != NO_AFFECTED_ROWS then Some(affected) else None)
  }

  function RowCells(replies: seq<RowReply>): seq<RawRow> {
    seq(|replies|, i requires 0 <= i < |replies| => replies[i].cells)
  }

  // ----- the blocking programs the asynchronous ones stand for -----

  /** mysql_real_query; mysql_use_result; while row, append; mysql_free_result. */
  function BlockingQuery(q: QueryServer): Settlement {
    if q.out != 0 then
      Settlement(false, Failure(q.queryFault))
    else if !q.hasResult && q.fieldCount != 0 then
      Settlement(false, Failure(q.useFault))
    else if !q.hasResult then
      Settlement(true, Table([], q.insertId, q.affected))
    else if q.endFault.errno != 0 then
      Settlement(false, Failure(q.endFault))
    else
      Settlement(true, Table(Tables(RowCells(q.rows), false), q.insertId, q.affected))
  }

  /** bind; execute; store if there is a result set; fetch until nonzero. */
  function BlockingExecute(e: ExecuteServer): Settlement {
    if e.bindOut != 0 then
      Settlement(false, Failure(e.bindFault))
    else if e.executeOut != 0 then
      Settlement(false, Failure(e.executeFault))
    else if !e.hasMetadata then
      Settlement(true, Table([], e.insertId, e.affected))
    else if e.storeOut != 0 then
      Settlement(false, Failure(e.storeFault))
    else if e.endOut == MYSQL_DATA_TRUNCATED then
      Settlement(false, Failure(e.fetchFault.(message := "MySQL data truncated")))
    else if e.endOut == MYSQL_NO_DATA then
      Settlement(true, Table(Tables(e.rows, true), e.insertId, e.affected))
    else
      Settlement(false, Failure(e.fetchFault))
  }

  function BlockingAsync(a: AsyncServer): Option<Settlement> {
    if a.kind == StatementClose || a.kind == ConnectionClose then None
    else Some(if a.ret != 0 then Settlement(false, Failure(a.fault)) else Settlement(true, Success))
  }
}
