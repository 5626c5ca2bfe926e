// What callbacks are given: every outcome described by its parts, from the answers of the server alone.

module Delivery {
  import opened Types
  import opened Rows
  import opened Connector
  import opened Actions
  import P = Promise
  import Q = QueryMachine

  /** The fields of the result table (src/actions/query.h:123-134): an insert id of 0 and an affected-row
      count of 2^64 - 1 stand for none. */
  predicate DeliversNumbers(data: Payload, insertId: nat, affected: nat)
    requires data.ResultTable?
  {
    && (data.lastInsertId == if insertId == 0 then None else Some(insertId))
    && (data.affectedRows.None? <==> affected == 18446744073709551615)
    && (data.affectedRows.Some? ==> data.affectedRows.value == affected)
  }

  /** A result table: the table of each row, in order, and the two fields. */
  predicate DeliversTable(data: Payload, rows: seq<RawRow>, nullFlags: bool, insertId: nat, affected: nat) {
    && data.ResultTable?
    && |data.rows| == |rows|
    && (forall i :: 0 <= i < |rows| ==> HoldsRow(data.rows[i], rows[i], nullFlags))
    && DeliversNumbers(data, insertId, affected)
  }

  predicate Rejects(s: Settlement, fault: Fault) {
    !s.success && s.data == Failure(fault)
  }

  /** A single operation resolves if and only if it returned 0; the two closes settle nothing. */
  predicate AsyncDelivers(a: AsyncServer, outcome: Option<Settlement>) {
    match a.kind
    case StatementClose | ConnectionClose => outcome.None?
    case Ordinary | Prepare =>
      && outcome.Some?
      && (if a.ret == 0 then outcome.value.success && outcome.value.data == Success
          else Rejects(outcome.value, a.fault))
  }

  /** A query is rejected with the first error, or delivers its rows, without the NULL flags; only a result
      whose free ended with a lost server delivers none. */
  predicate QueryDelivers(q: QueryServer, outcome: Option<Settlement>) {
    && outcome.Some?
    && var s := outcome.value;
       if q.out != 0 then Rejects(s, q.queryFault)
       else if !q.hasResult && q.fieldCount != 0 then Rejects(s, q.useFault)
       else if q.hasResult && q.endFault.errno != 0 then Rejects(s, q.endFault)
       else
         var none := !q.hasResult || q.freeFault.errno == 2006 || q.freeFault.errno == 2013;
         var rows := if none then [] else seq(|q.rows|, i requires 0 <= i < |q.rows| => q.rows[i].cells);
         s.success && DeliversTable(s.data, rows, false, q.insertId, q.affected)
  }

  /** A statement is rejected with the first error, or delivers its rows, with the NULL flags; the fetch
      must end with 100, and 101 means that data was truncated. */
  predicate ExecuteDelivers(e: ExecuteServer, outcome: Option<Settlement>) {
    && outcome.Some?
    && var s := outcome.value;
       if e.bindOut != 0 then Rejects(s, e.bindFault)
       else if e.executeOut != 0 then Rejects(s, e.executeFault)
       else if e.hasMetadata && e.storeOut != 0 then Rejects(s, e.storeFault)
       else if e.hasMetadata && e.endOut == 101 then Rejects(s, Fault("MySQL data truncated", e.fetchFault.errno))
       else if e.hasMetadata && e.endOut != 100 then Rejects(s, e.fetchFault)
       else s.success && DeliversTable(s.data, if e.hasMetadata then e.rows else [], true, e.insertId, e.affected)
  }

  predicate Delivers(server: Server, outcome: Option<Settlement>) {
    match server
    case ForAsync(a) => AsyncDelivers(a, outcome)
    case ForQuery(q) => QueryDelivers(q, outcome)
    case ForExecute(e) => ExecuteDelivers(e, outcome)
  }

  // ----- what every run settles with is exactly that -----

  lemma TableDelivers(rows: seq<RawRow>, nullFlags: bool, insertId: nat, affected: nat)
    ensures DeliversTable(Table(Tables(rows, nullFlags), insertId, affected), rows, nullFlags, insertId, affected)
  {
    hide HoldsRow;
    forall i | 0 <= i < |rows| ensures HoldsRow(Tables(rows, nullFlags)[i], rows[i], nullFlags) {
      RowTableHolds(rows[i], nullFlags);
    }
  }

  lemma TableOnce(rows: seq<RawRow>, nullFlags: bool, insertId: nat, affected: nat, a: Payload, b: Payload)
    requires DeliversTable(a, rows, nullFlags, insertId, affected)
    requires DeliversTable(b, rows, nullFlags, insertId, affected)
    ensures a == b
  {
    hide HoldsRow;
    forall i | 0 <= i < |rows| ensures a.rows[i] == b.rows[i] {
      HoldsRowOnce(rows[i], nullFlags, a.rows[i], b.rows[i]);
    }
  }

  /** Whatever satisfies the description of a table is the table built. */
  lemma TableExactly(rows: seq<RawRow>, nullFlags: bool, insertId: nat, affected: nat, data: Payload)
    ensures DeliversTable(data, rows, nullFlags, insertId, affected)
            <==> data == Table(Tables(rows, nullFlags), insertId, affected)
  {
    hide DeliversTable;
    TableDelivers(rows, nullFlags, insertId, affected);
    if DeliversTable(data, rows, nullFlags, insertId, affected) {
      TableOnce(rows, nullFlags, insertId, affected, data, Table(Tables(rows, nullFlags), insertId, affected));
    }
  }

  lemma QueryExactly(q: QueryServer, outcome: Option<Settlement>)
    ensures QueryDelivers(q, outcome) <==> outcome == Some(Q.Expected(q))
  {
    hide DeliversTable, Table;
    var cells := seq(|q.rows|, i requires 0 <= i < |q.rows| => q.rows[i].cells);
    assert RowCells(q.rows) == cells;
    assert Tables([], false) == [];
    if outcome.Some? {
      TableExactly(cells, false, q.insertId, q.affected, outcome.value.data);
      TableExactly([], false, q.insertId, q.affected, outcome.value.data);
    }
  }

  lemma ExecuteExactly(e: ExecuteServer, outcome: Option<Settlement>)
    ensures ExecuteDelivers(e, outcome) <==> outcome == Some(BlockingExecute(e))
  {
    hide DeliversTable, Table;
    assert Tables([], true) == [];
    if outcome.Some? {
      TableExactly(e.rows, true, e.insertId, e.affected, outcome.value.data);
      TableExactly([], true, e.insertId, e.affected, outcome.value.data);
    }
  }

  /** The outcome of every run is the one outcome that the description admits. */
  lemma ExpectedExactly(server: Server, outcome: Option<Settlement>)
    ensures Delivers(server, outcome) <==> outcome == Expected(server)
  {
    hide QueryDelivers, ExecuteDelivers, Q.Expected, BlockingExecute;
    match server
    case ForAsync(_) =>
    case ForQuery(q) => QueryExactly(q, outcome);
    case ForExecute(e) => ExecuteExactly(e, outcome);
  }

  /** A pending promise takes what it is settled with, whatever its handlers do. */
  lemma PendingTakes(p: P.State, s: Settlement)
    requires p.result.None?
    ensures SettleWith(p, Some(s)).p.result == Some(s)
  {
    var settled := p.(result := Some(s));
    assert SettleWith(p, Some(s)) == P.Try(settled);
    if !p.finished && P.Matching(settled, s.success).Some? {
      P.FiredBodyIsInert(settled.(finished := true), P.Matching(settled, s.success).value.body);
    }
  }
}
