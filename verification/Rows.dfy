// src/gluamysql.h:67-108: a fetched row becomes a Lua table.

module Rows {
  import opened Types

  datatype FieldType =
    | Float | Double | LongLong | Long | Int24 | Tiny | Short
    | Bit
    | NullType
    | Textual

  /** One column of a fetched row: the field's name and type, and its text (None for NULL). */
  datatype Cell = Cell(name: string, fieldType: FieldType, text: Option<string>)

  type RawRow = seq<Cell>

  function PushField(text: string, fieldType: FieldType): LuaValue {
    match fieldType
    case Float | Double | LongLong | Long | Int24 | Tiny | Short => NumberOf(text)
    case Bit => ByteOf(text)
    case NullType => Nil
    case Textual => String(text)
  }

  /** The value stored for a column. Only the prepared-statement path passes NULL flags; the query
      path reads a NULL as the empty text. */
  function CellValue(cell: Cell, nullFlags: bool): LuaValue {
    if nullFlags && cell.text.None? then Nil
    else PushField(if cell.text.Some? then cell.text.value else "", cell.fieldType)
  }

  /** A column is read as nil exactly when its type is NULL, or it is NULL and the flags are passed: so a
      NULL of a query is stored as a value, the empty text unless the column is numeric. */
  lemma NilExactly(cell: Cell, nullFlags: bool)
    ensures CellValue(cell, nullFlags) == Nil <==> cell.fieldType == NullType || (nullFlags && cell.text.None?)
    ensures cell.text.None? && cell.fieldType == Textual ==> CellValue(cell, false) == String("")
  {
  }

  /** `lua_rawset` of a string key: assigning nil removes the entry. */
  function RawSet(table: LuaRow, key: string, value: LuaValue): LuaRow {
    if value == Nil then table - {key} else table[key := value]
  }

  function RowTable(row: RawRow, nullFlags: bool): LuaRow {
    if row == [] then map[]
    else
      var last := row[|row| - 1];
      RawSet(RowTable(row[..|row| - 1], nullFlags), last.name, CellValue(last, nullFlags))
  }

  /** What a table holds for a column with this text, by the type of its field. */
  predicate HoldsText(table: LuaRow, name: string, fieldType: FieldType, text: string) {
    match fieldType
    case Textual => name in table && table[name] == String(text)
    case Bit => name in table && table[name] == ByteOf(text)
    case NullType => name !in table
    case Float | Double | LongLong | Long | Int24 | Tiny | Short => name in table && table[name] == NumberOf(text)
  }

  /** The same for a column that may be NULL: nothing if the NULL flags are passed, and otherwise what the
      empty text gives. */
  predicate HoldsCell(table: LuaRow, cell: Cell, nullFlags: bool) {
    match cell.text
    case Some(text) => HoldsText(table, cell.name, cell.fieldType, text)
    case None => if nullFlags then cell.name !in table else HoldsText(table, cell.name, cell.fieldType, "")
  }

  /** The table of a row, entry by entry: the last column of each name, and nothing else. */
  predicate HoldsRow(table: LuaRow, row: RawRow, nullFlags: bool) {
    && (forall i :: 0 <= i < |row| && LastOfItsName(row, i) ==> HoldsCell(table, row[i], nullFlags))
    && (forall key <- table :: exists i :: 0 <= i < |row| && row[i].name == key)
  }

  method PushRow(row: RawRow, nullFlags: bool) returns (table: LuaRow)
    ensures table == RowTable(row, nullFlags)
    ensures HoldsRow(table, row, nullFlags)
  {
    table := map[];
    for i := 0 to |row|
      invariant table == RowTable(row[..i], nullFlags)
    {
      table := RawSet(table, row[i].name, CellValue(row[i], nullFlags));
      assert row[..i + 1][..i] == row[..i];
    }
    assert row[..|row|] == row;
    RowTableHolds(row, nullFlags);
  }

  /** Column i is the last one of its name. */
  predicate LastOfItsName(row: RawRow, i: nat)
    requires i < |row|
  {
    forall j :: i < j < |row| ==> row[j].name != row[i].name
  }

  /** Among columns of one name the last decides alone: the entry holds its value, by the type of its field,
      and is absent exactly when that value is nil, even if an earlier column of that name was not. */
  lemma {:induction false} RowTableEntry(row: RawRow, nullFlags: bool, i: nat)
    requires i < |row| && LastOfItsName(row, i)
    ensures row[i].name in RowTable(row, nullFlags) <==> CellValue(row[i], nullFlags) != Nil
    ensures row[i].name in RowTable(row, nullFlags)
            ==> RowTable(row, nullFlags)[row[i].name] == CellValue(row[i], nullFlags)
    ensures HoldsCell(RowTable(row, nullFlags), row[i], nullFlags)
  {
    if i < |row| - 1 {
      var before := row[..|row| - 1];
      assert before[i] == row[i] && row[|row| - 1].name != row[i].name;
      RowTableEntry(before, nullFlags, i);
    }
  }

  /** Every entry comes from a column of that name. */
  lemma {:induction false} RowTableKeys(row: RawRow, nullFlags: bool, key: string)
    requires key in RowTable(row, nullFlags)
    ensures exists i: nat :: i < |row| && row[i].name == key && LastOfItsName(row, i)
  {
    var last := |row| - 1;
    if row[last].name == key {
      assert LastOfItsName(row, last);
    } else {
      RowTableKeys(row[..last], nullFlags, key);
      var i: nat :| i < last && row[..last][i].name == key && LastOfItsName(row[..last], i);
      assert LastOfItsName(row, i) by {
        forall j | i < j < |row| ensures row[j].name != row[i].name {
          if j < last {
            assert row[..last][j].name != row[..last][i].name;
          }
        }
      }
    }
  }

  /** The table built from a row holds its columns. */
  lemma RowTableHolds(row: RawRow, nullFlags: bool)
    ensures HoldsRow(RowTable(row, nullFlags), row, nullFlags)
  {
    hide RowTable, HoldsCell, LastOfItsName;
    var table := RowTable(row, nullFlags);
    forall i | 0 <= i < |row| && LastOfItsName(row, i) ensures HoldsCell(table, row[i], nullFlags) {
      RowTableEntry(row, nullFlags, i);
    }
    forall key | key in table ensures exists i :: 0 <= i < |row| && row[i].name == key {
      RowTableKeys(row, nullFlags, key);
    }
  }

  lemma {:induction false} LastColumn(row: RawRow, key: string, i: nat) returns (j: nat)
    requires i < |row| && row[i].name == key
    ensures j < |row| && row[j].name == key && LastOfItsName(row, j)
    decreases |row| - i
  {
    if LastOfItsName(row, i) {
      j := i;
    } else {
      var k: nat :| i < k < |row| && row[k].name == row[i].name;
      j := LastColumn(row, key, k);
    }
  }

  /** No other table does. */
  lemma HoldsRowOnce(row: RawRow, nullFlags: bool, s: LuaRow, t: LuaRow)
    requires HoldsRow(s, row, nullFlags) && HoldsRow(t, row, nullFlags)
    ensures s == t
  {
    hide LastOfItsName;
    forall key | key in s || key in t ensures key in s && key in t && s[key] == t[key] {
      var i :| 0 <= i < |row| && row[i].name == key;
      var j := LastColumn(row, key, i);
      assert HoldsCell(s, row[j], nullFlags) && HoldsCell(t, row[j], nullFlags);
    }
  }

  /** The tables of a whole result, in fetch order. */
  function Tables(rows: seq<RawRow>, nullFlags: bool): seq<LuaRow> {
    seq(|rows|, i requires 0 <= i < |rows| => RowTable(rows[i], nullFlags))
  }
}
