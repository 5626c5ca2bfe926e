// Values shared by every module: options, Lua values, promise outcomes.

module Types {
  datatype Option<+T> = None | Some(value: T)

  /** A Lua value as the module reads or builds it. `NumberOf` and `ByteOf` stand for the number
      that `std::atof` reads from a text column and for the first byte of a BIT column. */
  datatype LuaValue =
    | Nil
    | Boolean(b: bool)
    | Number(n: real)
    | String(s: string)
    | Object
    | NumberOf(text: string)
    | ByteOf(text: string)

  /** The table of one row: no entry holds Nil. */
  type LuaRow = map<string, LuaValue>

  /** `mysql_error` and `mysql_errno` of a connection, read together. */
  datatype Fault = Fault(message: string, errno: int)

  /** What a promise is settled with. `Success` is a resolution whose value is not a result table
      (a database, a statement, or nothing). */
  datatype Payload =
    | ResultTable(rows: seq<LuaRow>, lastInsertId: Option<nat>, affectedRows: Option<nat>)
    | Failure(fault: Fault)
    | Success

  datatype Settlement = Settlement(success: bool, data: Payload)
}
