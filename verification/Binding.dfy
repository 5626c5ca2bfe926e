// src/actions/executestatement.h:78-139: the Lua arguments of `execute` become an array of MYSQL_BIND
// whose pointers lead into a growing deque of buffers.

module Binding {
  import opened Types

  /** The content of one buffer: the bytes of a my_bool, of a signed char, of a double, of a string, or
      of an unsigned long. */
  datatype Cell =
    | IsNull(flag: bool)
    | Tiny(c: int)
    | Double(number: LuaValue)
    | Blob(bytes: string)
    | Length(n: nat)

  datatype BindType = Unset | TinyType | DoubleType | BlobType

  /** A MYSQL_BIND. Its pointers are positions in the deque: `push_back` moves no element of a deque. */
  datatype Bind = Bind(isNull: nat, bufferType: BindType, buffer: nat, bufferLength: nat, length: nat)

  predicate IsNumber(v: LuaValue) {
    v.Number? || v.NumberOf? || v.ByteOf?
  }

  /** What `PopulateBind` accepts; it raises a type error for everything else. */
  predicate Bindable(v: LuaValue) {
    v.Nil? || v.Boolean? || v.String? || IsNumber(v)
  }

  /** The pointers lead to buffers of the types that the bind announces. */
  predicate WellFormed(b: Bind, buffers: seq<Cell>) {
    && b.isNull < |buffers| && buffers[b.isNull].IsNull?
    && (!buffers[b.isNull].flag ==>
          match b.bufferType
          case Unset => false
          case TinyType => b.buffer < |buffers| && buffers[b.buffer].Tiny?
          case DoubleType => b.buffer < |buffers| && buffers[b.buffer].Double?
          case BlobType =>
            && b.buffer < |buffers| && buffers[b.buffer].Blob?
            && b.length < |buffers| && buffers[b.length].Length?
            && buffers[b.length].n <= b.bufferLength <= |buffers[b.buffer].bytes|)
  }

  /** What the connector reads through the pointers of a parameter. */
  function Read(b: Bind, buffers: seq<Cell>): LuaValue
    requires WellFormed(b, buffers)
  {
    if buffers[b.isNull].flag then Nil
    else
      match b.bufferType
      case TinyType => Boolean(buffers[b.buffer].c != 0)
      case DoubleType => buffers[b.buffer].number
      case BlobType => String(buffers[b.buffer].bytes[..buffers[b.length].n])
  }

  /** Bind j of n: its is_null buffer is its own, and its data lies behind all of those. */
  predicate Separate(b: Bind, j: nat, n: nat, buffers: seq<Cell>) {
    && j < n <= |buffers| && b.isNull == j && WellFormed(b, buffers)
    && (!buffers[j].flag ==> n <= b.buffer)
    && (!buffers[j].flag && b.bufferType == BlobType ==> n <= b.length)
  }

  /** Writing the is_null buffer of another parameter and appending buffers disturbs no bind. */
  lemma OthersUndisturbed(b: Bind, j: nat, k: nat, n: nat, before: seq<Cell>, after: seq<Cell>)
    requires Separate(b, j, n, before) && k < n && k != j && |before| <= |after|
    requires forall p :: 0 <= p < |before| && p != k ==> after[p] == before[p]
    ensures Separate(b, j, n, after) && Read(b, after) == Read(b, before)
  {
  }

  /** The value meant for parameter k: missing arguments are NULL, surplus ones are never looked at. */
  function Parameter(args: seq<LuaValue>, k: nat): LuaValue {
    if k < |args| then args[k] else Nil
  }

  /** Index of the first of the first n arguments that cannot be bound. */
  function FirstUnbindable(args: seq<LuaValue>, n: nat): Option<nat> {
    if args == [] || n == 0 then None
    else if !Bindable(args[0]) then Some(0)
    else
      match FirstUnbindable(args[1..], n - 1)
      case None => None
      case Some(k) => Some(k + 1)
  }

  lemma {:induction false} FirstUnbindableMeaning(args: seq<LuaValue>, n: nat, k: nat)
    requires k <= n && k <= |args|
    requires forall j :: 0 <= j < k ==> Bindable(args[j])
    ensures k < n && k < |args| && !Bindable(args[k]) ==> FirstUnbindable(args, n) == Some(k)
    ensures k == n || k == |args| ==> FirstUnbindable(args, n) == None
  {
    if k != 0 {
      forall j | 0 <= j < k - 1 ensures Bindable(args[1..][j]) {
        assert Bindable(args[j + 1]);
      }
      FirstUnbindableMeaning(args[1..], n - 1, k - 1);
    }
  }

  /** What binding a value has put behind the pointers of a parameter: a set flag for nil, a signed char for
      a boolean, a double for a number, the bytes with their length for a string. */
  predicate Stored(b: Bind, buffers: seq<Cell>, v: LuaValue) {
    && b.isNull < |buffers| && buffers[b.isNull] == IsNull(v.Nil?)
    && match v
       case Nil => true
       case Boolean(t) =>
         b.bufferType == TinyType && b.buffer < |buffers| && buffers[b.buffer] == Tiny(if t then 1 else 0)
       case Number(_) | NumberOf(_) | ByteOf(_) =>
         b.bufferType == DoubleType && b.buffer < |buffers| && buffers[b.buffer] == Double(v)
       case String(s) =>
         && b.bufferType == BlobType && b.buffer < |buffers| && buffers[b.buffer] == Blob(s) && b.bufferLength == |s|
         && b.length < |buffers| && buffers[b.length] == Length(|s|)
       case Object => false
  }

  /** The members `arguments` and `buffers` of an `ExecuteStatementAction`. */
  class StatementArguments {
    const arguments: array<Bind>
    var buffers: seq<Cell>

    /** Each parameter has its own is_null buffer, ahead of all data. */
    ghost predicate Valid()
      reads this, arguments
    {
      && arguments.Length <= |buffers|
      && forall k :: 0 <= k < arguments.Length ==> Separate(arguments[k], k, arguments.Length, buffers)
    }

    ghost function Value(k: nat): LuaValue
      requires Valid() && k < arguments.Length
      reads this, arguments
    {
      Read(arguments[k], buffers)
    }

    /** `arguments.resize(n)`, and a set is_null buffer for each: all parameters are NULL. */
    constructor (n: nat)
      ensures Valid() && fresh(arguments) && arguments.Length == n
      ensures forall k :: 0 <= k < n ==> Value(k) == Nil
    {
      arguments := new Bind[n](_ => Bind(0, Unset, 0, 0, 0));
      buffers := [];
      new;
      var k := 0;
      while k < n
        invariant 0 <= k <= n && |buffers| == k
        invariant forall j :: 0 <= j < k ==> arguments[j] == Bind(j, Unset, 0, 0, 0) && buffers[j] == IsNull(true)
      {
        var isNull := CreateBuffer(IsNull(true));
        arguments[k] := Bind(isNull, Unset, 0, 0, 0);
        k := k + 1;
      }
    }

    method CreateBuffer(data: Cell) returns (p: nat)
      modifies this`buffers
      ensures p == old(|buffers|) && buffers == old(buffers) + [data]
    {
      buffers := buffers + [data];
      p := |buffers| - 1;
    }

    /** One argument: every type of value but an object of another kind is accepted. No other parameter reads
        differently afterwards, although buffers were appended and one written through a pointer; a type
        error changes nothing. */
    method PopulateBind(k: nat, v: LuaValue) returns (typeError: bool)
      requires Valid() && k < arguments.Length
      modifies this`buffers, arguments
      ensures Valid() && typeError == !Bindable(v)
      ensures typeError <==> v.Object?
      ensures !typeError ==> Value(k) == v && Stored(arguments[k], buffers, v)
      ensures forall j :: 0 <= j < arguments.Length && (j != k || typeError) ==> Value(j) == old(Value(j))
    {
      hide WellFormed, Read;
      typeError := !Bindable(v);
      if !typeError {
        assert Separate(arguments[k], k, arguments.Length, buffers);
        Store(k, v);
        forall j | 0 <= j < arguments.Length && j != k
          ensures Separate(arguments[j], j, arguments.Length, buffers)
          ensures Read(arguments[j], buffers) == old(Read(arguments[j], buffers))
        {
          OthersUndisturbed(arguments[j], j, k, arguments.Length, old(buffers), buffers);
        }
      }
    }

    method Store(k: nat, v: LuaValue)
      requires k < arguments.Length && Separate(arguments[k], k, arguments.Length, buffers) && Bindable(v)
      modifies this`buffers, arguments
      ensures Separate(arguments[k], k, arguments.Length, buffers) && Read(arguments[k], buffers) == v
      ensures Stored(arguments[k], buffers, v)
      ensures |old(buffers)| <= |buffers|
      ensures forall p :: 0 <= p < |old(buffers)| && p != k ==> buffers[p] == old(buffers[p])
      ensures forall j :: 0 <= j < arguments.Length && j != k ==> arguments[j] == old(arguments[j])
    {
      buffers := buffers[arguments[k].isNull := IsNull(v.Nil?)];
      if v.Boolean? {
        var p := CreateBuffer(Tiny(if v.b then 1 else 0));
        arguments[k] := arguments[k].(bufferType := TinyType, buffer := p);
      } else if IsNumber(v) {
        var p := CreateBuffer(Double(v));
        arguments[k] := arguments[k].(bufferType := DoubleType, buffer := p);
      } else if v.String? {
        var p := CreateBuffer(Blob(v.s));
        var q := CreateBuffer(Length(|v.s|));
        arguments[k] := arguments[k].(bufferType := BlobType, buffer := p, bufferLength := |v.s|, length := q);
      }
    }

    /** The loop of the constructor: reading the finished array back through its pointers gives the
        arguments, cut or filled with NULLs to the parameter count; or else the first argument that
        cannot be bound raises a type error. */
    method PopulateAll(args: seq<LuaValue>) returns (typeError: Option<nat>)
      requires Valid() && forall k :: 0 <= k < arguments.Length ==> Value(k) == Nil
      modifies this`buffers, arguments
      ensures Valid() && typeError == FirstUnbindable(args, arguments.Length)
      ensures typeError.None? ==> forall k :: 0 <= k < arguments.Length ==> Value(k) == Parameter(args, k)
      ensures typeError.None? ==> forall k :: 0 <= k < arguments.Length ==>
                Value(k) == if k < |args| then args[k] else Nil
      ensures typeError.None? <==> forall k :: 0 <= k < arguments.Length && k < |args| ==> !args[k].Object?
      ensures typeError.Some? ==> typeError.value < arguments.Length && typeError.value < |args|
                                  && args[typeError.value].Object?
    {
      BindsExactly(args, arguments.Length);
      var i := 0;
      while i < |args| && i < arguments.Length
        invariant 0 <= i <= |args| && i <= arguments.Length && Valid()
        invariant forall k :: 0 <= k < i ==> Bindable(args[k])
        invariant forall k :: 0 <= k < arguments.Length ==> Value(k) == if k < i then args[k] else Nil
      {
        var bad := PopulateBind(i, args[i]);
        if bad {
          FirstUnbindableMeaning(args, arguments.Length, i);
          return Some(i);
        }
        i := i + 1;
      }
      FirstUnbindableMeaning(args, arguments.Length, i);
      typeError := None;
    }
  }

  /** `execute` binds its arguments if and only if none of the first n is an object: nil, booleans, numbers
      and strings are accepted. */
  lemma BindsExactly(args: seq<LuaValue>, n: nat)
    ensures FirstUnbindable(args, n).None? <==> forall k :: 0 <= k < n && k < |args| ==> !args[k].Object?
  {
    AllBindable(args, n);
    if FirstUnbindable(args, n).Some? {
      var k :| 0 <= k < n && k < |args| && !Bindable(args[k]);
      assert args[k].Object?;
    }
  }

  lemma {:induction false} AllBindable(args: seq<LuaValue>, n: nat)
    ensures FirstUnbindable(args, n).None? <==> forall k :: 0 <= k < n && k < |args| ==> Bindable(args[k])
  {
    if args != [] && n != 0 && Bindable(args[0]) {
      AllBindable(args[1..], n - 1);
      if FirstUnbindable(args, n).None? {
        forall k | 0 <= k < n && k < |args| ensures Bindable(args[k]) {
          assert k > 0 ==> Bindable(args[1..][k - 1]);
        }
      } else {
        var k :| 0 <= k < n - 1 && k < |args[1..]| && !Bindable(args[1..][k]);
        assert !Bindable(args[k + 1]);
      }
    }
  }
}
