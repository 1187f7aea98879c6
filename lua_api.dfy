// An abstract Lua 5.4 state: the value stack, the table heap and the globals,
// with the few C API primitives the marshalling layer calls.  Indices follow
// section 4.1 ("The Stack") of the Lua 5.4 Reference Manual: a positive index
// counts from the bottom (1 is the oldest slot), a negative one from the top
// (-1 is the newest slot).

module LuaApi {

  type Byte = b: int | 0 <= b < 256
  type Bytes = seq<Byte>

  const MinInteger: int := -0x8000_0000_0000_0000
  const MaxInteger: int := 0x7FFF_FFFF_FFFF_FFFF

  /** lua_Integer: a 64-bit two's complement integer. */
  type LuaInteger = i: int | MinInteger <= i <= MaxInteger

  /** lua_Number, kept opaque: no floating-point arithmetic is modelled.
      FromInteger(i) is the float that lua_tonumberx makes of the integer i. */
  datatype Number = Float(token: nat) | FromInteger(i: int)

  /** The value in one stack slot.  CFunc carries the C function pointer
      (0 is NULL); TableRef points into the table heap; Other stands for
      userdata and threads. */
  datatype LuaValue =
    | Nil
    | Bool(b: bool)
    | Int(i: LuaInteger)
    | Num(n: Number)
    | Str(s: Bytes)
    | CFunc(ptr: nat)
    | LuaFunc(id: nat)
    | TableRef(id: nat)
    | Other(id: nat)

  /** What lua_type reports for a slot. */
  datatype LuaType = TypeNil | TypeBoolean | TypeNumber | TypeString | TypeFunction | TypeTable | TypeOther

  function TypeOf(v: LuaValue): LuaType
  {
    match v
    case Nil => TypeNil
    case Bool(_) => TypeBoolean
    case Int(_) => TypeNumber
    case Num(_) => TypeNumber
    case Str(_) => TypeString
    case CFunc(_) => TypeFunction
    case LuaFunc(_) => TypeFunction
    case TableRef(_) => TypeTable
    case Other(_) => TypeOther
  }

  /** Lua truthiness (section 2.1 of the manual): only nil and false are false. */
  predicate Truthy(v: LuaValue)
  {
    !(v.Nil? || v == Bool(false))
  }

  /** An index that addresses a live slot of a stack holding n slots. */
  predicate ValidIndex(n: nat, idx: int)
  {
    1 <= idx <= n || -(n as int) <= idx <= -1
  }

  /** The absolute (1-based) position an index denotes. */
  function AbsIndex(n: nat, idx: int): (a: nat)
    requires ValidIndex(n, idx)
    ensures 1 <= a <= n
    ensures idx > 0 ==> a == idx
    ensures idx < 0 ==> n - a == -idx - 1
  {
    if idx > 0 then idx else n + 1 + idx
  }

  function Slot(s: seq<LuaValue>, idx: int): LuaValue
    requires ValidIndex(|s|, idx)
  {
    s[AbsIndex(|s|, idx) - 1]
  }

  /** Pushing slots leaves every absolute index where it was and moves every
      relative index down by the number of slots pushed. */
  lemma {:induction false} SlotAfterPush(s: seq<LuaValue>, t: seq<LuaValue>, idx: int)
    requires ValidIndex(|s|, idx)
    ensures ValidIndex(|s + t|, if idx > 0 then idx else idx - |t|)
    ensures Slot(s + t, if idx > 0 then idx else idx - |t|) == Slot(s, idx)
  {
  }

  /** Status codes of lua_pcall. */
  datatype Status = LuaOk | ErrRun | ErrMem | ErrErr

  /** The part of the Lua state other than the stack: table contents, the
      next fresh table id and the globals.  A called function may change
      all of it. */
  datatype Heap = Heap(tables: map<nat, TableData>, globals: map<Bytes, LuaValue>, nextTable: nat)

  /** What the called function did, supplied from outside: the Lua virtual
      machine itself is not part of this model.  Either way the call leaves
      the heap it ends with; lua_pcall does not undo changes on an error. */
  datatype CallOutcome =
    | Returned(values: seq<LuaValue>, heap: Heap)
    | Raised(status: Status, error: LuaValue, heap: Heap)

  /** The results of a call adjusted to n of them: extra ones are dropped,
      missing ones are nil. */
  function Adjust(vs: seq<LuaValue>, n: nat): (r: seq<LuaValue>)
    ensures |r| == n
    ensures forall i :: 0 <= i < n ==> r[i] == (if i < |vs| then vs[i] else Nil)
  {
    if n == 0 then []
    else if vs == [] then Adjust([], n - 1) + [Nil]
    else [vs[0]] + Adjust(vs[1..], n - 1)
  }

  type TableData = map<LuaValue, LuaValue>

  /** t[k] = v: assigning nil removes the key. */
  function Store(t: TableData, k: LuaValue, v: LuaValue): (r: TableData)
    ensures k !in r <==> v == Nil
    ensures k in r ==> r[k] == v
    ensures forall j :: j != k ==> (j in r <==> j in t)
    ensures forall j :: j != k && j in t ==> r[j] == t[j]
  {
    if v == Nil then t - {k} else t[k := v]
  }

  /** t[k], nil when absent. */
  function Get(t: TableData, k: LuaValue): LuaValue
  {
    if k in t then t[k] else Nil
  }

  predicate RefOk(tables: map<nat, TableData>, v: LuaValue)
  {
    v.TableRef? ==> v.id in tables
  }

  /** Keys and values stored in t refer only to allocated tables. */
  predicate TableOk(tables: map<nat, TableData>, t: TableData)
  {
    forall k :: k in t ==> RefOk(tables, k) && RefOk(tables, t[k])
  }

  /** The whole observable state of a lua_State, as a value. */
  datatype Machine = Machine(
    stack: seq<LuaValue>,
    tables: map<nat, TableData>,
    globals: map<Bytes, LuaValue>,
    nextTable: nat)
  {
    /** Every table reference that can be reached names an allocated table,
        and every allocated table id is below the next fresh one. */
    predicate Wf()
    {
      && (forall id :: id in tables ==> id < nextTable)
      && (forall i :: 0 <= i < |stack| ==> RefOk(tables, stack[i]))
      && (forall n :: n in globals ==> RefOk(tables, globals[n]))
      && (forall id :: id in tables ==> TableOk(tables, tables[id]))
    }

    predicate IsTableAt(idx: int)
    {
      ValidIndex(|stack|, idx) && Slot(stack, idx).TableRef?
    }

    /** The contents of the table the slot idx refers to. */
    function TableAt(idx: int): TableData
      requires Wf() && IsTableAt(idx)
    {
      tables[Slot(stack, idx).id]
    }

    /** Pushes the given slots in order (lua_push* one at a time). */
    function Push(vs: seq<LuaValue>): (m: Machine)
      ensures m.stack == stack + vs
      ensures Wf() && (forall i :: 0 <= i < |vs| ==> RefOk(tables, vs[i])) ==> m.Wf()
    {
      this.(stack := stack + vs)
    }

    /** lua_pop(L, n). */
    function Pop(n: nat): (m: Machine)
      requires n <= |stack|
      ensures |m.stack| == |stack| - n
      ensures Wf() ==> m.Wf()
    {
      this.(stack := stack[..|stack| - n])
    }

    /** lua_settop(L, idx): a non-negative idx is the new height (new slots
        are nil), a negative one is resolved like any relative index. */
    function SetTop(idx: int): (m: Machine)
      requires idx >= 0 || |stack| + idx + 1 >= 0
      ensures |m.stack| == if idx >= 0 then idx else |stack| + idx + 1
      ensures Wf() ==> m.Wf()
    {
      var n := if idx >= 0 then idx else |stack| + idx + 1;
      if n <= |stack| then this.(stack := stack[..n])
      else this.(stack := stack + seq(n - |stack|, _ => Nil))
    }

    /** lua_pushvalue(L, idx). */
    function PushValue(idx: int): (m: Machine)
      requires ValidIndex(|stack|, idx)
      ensures Wf() ==> m.Wf()
    {
      Push([Slot(stack, idx)])
    }

    /** lua_settable(L, idx): t[k] = v with v on the top and k just below it;
        both are popped.  The index is resolved while k and v are still on
        the stack.  A nil key is an error in Lua. */
    predicate CanSetTable(idx: int)
    {
      Wf() && |stack| >= 2 && IsTableAt(idx) && stack[|stack| - 2] != Nil
    }

    function SetTable(idx: int): (m: Machine)
      requires CanSetTable(idx)
      ensures m.Wf()
    {
      var n := |stack|;
      var id := Slot(stack, idx).id;
      StoreKeepsWf(this, id, stack[n - 2], stack[n - 1], stack[..n - 2]);
      Machine(stack[..n - 2], tables[id := Store(tables[id], stack[n - 2], stack[n - 1])], globals, nextTable)
    }

    /** lua_gettable(L, idx): replaces the key on the top by t[key]. */
    predicate CanGetTable(idx: int)
    {
      Wf() && |stack| >= 1 && IsTableAt(idx)
    }

    function GetTable(idx: int): (m: Machine)
      requires CanGetTable(idx)
      ensures m.Wf()
      ensures |m.stack| == |stack| && m.tables == tables
    {
      var n := |stack|;
      this.(stack := stack[..n - 1] + [Get(TableAt(idx), stack[n - 1])])
    }

    /** lua_setfield(L, idx, k): t[k] = v with v on the top, which is popped. */
    predicate CanSetField(idx: int)
    {
      Wf() && |stack| >= 1 && IsTableAt(idx)
    }

    function SetField(idx: int, k: Bytes): (m: Machine)
      requires CanSetField(idx)
      ensures m.Wf()
    {
      var n := |stack|;
      var id := Slot(stack, idx).id;
      StoreKeepsWf(this, id, Str(k), stack[n - 1], stack[..n - 1]);
      Machine(stack[..n - 1], tables[id := Store(tables[id], Str(k), stack[n - 1])], globals, nextTable)
    }

    /** lua_getfield(L, idx, k): pushes t[k]. */
    function GetField(idx: int, k: Bytes): (m: Machine)
      requires Wf() && IsTableAt(idx)
      ensures m.Wf()
    {
      Push([Get(TableAt(idx), Str(k))])
    }

    /** lua_createtable: pushes a new empty table. */
    function CreateTable(): (m: Machine)
      ensures Wf() ==> m.Wf()
    {
      Machine(stack + [TableRef(nextTable)], tables[nextTable := map[]], globals, nextTable + 1)
    }

    /** lua_getglobal(L, name): pushes the global, nil when unset. */
    function GetGlobal(name: Bytes): (m: Machine)
      ensures Wf() ==> m.Wf()
    {
      Push([if name in globals then globals[name] else Nil])
    }

    /** lua_setglobal(L, name): pops the top and stores it as the global. */
    function SetGlobal(name: Bytes): (m: Machine)
      requires |stack| >= 1
      ensures Wf() ==> m.Wf()
    {
      var n := |stack|;
      var v := stack[n - 1];
      this.(stack := stack[..n - 1],
            globals := if v == Nil then globals - {name} else globals[name := v])
    }

    /** What a call may hand back: a well-formed heap in which no table of
        this state has disappeared (the caller's stack still refers to them)
        and table ids are still fresh; table references it returns exist in
        that heap, and an error status is never LUA_OK. */
    predicate OutcomeOk(outcome: CallOutcome)
    {
      var h := outcome.heap;
      && nextTable <= h.nextTable
      && (forall id :: id in tables ==> id in h.tables)
      && Machine([], h.tables, h.globals, h.nextTable).Wf()
      && match outcome
         case Returned(vs, _) => forall i :: 0 <= i < |vs| ==> RefOk(h.tables, vs[i])
         case Raised(st, e, _) => st != LuaOk && RefOk(h.tables, e)
    }

    /** lua_pcall(L, nargs, nresults, msgh): the function and its nargs
        arguments are replaced by exactly nresults results, or by the error
        object, and the heap is the one the call left. */
    function PCall(nargs: nat, nresults: nat, outcome: CallOutcome): (m: Machine)
      requires nargs + 1 <= |stack|
      requires OutcomeOk(outcome)
      ensures |stack| - nargs - 1 <= |m.stack| && m.stack[..|stack| - nargs - 1] == stack[..|stack| - nargs - 1]
      ensures nextTable <= m.nextTable && forall id :: id in tables ==> id in m.tables
      ensures Wf() ==> m.Wf()
    {
      var base := stack[..|stack| - nargs - 1];
      var h := outcome.heap;
      var top := match outcome
        case Returned(vs, _) => Adjust(vs, nresults)
        case Raised(_, e, _) => [e];
      assert (base + top)[..|base|] == base;
      Machine(base + top, h.tables, h.globals, h.nextTable)
    }
  }

  function PCallStatus(outcome: CallOutcome): Status
  {
    match outcome
    case Returned(_, _) => LuaOk
    case Raised(st, _, _) => st
  }

  /** The lua_State.  Every primitive is specified by the matching member
      function of Machine applied to the state before the call. */
  class LuaState {
    var stack: seq<LuaValue>
    var tables: map<nat, TableData>
    var globals: map<Bytes, LuaValue>
    var nextTable: nat

    function Snapshot(): Machine
      reads this
    {
      Machine(stack, tables, globals, nextTable)
    }

    ghost predicate Valid()
      reads this
    {
      Snapshot().Wf()
    }

    constructor ()
      ensures Valid() && stack == [] && tables == map[] && globals == map[]
    {
      stack, tables, globals, nextTable := [], map[], map[], 0;
    }

    method SetState(m: Machine)
      modifies this
      ensures Snapshot() == m
    {
      stack, tables, globals, nextTable := m.stack, m.tables, m.globals, m.nextTable;
    }

    /** lua_gettop. */
    method GetTop() returns (n: nat)
      ensures n == |stack|
    {
      n := |stack|;
    }

    /** lua_pushnil, lua_pushboolean, lua_pushinteger, lua_pushnumber,
        lua_pushlstring, lua_pushcfunction: push one slot. */
    method Push(v: LuaValue)
      requires Valid() && RefOk(tables, v)
      modifies this
      ensures Valid()
      ensures Snapshot() == old(Snapshot()).Push([v])
    {
      SetState(Snapshot().Push([v]));
    }

    method Pop(n: nat)
      requires Valid() && n <= |stack|
      modifies this
      ensures Valid()
      ensures Snapshot() == old(Snapshot()).Pop(n)
    {
      SetState(Snapshot().Pop(n));
    }

    method SetTop(idx: int)
      requires Valid() && (idx >= 0 || |stack| + idx + 1 >= 0)
      modifies this
      ensures Valid()
      ensures Snapshot() == old(Snapshot()).SetTop(idx)
    {
      SetState(Snapshot().SetTop(idx));
    }

    method PushValue(idx: int)
      requires Valid() && ValidIndex(|stack|, idx)
      modifies this
      ensures Valid()
      ensures Snapshot() == old(Snapshot()).PushValue(idx)
    {
      SetState(Snapshot().PushValue(idx));
    }

    method SetTable(idx: int)
      requires Snapshot().CanSetTable(idx)
      modifies this
      ensures Valid()
      ensures Snapshot() == old(Snapshot()).SetTable(idx)
    {
      SetState(Snapshot().SetTable(idx));
    }

    method GetTable(idx: int)
      requires Snapshot().CanGetTable(idx)
      modifies this
      ensures Valid()
      ensures Snapshot() == old(Snapshot()).GetTable(idx)
    {
      SetState(Snapshot().GetTable(idx));
    }

    method SetField(idx: int, k: Bytes)
      requires Snapshot().CanSetField(idx)
      modifies this
      ensures Valid()
      ensures Snapshot() == old(Snapshot()).SetField(idx, k)
    {
      SetState(Snapshot().SetField(idx, k));
    }

    method GetField(idx: int, k: Bytes)
      requires Valid() && Snapshot().IsTableAt(idx)
      modifies this
      ensures Valid()
      ensures Snapshot() == old(Snapshot()).GetField(idx, k)
    {
      SetState(Snapshot().GetField(idx, k));
    }

    method CreateTable()
      requires Valid()
      modifies this
      ensures Valid()
      ensures Snapshot() == old(Snapshot()).CreateTable()
    {
      SetState(Snapshot().CreateTable());
    }

    method GetGlobal(name: Bytes)
      requires Valid()
      modifies this
      ensures Valid()
      ensures Snapshot() == old(Snapshot()).GetGlobal(name)
    {
      SetState(Snapshot().GetGlobal(name));
    }

    method SetGlobal(name: Bytes)
      requires Valid() && |stack| >= 1
      modifies this
      ensures Valid()
      ensures Snapshot() == old(Snapshot()).SetGlobal(name)
    {
      SetState(Snapshot().SetGlobal(name));
    }

    /** lua_pcall with message handler msgh (0: none).  The callee's own
        effects on tables and globals are not modelled. */
    method PCall(nargs: nat, nresults: nat, msgh: int, outcome: CallOutcome) returns (status: Status)
      requires Valid() && nargs + 1 <= |stack| && Snapshot().OutcomeOk(outcome)
      requires msgh == 0 || ValidIndex(|stack|, msgh)
      modifies this
      ensures Valid()
      ensures Snapshot() == old(Snapshot()).PCall(nargs, nresults, outcome)
      ensures status == PCallStatus(outcome)
    {
      SetState(Snapshot().PCall(nargs, nresults, outcome));
      status := PCallStatus(outcome);
    }

    /** lua_toboolean. */
    method ToBoolean(idx: int) returns (b: bool)
      requires ValidIndex(|stack|, idx)
      ensures b <==> Truthy(Slot(stack, idx))
    {
      b := Truthy(Slot(stack, idx));
    }

    /** lua_tointegerx: the integer and the isnum flag; 0 when it is not an
        integer.  String and float coercions are not modelled. */
    method ToIntegerX(idx: int) returns (i: LuaInteger, isnum: bool)
      requires ValidIndex(|stack|, idx)
      ensures isnum <==> Slot(stack, idx).Int?
      ensures i == if isnum then Slot(stack, idx).i else 0
    {
      var v := Slot(stack, idx);
      if v.Int? { i, isnum := v.i, true; } else { i, isnum := 0, false; }
    }

    /** lua_tonumberx: integers are converted to floats; 0 when it is not a
        number.  String coercion is not modelled. */
    method ToNumberX(idx: int) returns (n: Number, isnum: bool)
      requires ValidIndex(|stack|, idx)
      ensures isnum <==> TypeOf(Slot(stack, idx)) == TypeNumber
      ensures Slot(stack, idx).Num? ==> n == Slot(stack, idx).n
      ensures Slot(stack, idx).Int? ==> n == FromInteger(Slot(stack, idx).i)
      ensures !isnum ==> n == FromInteger(0)
    {
      var v := Slot(stack, idx);
      match v
      case Num(x) => n, isnum := x, true;
      case Int(x) => n, isnum := FromInteger(x), true;
      case _ => n, isnum := FromInteger(0), false;
    }

    /** lua_tolstring: the bytes of a string slot; ok is false where the C
        function returns NULL.  Number-to-string coercion is not modelled. */
    method ToLString(idx: int) returns (ok: bool, s: Bytes)
      requires ValidIndex(|stack|, idx)
      ensures ok <==> Slot(stack, idx).Str?
      ensures ok ==> s == Slot(stack, idx).s
    {
      var v := Slot(stack, idx);
      if v.Str? { ok, s := true, v.s; } else { ok, s := false, []; }
    }

    /** lua_tocfunction: the C function pointer, 0 (NULL) for any other slot. */
    method ToCFunction(idx: int) returns (f: nat)
      requires ValidIndex(|stack|, idx)
      ensures Slot(stack, idx).CFunc? ==> f == Slot(stack, idx).ptr
      ensures !Slot(stack, idx).CFunc? ==> f == 0
    {
      var v := Slot(stack, idx);
      f := if v.CFunc? then v.ptr else 0;
    }
  }

  /** Storing an allocated key and value into an allocated table keeps the
      heap closed. */
  lemma StoreKeepsWf(m: Machine, id: nat, k: LuaValue, v: LuaValue, s: seq<LuaValue>)
    requires m.Wf() && id in m.tables && RefOk(m.tables, k) && RefOk(m.tables, v)
    requires forall i :: 0 <= i < |s| ==> RefOk(m.tables, s[i])
    ensures Machine(s, m.tables[id := Store(m.tables[id], k, v)], m.globals, m.nextTable).Wf()
  {
    var t := m.tables[id := Store(m.tables[id], k, v)];
    assert t.Keys == m.tables.Keys;
    forall j | j in t
      ensures TableOk(t, t[j])
    {
      assert TableOk(m.tables, m.tables[j]);
    }
  }

  /** lua_createtable pushes a table that no other reference can reach. */
  lemma CreateTableIsFresh(m: Machine)
    requires m.Wf()
    ensures m.CreateTable().stack == m.stack + [TableRef(m.nextTable)]
    ensures m.nextTable !in m.tables
    ensures forall i :: 0 <= i < |m.stack| ==> m.stack[i] != TableRef(m.nextTable)
    ensures m.CreateTable().tables[m.nextTable] == map[]
  {
    forall i | 0 <= i < |m.stack|
      ensures m.stack[i] != TableRef(m.nextTable)
    {
      assert RefOk(m.tables, m.stack[i]);
    }
  }

  /** Reading a key back after storing it gives the stored value (nil when
      nil was stored), and no other key changes. */
  lemma StoreThenGet(t: TableData, k: LuaValue, v: LuaValue)
    ensures Get(Store(t, k, v), k) == v
    ensures forall j :: j != k ==> Get(Store(t, k, v), j) == Get(t, j)
  {
  }

  /** lua_settable: both slots are popped, the table named by idx (resolved
      with both still on the stack) maps the key slot to the value slot, and
      nothing else in the heap or the globals changes. */
  lemma SetTableStores(m: Machine, idx: int)
    requires m.CanSetTable(idx)
    ensures var n := |m.stack|;
      var id := Slot(m.stack, idx).id;
      var m' := m.SetTable(idx);
      && m'.stack == m.stack[..n - 2] && m'.globals == m.globals && m'.nextTable == m.nextTable
      && id in m.tables && id in m'.tables
      && m'.tables == m.tables[id := Store(m.tables[id], m.stack[n - 2], m.stack[n - 1])]
      && Get(m'.tables[id], m.stack[n - 2]) == m.stack[n - 1]
      && (forall j :: j != m.stack[n - 2] ==> Get(m'.tables[id], j) == Get(m.tables[id], j))
      && (forall i :: i in m.tables && i != id ==> i in m'.tables && m'.tables[i] == m.tables[i])
  {
    var n := |m.stack|;
    StoreThenGet(m.tables[Slot(m.stack, idx).id], m.stack[n - 2], m.stack[n - 1]);
  }

  /** lua_setfield: the value slot is popped and stored under the string key. */
  lemma SetFieldStores(m: Machine, idx: int, k: Bytes)
    requires m.CanSetField(idx)
    ensures var n := |m.stack|;
      var id := Slot(m.stack, idx).id;
      var m' := m.SetField(idx, k);
      && m'.stack == m.stack[..n - 1] && m'.globals == m.globals && m'.nextTable == m.nextTable
      && id in m.tables && id in m'.tables
      && m'.tables == m.tables[id := Store(m.tables[id], Str(k), m.stack[n - 1])]
      && Get(m'.tables[id], Str(k)) == m.stack[n - 1]
      && (forall j :: j != Str(k) ==> Get(m'.tables[id], j) == Get(m.tables[id], j))
      && (forall i :: i in m.tables && i != id ==> i in m'.tables && m'.tables[i] == m.tables[i])
  {
    var n := |m.stack|;
    StoreThenGet(m.tables[Slot(m.stack, idx).id], Str(k), m.stack[n - 1]);
  }

  /** lua_gettable replaces the key on the top by what the table maps it to. */
  lemma GetTableReads(m: Machine, idx: int)
    requires m.CanGetTable(idx)
    ensures var n := |m.stack|;
      && m.GetTable(idx).stack == m.stack[..n - 1] + [Get(m.TableAt(idx), m.stack[n - 1])]
      && m.GetTable(idx).tables == m.tables && m.GetTable(idx).globals == m.globals
  {
  }
}
