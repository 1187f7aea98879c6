// hklua/table.h, the handle itself: CreateTable, StackConv(Table&),
// StackPush(Table) and TableGuard.  The field operations are in TableFields.
// A Table is a non-owning {env, index} pair that the C++ code copies freely,
// so it is the value type Values.Table; its destructor is empty and touches
// nothing.  Where a Table variable is shared (TableGuard's reference,
// Proxy's pointer) it is a TableObject whose handle StackConv rebinds.

module TableHandle {
  import opened LuaApi
  import opened Values

  /** CreateTable(env, narr, nrec): lua_createtable, then the handle's index
      is set to lua_gettop.  narr and nrec are only size hints. */
  method CreateTable(env: LuaState, narr: int, nrec: int) returns (tb: Table)
    requires env.Valid()
    modifies env
    ensures env.Valid()
    ensures env.Snapshot() == old(env.Snapshot()).CreateTable()
    ensures tb == Table(env, |env.stack|)
  {
    tb := Table(env, -1);
    env.CreateTable();
    var top := env.GetTop();
    tb := tb.(index := top);
  }

  /** CreateTable adds exactly one slot, a table that nothing referred to
      before and that is empty, and the handle addresses it by its absolute
      position. */
  lemma {:induction false} CreateTableHandle(m: Machine, env: LuaState)
    requires m.Wf()
    ensures var m' := m.CreateTable();
      && |m'.stack| == |m.stack| + 1
      && m'.stack[..|m.stack|] == m.stack
      && m'.Wf()
      && m'.IsTableAt(|m'.stack|)
      && m'.TableAt(|m'.stack|) == map[]
      && (forall i :: 0 <= i < |m.stack| ==> m.stack[i] != m'.stack[|m.stack|])
      && (forall id :: id in m.tables ==> id in m'.tables && m'.tables[id] == m.tables[id])
  {
    CreateTableIsFresh(m);
    var m' := m.CreateTable();
    assert Slot(m'.stack, |m'.stack|) == TableRef(m.nextTable);
  }

  /** StackConv(env, index, Table&): false and the handle untouched unless
      the slot is a table; otherwise the handle becomes (env, index) with the
      index exactly as given, so a relative index stays relative. */
  method ConvTable(env: LuaState, index: int, tb: Table) returns (tb': Table, ok: bool)
    requires ValidIndex(|env.stack|, index)
    ensures ok <==> Slot(env.stack, index).TableRef?
    ensures tb' == if ok then Table(env, index) else tb
  {
    var isTable := TypeOf(Slot(env.stack, index)) == TypeTable;
    if !isTable {
      return tb, false;
    }
    tb' := Table(env, index);
    ok := true;
  }

  /** StackPush(env, Table): an unset handle (index 0) pushes nothing,
      otherwise lua_pushvalue duplicates the slot the handle addresses. */
  method PushTable(env: LuaState, tb: Table)
    requires env.Valid() && CanPushTable(env.stack, tb)
    modifies env
    ensures env.Valid()
    ensures env.Snapshot() == old(env.Snapshot()).Push(TableSlots(old(env.stack), tb))
    ensures tb.index != 0 ==> |env.stack| == |old(env.stack)| + 1 && env.stack[|env.stack| - 1] == Slot(old(env.stack), tb.index)
  {
    if tb.index == 0 {
      assert TableSlots(env.stack, tb) == [];
      assert env.Snapshot().Push([]) == env.Snapshot();
      return;
    }
    env.PushValue(tb.index);
  }

  /** A Table variable.  C++ code refers to one by reference (TableGuard) or
      by pointer (Table::Proxy), and StackConv(Table&) rebinds it in place,
      so whoever holds the reference sees the new handle. */
  class TableObject {
    var handle: Table

    constructor (handle: Table)
      ensures this.handle == handle
    {
      this.handle := handle;
    }

    /** StackConv(env, index, *this). */
    method Conv(env: LuaState, index: int) returns (ok: bool)
      requires ValidIndex(|env.stack|, index)
      modifies this
      ensures ok <==> Slot(env.stack, index).TableRef?
      ensures handle == if ok then Table(env, index) else old(handle)
    {
      handle, ok := ConvTable(env, index, handle);
    }
  }

  /** TableGuard: keeps a reference to a Table variable and, when it goes out
      of scope, pops one slot.  The destructor asserts that the handle the
      variable holds at that moment is the top (absolute or -1); popping an
      empty stack is not allowed by the C API. */
  class TableGuard {
    const tb: TableObject

    constructor (tb: TableObject)
      ensures this.tb == tb
    {
      this.tb := tb;
    }

    predicate CanRelease()
      reads tb, tb.handle.env
      requires tb.handle.env != null
    {
      |tb.handle.env.stack| >= 1 && (tb.handle.index == |tb.handle.env.stack| || tb.handle.index == -1)
    }

    /** ~TableGuard(). */
    method Release()
      requires tb.handle.env != null && tb.handle.env.Valid() && CanRelease()
      modifies tb.handle.env
      ensures tb.handle == old(tb.handle)
      ensures tb.handle.env.Valid()
      ensures tb.handle.env.Snapshot() == old(tb.handle.env.Snapshot()).Pop(1)
      ensures tb.handle.env.stack == old(tb.handle.env.stack[..|tb.handle.env.stack| - 1])
    {
      tb.handle.env.Pop(1);
    }
  }
}
