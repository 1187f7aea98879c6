// hklua/table.h, the field module of Table: SetField / GetField with a
// generic key (push the key, then lua_settable / lua_gettable) and with a
// string key (lua_setfield / lua_getfield).  Each operation is specified by
// a function on Machine; the methods are proved against those functions and
// the lemmas say what the functions do to the stack and to the table.
//
// Which overload C++ picks: a char const* key (or a string literal) takes
// the string path; a std::string key takes the generic path unless it is a
// const lvalue, which reaches SetField(std::string const&) and so the string
// path through c_str(); every other key takes the generic path.

module TableFields {
  import opened LuaApi
  import opened Values
  import opened Dispatch

  /* ---------------------------------------------------------------------- */
  /* Specification                                                          */
  /* ---------------------------------------------------------------------- */

  /** Generic SetField(key, field): push key, push field, lua_settable. */
  predicate CanGenericSet(m: Machine, tb: Table, key: HostValue, value: HostValue)
  {
    && m.Wf()
    && CanPush(m.stack, key)
    && CanPush(PushH(m, key).stack, value)
    && PushH(PushH(m, key), value).CanSetTable(tb.index)
  }

  function GenericSet(m: Machine, tb: Table, key: HostValue, value: HostValue): (m': Machine)
    requires CanGenericSet(m, tb, key, value)
    ensures m'.Wf()
  {
    PushH(PushH(m, key), value).SetTable(tb.index)
  }

  /** SetStringField(key, field): push field, lua_setfield with the C string key. */
  predicate CanStringSet(m: Machine, tb: Table, value: HostValue)
  {
    m.Wf() && CanPush(m.stack, value) && PushH(m, value).CanSetField(tb.index)
  }

  function StringSet(m: Machine, tb: Table, key: Bytes, value: HostValue): (m': Machine)
    requires CanStringSet(m, tb, value)
    ensures m'.Wf()
  {
    PushH(m, value).SetField(tb.index, key)
  }

  /** Generic GetField(key, field): push key, lua_gettable, StackConv at -1. */
  predicate CanGenericGet(m: Machine, tb: Table, key: HostValue, field: HostValue)
  {
    && tb.env != null
    && m.Wf()
    && CanPush(m.stack, key)
    && PushH(m, key).CanGetTable(tb.index)
    && Convertible(field)
    && ConvDefined(Slot(PushH(m, key).GetTable(tb.index).stack, -1), field)
  }

  function GenericGet(m: Machine, tb: Table, key: HostValue, field: HostValue): (r: (Machine, HostValue, bool))
    requires CanGenericGet(m, tb, key, field)
    ensures r.0.Wf() && TypeOfHost(r.1) == TypeOfHost(field)
  {
    var m' := PushH(m, key).GetTable(tb.index);
    var c := Converted(tb.env, m'.stack, -1, field);
    (m', c.0, c.1)
  }

  /** GetStringField(key, field): lua_getfield, StackConv at -1. */
  predicate CanStringGet(m: Machine, tb: Table, key: Bytes, field: HostValue)
  {
    && tb.env != null
    && m.Wf()
    && m.IsTableAt(tb.index)
    && Convertible(field)
    && ConvDefined(Get(m.TableAt(tb.index), Str(key)), field)
  }

  function StringGet(m: Machine, tb: Table, key: Bytes, field: HostValue): (r: (Machine, HostValue, bool))
    requires CanStringGet(m, tb, key, field)
    ensures r.0.Wf() && TypeOfHost(r.1) == TypeOfHost(field)
  {
    var m' := m.GetField(tb.index, key);
    var c := Converted(tb.env, m'.stack, -1, field);
    (m', c.0, c.1)
  }

  /** The public SetField: a C string key takes the lua_setfield path (a NULL
      key is not allowed by lua_setfield). */
  predicate CanSetField(m: Machine, tb: Table, key: HostValue, value: HostValue)
  {
    match key
    case HCString(s) => s.CStr? && CanStringSet(m, tb, value)
    case _ => CanGenericSet(m, tb, key, value)
  }

  function FieldSet(m: Machine, tb: Table, key: HostValue, value: HostValue): (m': Machine)
    requires CanSetField(m, tb, key, value)
    ensures m'.Wf()
  {
    match key
    case HCString(s) => StringSet(m, tb, UpToNul(s.chars), value)
    case _ => GenericSet(m, tb, key, value)
  }

  /** The public GetField.  A std::string key is not accepted: the overload
      it selects, GetStringField(std::string const&, T&), forwards the
      out-parameter as an rvalue, which cannot bind to T&. */
  predicate CanGetField(m: Machine, tb: Table, key: HostValue, field: HostValue)
  {
    match key
    case HCString(s) => s.CStr? && CanStringGet(m, tb, UpToNul(s.chars), field)
    case HString(_) => false
    case _ => CanGenericGet(m, tb, key, field)
  }

  function FieldGet(m: Machine, tb: Table, key: HostValue, field: HostValue): (r: (Machine, HostValue, bool))
    requires CanGetField(m, tb, key, field)
    ensures r.0.Wf() && TypeOfHost(r.1) == TypeOfHost(field)
  {
    match key
    case HCString(s) => StringGet(m, tb, UpToNul(s.chars), field)
    case _ => GenericGet(m, tb, key, field)
  }

  /* ---------------------------------------------------------------------- */
  /* Methods                                                                */
  /* ---------------------------------------------------------------------- */

  /** Table::SetTable(): lua_settable at the handle's index. */
  method SetTable(tb: Table)
    requires tb.env != null && tb.env.Snapshot().CanSetTable(tb.index)
    modifies tb.env
    ensures tb.env.Valid()
    ensures tb.env.Snapshot() == old(tb.env.Snapshot()).SetTable(tb.index)
  {
    tb.env.SetTable(tb.index);
  }

  /** Table::GetTable(): lua_gettable at the handle's index. */
  method GetTable(tb: Table)
    requires tb.env != null && tb.env.Snapshot().CanGetTable(tb.index)
    modifies tb.env
    ensures tb.env.Valid()
    ensures tb.env.Snapshot() == old(tb.env.Snapshot()).GetTable(tb.index)
  {
    tb.env.GetTable(tb.index);
  }

  /** SetField(K&&, F&&), the generic template. */
  method GenericSetField(tb: Table, key: HostValue, value: HostValue)
    requires tb.env != null && tb.env.Valid() && CanGenericSet(tb.env.Snapshot(), tb, key, value)
    modifies tb.env
    ensures tb.env.Valid()
    ensures tb.env.Snapshot() == GenericSet(old(tb.env.Snapshot()), tb, key, value)
  {
    Push(tb.env, key);
    Push(tb.env, value);
    SetTable(tb);
  }

  /** SetStringField(char const*, T&&). */
  method SetStringField(tb: Table, key: CString, value: HostValue)
    requires tb.env != null && tb.env.Valid() && key.CStr? && CanStringSet(tb.env.Snapshot(), tb, value)
    modifies tb.env
    ensures tb.env.Valid()
    ensures tb.env.Snapshot() == StringSet(old(tb.env.Snapshot()), tb, UpToNul(key.chars), value)
  {
    Push(tb.env, value);
    tb.env.SetField(tb.index, UpToNul(key.chars));
  }

  /** SetStringField(std::string const&, T&&): through key.c_str(), so the
      key ends at its first NUL byte. */
  method SetStringFieldString(tb: Table, key: Bytes, value: HostValue)
    requires tb.env != null && tb.env.Valid() && CanStringSet(tb.env.Snapshot(), tb, value)
    modifies tb.env
    ensures tb.env.Valid()
    ensures tb.env.Snapshot() == StringSet(old(tb.env.Snapshot()), tb, UpToNul(key), value)
  {
    SetStringField(tb, CStr(key), value);
  }

  /** SetField(std::string const&, F&&): the overload a const std::string
      key selects. */
  method SetFieldConstString(tb: Table, key: Bytes, value: HostValue)
    requires tb.env != null && tb.env.Valid() && CanStringSet(tb.env.Snapshot(), tb, value)
    modifies tb.env
    ensures tb.env.Valid()
    ensures tb.env.Snapshot() == StringSet(old(tb.env.Snapshot()), tb, UpToNul(key), value)
  {
    SetStringFieldString(tb, key, value);
  }

  /** Table::SetField for every other key: SetField(char const*, F&&) for a
      C string, the generic template otherwise. */
  method SetField(tb: Table, key: HostValue, value: HostValue)
    requires tb.env != null && tb.env.Valid() && CanSetField(tb.env.Snapshot(), tb, key, value)
    modifies tb.env
    ensures tb.env.Valid()
    ensures tb.env.Snapshot() == FieldSet(old(tb.env.Snapshot()), tb, key, value)
  {
    if key.HCString? {
      SetStringField(tb, key.s, value);
    } else {
      GenericSetField(tb, key, value);
    }
  }

  /** GetField(K const&, F&), the generic template. */
  method GenericGetField(tb: Table, key: HostValue, field: HostValue) returns (field': HostValue, ok: bool)
    requires tb.env != null && tb.env.Valid() && CanGenericGet(tb.env.Snapshot(), tb, key, field)
    modifies tb.env
    ensures tb.env.Valid()
    ensures (tb.env.Snapshot(), field', ok) == GenericGet(old(tb.env.Snapshot()), tb, key, field)
  {
    Push(tb.env, key);
    GetTable(tb);
    field', ok := Conv(tb.env, -1, field);
  }

  /** GetStringField(char const*, T&). */
  method GetStringField(tb: Table, key: CString, field: HostValue) returns (field': HostValue, ok: bool)
    requires tb.env != null && tb.env.Valid() && key.CStr?
    requires CanStringGet(tb.env.Snapshot(), tb, UpToNul(key.chars), field)
    modifies tb.env
    ensures tb.env.Valid()
    ensures (tb.env.Snapshot(), field', ok) == StringGet(old(tb.env.Snapshot()), tb, UpToNul(key.chars), field)
  {
    tb.env.GetField(tb.index, UpToNul(key.chars));
    field', ok := Conv(tb.env, -1, field);
  }

  /** Table::GetField: GetField(char const*, F&) for a C string, the generic
      template otherwise. */
  method GetField(tb: Table, key: HostValue, field: HostValue) returns (field': HostValue, ok: bool)
    requires tb.env != null && tb.env.Valid() && CanGetField(tb.env.Snapshot(), tb, key, field)
    modifies tb.env
    ensures tb.env.Valid()
    ensures (tb.env.Snapshot(), field', ok) == FieldGet(old(tb.env.Snapshot()), tb, key, field)
  {
    if key.HCString? {
      field', ok := GetStringField(tb, key.s, field);
    } else {
      field', ok := GenericGetField(tb, key, field);
    }
  }

  /* ---------------------------------------------------------------------- */
  /* Properties                                                             */
  /* ---------------------------------------------------------------------- */

  /** Pushes whose slots do not depend on the stack below: no handle with a
      relative index. */
  predicate PushIndependent(h: HostValue)
  {
    match h
    case HTable(t) => t.index >= 0
    case HVariant(v) => v.VTable? ==> v.t.index >= 0
    case HVI(d, isNil) => isNil || PushIndependent(d)
    case _ => true
  }

  lemma {:induction false} PushedOnLongerStack(s: seq<LuaValue>, t: seq<LuaValue>, h: HostValue)
    requires CanPush(s, h) && PushIndependent(h)
    ensures CanPush(s + t, h) && Pushed(s + t, h) == Pushed(s, h)
  {
    match h
    case HTable(tb) =>
      if tb.index != 0 {
        SlotAfterPush(s, t, tb.index);
      }
    case HVariant(v) =>
      if v.VTable? && v.t.index != 0 {
        SlotAfterPush(s, t, v.t.index);
      }
    case HVI(d, isNil) =>
      if !isNil {
        PushedOnLongerStack(s, t, d);
      }
    case _ =>
  }

  /** Generic SetField with a key and a value that push one slot each: the
      stack is back where it was, the table now maps the key slot to the
      value slot, every other key and every other table is untouched.  The
      table is the one the handle's index names once both are pushed; for an
      absolute index that is the one it named before. */
  lemma {:induction false} GenericSetStores(m: Machine, tb: Table, key: HostValue, value: HostValue)
    requires CanGenericSet(m, tb, key, value)
    requires PushCount(key) == 1 && PushCount(value) == 1
    ensures var m2 := PushH(PushH(m, key), value);
      var k := m2.stack[|m.stack|];
      var v := m2.stack[|m.stack| + 1];
      var id := Slot(m2.stack, tb.index).id;
      var m' := GenericSet(m, tb, key, value);
      && k == Pushed(m.stack, key)[0]
      && v == Pushed(PushH(m, key).stack, value)[0]
      && m'.stack == m.stack
      && m'.globals == m.globals && m'.nextTable == m.nextTable
      && id in m.tables && id in m'.tables
      && m'.tables == m.tables[id := Store(m.tables[id], k, v)]
      && Get(m'.tables[id], k) == v
      && (forall j :: j != k ==> Get(m'.tables[id], j) == Get(m.tables[id], j))
      && (forall i :: i in m.tables && i != id ==> i in m'.tables && m'.tables[i] == m.tables[i])
      && (0 < tb.index <= |m.stack| ==> m.IsTableAt(tb.index) && id == Slot(m.stack, tb.index).id)
  {
    var m1 := PushH(m, key);
    var m2 := PushH(m1, value);
    var rest := Pushed(m.stack, key) + Pushed(m1.stack, value);
    assert m2.stack == m.stack + rest;
    assert m2.stack[..|m2.stack| - 2] == m.stack;
    SetTableStores(m2, tb.index);
    assert GenericSet(m, tb, key, value) == m2.SetTable(tb.index);
    assert m2.tables == m.tables;
    if 0 < tb.index <= |m.stack| {
      SlotAfterPush(m.stack, rest, tb.index);
      assert Slot(m2.stack, tb.index) == Slot(m.stack, tb.index);
    }
  }

  /** String-key SetField: the stack is back where it was and the table maps
      the string key to the pushed value. */
  lemma {:induction false} StringSetStores(m: Machine, tb: Table, key: Bytes, value: HostValue)
    requires CanStringSet(m, tb, value) && PushCount(value) == 1
    ensures var m1 := PushH(m, value);
      var v := m1.stack[|m.stack|];
      var id := Slot(m1.stack, tb.index).id;
      var m' := StringSet(m, tb, key, value);
      && v == Pushed(m.stack, value)[0]
      && m'.stack == m.stack
      && m'.globals == m.globals && m'.nextTable == m.nextTable
      && id in m.tables && id in m'.tables
      && m'.tables == m.tables[id := Store(m.tables[id], Str(key), v)]
      && Get(m'.tables[id], Str(key)) == v
      && (forall j :: j != Str(key) ==> Get(m'.tables[id], j) == Get(m.tables[id], j))
      && (forall i :: i in m.tables && i != id ==> i in m'.tables && m'.tables[i] == m.tables[i])
      && (0 < tb.index <= |m.stack| ==> m.IsTableAt(tb.index) && id == Slot(m.stack, tb.index).id)
  {
    var m1 := PushH(m, value);
    assert m1.stack[..|m1.stack| - 1] == m.stack;
    SetFieldStores(m1, tb.index, key);
    assert StringSet(m, tb, key, value) == m1.SetField(tb.index, key);
    assert m1.tables == m.tables;
    if 0 < tb.index <= |m.stack| {
      SlotAfterPush(m.stack, Pushed(m.stack, value), tb.index);
      assert Slot(m1.stack, tb.index) == Slot(m.stack, tb.index);
    }
  }

  /** For an absolute index, a value whose push does not depend on the
      stack, and a key without NUL bytes, the lua_setfield path and the
      generic path with a std::string key leave the same state. */
  lemma {:induction false} StringSetIsGenericSet(m: Machine, tb: Table, key: Bytes, value: HostValue)
    requires CanStringSet(m, tb, value) && PushCount(value) == 1 && PushIndependent(value)
    requires 0 < tb.index <= |m.stack| && 0 !in key
    ensures CanGenericSet(m, tb, HString(key), value)
    ensures GenericSet(m, tb, HString(key), value) == StringSet(m, tb, UpToNul(key), value)
  {
    UpToNulNoNul(key);
    var n := |m.stack|;
    var s1 := PushH(m, value);
    var v := Pushed(m.stack, value)[0];
    SlotAfterPush(m.stack, Pushed(m.stack, value), tb.index);
    assert m.IsTableAt(tb.index);
    var m1 := PushH(m, HString(key));
    assert m1.stack == m.stack + [Str(key)];
    PushedOnLongerStack(m.stack, [Str(key)], value);
    var m2 := PushH(m1, value);
    assert m2.stack == m.stack + ([Str(key)] + [v]);
    SlotAfterPush(m.stack, [Str(key)] + [v], tb.index);
    assert m2.stack[n] == Str(key);
    assert m2.CanSetTable(tb.index);
    GenericSetStores(m, tb, HString(key), value);
    StringSetStores(m, tb, key, value);
  }

  /** With a NUL inside the key the two SetField paths store under
      different keys: lua_setfield sees "A", lua_pushlstring keeps "A\0B".
      The two lemmas below start from this machine: one empty table on the
      stack. */
  function OneEmptyTable(): (m: Machine)
    ensures m.Wf() && m.stack == [TableRef(0)] && m.tables == map[0 := map[]]
  {
    Machine([TableRef(0)], map[0 := map[]], map[], 1)
  }

  /** The const std::string key "A\0B" takes the string path and stores
      under "A". */
  lemma NulKeyStringPath(env: LuaState)
    ensures var m := OneEmptyTable();
      var key: Bytes := [65, 0, 66];
      && CanStringSet(m, Table(env, 1), HInt(I64, 7))
      && StringSet(m, Table(env, 1), UpToNul(key), HInt(I64, 7)).tables[0] == map[Str([65]) := Int(7)]
  {
    var m := OneEmptyTable();
    var key: Bytes := [65, 0, 66];
    var h := HInt(I64, 7);
    assert UpToNul(key) == [65] by {
      assert key[1..] == [0, 66];
      assert UpToNul(key[1..]) == [];
    }
    assert Pushed(m.stack, h) == [Int(7)];
    var s1 := PushH(m, h);
    assert s1.stack == [TableRef(0), Int(7)];
    assert s1.CanSetField(1);
    StringSetStores(m, Table(env, 1), [65], h);
    assert Store(map[], Str([65]), Int(7)) == map[Str([65]) := Int(7)];
  }

  /** The same key as a non-const std::string takes the generic path and
      stores under all three bytes. */
  lemma NulKeyGenericPath(env: LuaState)
    ensures var m := OneEmptyTable();
      var key: Bytes := [65, 0, 66];
      && CanGenericSet(m, Table(env, 1), HString(key), HInt(I64, 7))
      && GenericSet(m, Table(env, 1), HString(key), HInt(I64, 7)).tables[0] == map[Str(key) := Int(7)]
  {
    var m := OneEmptyTable();
    var key: Bytes := [65, 0, 66];
    var h := HInt(I64, 7);
    var m1 := PushH(m, HString(key));
    assert m1.stack == [TableRef(0), Str(key)];
    var m2 := PushH(m1, h);
    assert m2.stack == [TableRef(0), Str(key), Int(7)];
    assert m2.CanSetTable(1);
    GenericSetStores(m, Table(env, 1), HString(key), h);
    assert Store(map[], Str(key), Int(7)) == map[Str(key) := Int(7)];
  }

  /** Generic GetField with a key that pushes one slot: exactly one slot is
      added, t[key], and it is not popped; nothing else changes. */
  lemma {:induction false} GenericGetLeavesOne(m: Machine, tb: Table, key: HostValue, field: HostValue)
    requires CanGenericGet(m, tb, key, field) && PushCount(key) == 1
    ensures var m1 := PushH(m, key);
      var r := GenericGet(m, tb, key, field);
      && r.0.stack == m.stack + [Get(m1.TableAt(tb.index), Pushed(m.stack, key)[0])]
      && r.0.tables == m.tables && r.0.globals == m.globals
      && (r.1, r.2) == Converted(tb.env, r.0.stack, -1, field)
  {
    var m1 := PushH(m, key);
    assert m1.stack[..|m1.stack| - 1] == m.stack;
  }

  /** String-key GetField: exactly one slot is added, t[key], and it stays. */
  lemma {:induction false} StringGetLeavesOne(m: Machine, tb: Table, key: Bytes, field: HostValue)
    requires CanStringGet(m, tb, key, field)
    ensures var r := StringGet(m, tb, key, field);
      && r.0.stack == m.stack + [Get(m.TableAt(tb.index), Str(key))]
      && r.0.tables == m.tables && r.0.globals == m.globals
      && (r.1, r.2) == Converted(tb.env, r.0.stack, -1, field)
  {
  }

  /** The part of GenericSetStores a later read needs: through an absolute
      index, the same slot names the table, which holds the value slot under
      the key slot. */
  lemma {:induction false} StoredUnderKey(m: Machine, tb: Table, key: HostValue, value: HostValue)
    requires CanGenericSet(m, tb, key, value)
    requires PushCount(key) == 1 && PushCount(value) == 1
    requires 0 < tb.index <= |m.stack|
    ensures var m' := GenericSet(m, tb, key, value);
      && m'.stack == m.stack
      && m'.IsTableAt(tb.index)
      && Get(m'.TableAt(tb.index), Pushed(m.stack, key)[0]) == Pushed(PushH(m, key).stack, value)[0]
  {
    GenericSetStores(m, tb, key, value);
  }

  /** Pushing a one-slot key and reading through an absolute table index
      leaves the stack as it was plus what the table holds under that key. */
  lemma {:induction false} ReadStoredSlot(m: Machine, key: HostValue, idx: int)
    requires m.Wf() && CanPush(m.stack, key) && PushCount(key) == 1
    requires 0 < idx <= |m.stack| && m.IsTableAt(idx)
    ensures PushH(m, key).CanGetTable(idx)
    ensures PushH(m, key).GetTable(idx).stack
      == m.stack + [Get(m.TableAt(idx), Pushed(m.stack, key)[0])]
  {
    var g := PushH(m, key);
    var k := Pushed(m.stack, key)[0];
    assert g.stack == m.stack + [k];
    SlotAfterPush(m.stack, [k], idx);
    assert g.CanGetTable(idx) && g.TableAt(idx) == m.TableAt(idx);
    GetTableReads(g, idx);
    assert g.stack[..|g.stack| - 1] == m.stack;
  }

  /** Reading a field back right after storing it: the stack holds one more
      slot, the stored value. */
  lemma {:induction false} SetThenGetSlot(m: Machine, tb: Table, key: HostValue, value: HostValue, field: HostValue)
    requires tb.env != null && CanGenericSet(m, tb, key, value)
    requires PushCount(key) == 1 && PushCount(value) == 1
    requires 0 < tb.index <= |m.stack|
    requires Convertible(field) && ConvDefined(Pushed(PushH(m, key).stack, value)[0], field)
    ensures var m' := GenericSet(m, tb, key, value);
      && CanGenericGet(m', tb, key, field)
      && GenericGet(m', tb, key, field).0.stack == m.stack + [Pushed(PushH(m, key).stack, value)[0]]
  {
    StoredUnderKey(m, tb, key, value);
    var m' := GenericSet(m, tb, key, value);
    var v := Pushed(PushH(m, key).stack, value)[0];
    ReadStoredSlot(m', key, tb.index);
    var g := PushH(m', key).GetTable(tb.index);
    assert Slot(g.stack, -1) == v;
  }

  /** SetField(key, value) then GetField(key, field) through an absolute
      table index, with a key and a value that push one slot each: the stack
      keeps one more slot, the stored value, and the field is converted from
      it. */
  lemma {:induction false} SetThenGet(m: Machine, tb: Table, key: HostValue, value: HostValue, field: HostValue)
    requires tb.env != null && CanGenericSet(m, tb, key, value)
    requires PushCount(key) == 1 && PushCount(value) == 1
    requires 0 < tb.index <= |m.stack|
    requires Convertible(field) && ConvDefined(Pushed(PushH(m, key).stack, value)[0], field)
    ensures var m' := GenericSet(m, tb, key, value);
      var v := Pushed(PushH(m, key).stack, value)[0];
      && CanGenericGet(m', tb, key, field)
      && GenericGet(m', tb, key, field).0.stack == m.stack + [v]
      && (GenericGet(m', tb, key, field).1, GenericGet(m', tb, key, field).2)
         == Converted(tb.env, m.stack + [v], -1, field)
  {
    SetThenGetSlot(m, tb, key, value, field);
    GenericGetLeavesOne(GenericSet(m, tb, key, value), tb, key, field);
  }

  /** Either path of the public GetField, with a key that pushes one slot:
      exactly one slot is added and stays, and the field is converted from it. */
  lemma {:induction false} GetFieldLeavesOne(m: Machine, tb: Table, key: HostValue, field: HostValue)
    requires CanGetField(m, tb, key, field) && PushCount(key) == 1
    ensures var r := FieldGet(m, tb, key, field);
      && |r.0.stack| == |m.stack| + 1
      && r.0.stack[..|m.stack|] == m.stack
      && r.0.tables == m.tables && r.0.globals == m.globals
      && tb.env != null
      && (r.1, r.2) == Converted(tb.env, r.0.stack, -1, field)
  {
    if key.HCString? {
      StringGetLeavesOne(m, tb, UpToNul(key.s.chars), field);
    } else {
      GenericGetLeavesOne(m, tb, key, field);
    }
    var r := FieldGet(m, tb, key, field);
    assert r.0.stack[..|m.stack|] == m.stack;
  }
}
