// hklua/variant.h: Table::operator[] and Table::Proxy.  operator[] reads
// the field into a fresh Variant and keeps the key as a Variant; assigning
// to the proxy stores through the generic SetField with that Variant key and
// reads the field back into the proxy's value.  Neither pops what it read.

module Proxies {
  import opened LuaApi
  import opened Values
  import opened Dispatch
  import opened TableFields
  import opened TableHandle

  /** The keys operator[] accepts: those a Variant constructor takes without
      ambiguity, and Variant itself.  Of the integer types only Integer
      qualifies: any other one converts equally well to Integer, Number and
      bool, so Variant(key) is ambiguous for it. */
  predicate IsVariantKey(h: HostValue)
  {
    match h
    case HInt(k, x) => k == Integer && InRange(Integer, x)
    case HNumber(_) => true
    case HCString(_) => true
    case HBool(_) => true
    case HCFunction(_) => true
    case HNil => true
    case HTable(_) => true
    case HVariant(_) => true
    case _ => false
  }

  /** Variant(key): the converting constructor matching the key's type. */
  function VariantOf(h: HostValue): (v: VariantValue)
    requires IsVariantKey(h)
    ensures h.HVariant? ==> v == h.v
    ensures h.HBool? ==> v.VBool?
  {
    match h
    case HInt(_, x) => VInt(x)
    case HNumber(n) => VNumber(n)
    case HCString(s) => VCString(s)
    case HBool(b) => VBool(b)
    case HCFunction(f) => VFunction(f)
    case HNil => VNil
    case HTable(t) => VTable(t)
    case HVariant(v) => v
  }

  /** The Variant key pushes what the original key pushes, except a bool key:
      StackPush(bool) pushes the negation, StackPush(Variant) nothing. */
  lemma {:induction false} VariantKeyPushes(s: seq<LuaValue>, h: HostValue)
    requires IsVariantKey(h) && CanPush(s, h)
    ensures CanPush(s, HVariant(VariantOf(h)))
    ensures !h.HBool? ==> Pushed(s, HVariant(VariantOf(h))) == Pushed(s, h)
    ensures h.HBool? ==> Pushed(s, HVariant(VariantOf(h))) == [] && Pushed(s, h) == [Bool(!h.b)]
  {
    if h.HInt? {
      assert Wrap(Integer, h.x) == h.x;
    }
  }

  /** Proxy::operator=(T const&) as a whole: generic SetField with the
      Variant key, then generic GetField with it into the old value.  A VI<T>
      cannot be assigned: StackPush takes VI<T>& and the argument is const. */
  predicate CanAssign(m: Machine, tb: Table, key: VariantValue, oldValue: VariantValue, v: HostValue)
  {
    && !v.HVI?
    && CanGenericSet(m, tb, HVariant(key), v)
    && CanGenericGet(GenericSet(m, tb, HVariant(key), v), tb, HVariant(key), HVariant(oldValue))
  }

  function AssignEffect(m: Machine, tb: Table, key: VariantValue, oldValue: VariantValue, v: HostValue): (r: (Machine, VariantValue))
    requires CanAssign(m, tb, key, oldValue, v)
    ensures r.0.Wf()
  {
    var m1 := GenericSet(m, tb, HVariant(key), v);
    var g := GenericGet(m1, tb, HVariant(key), HVariant(oldValue));
    (g.0, g.1.v)
  }

  class Proxy {
    var table: TableObject
    var key: VariantValue
    var value: VariantValue

    /** Proxy(Table*, KeyValue). */
    constructor (table: TableObject, key: VariantValue, value: VariantValue)
      ensures this.table == table && this.key == key && this.value == value
    {
      this.table := table;
      this.key := key;
      this.value := value;
    }

    /** Proxy(Proxy&&) = default: the pair is move-constructed, so both
        Variants of the source are left HK_UNSET. */
    constructor MoveFrom(rhs: Proxy)
      modifies rhs
      ensures table == old(rhs.table) && key == old(rhs.key) && value == old(rhs.value)
      ensures rhs.table == old(rhs.table) && rhs.key == Unset && rhs.value == Unset
    {
      table := rhs.table;
      key := rhs.key;
      value := rhs.value;
      new;
      rhs.key := Unset;
      rhs.value := Unset;
    }

    /** operator=(T const&). */
    method Assign(v: HostValue)
      requires table.handle.env != null && table.handle.env.Valid()
      requires CanAssign(table.handle.env.Snapshot(), table.handle, key, value, v)
      modifies this, table.handle.env
      ensures table == old(table) && table.handle == old(table.handle) && key == old(key)
      ensures table.handle.env.Valid()
      ensures (table.handle.env.Snapshot(), value) == AssignEffect(old(table.handle.env.Snapshot()), table.handle, key, old(value), v)
    {
      var tb, k := table.handle, key;
      var nv := StoreAndReadBack(tb, k, value, v);
      value := nv;
    }

    /** operator=(Proxy&&): swaps the table pointer and the key/value pair. */
    method MoveAssign(rhs: Proxy)
      modifies this, rhs
      ensures table == old(rhs.table) && key == old(rhs.key) && value == old(rhs.value)
      ensures rhs.table == old(table) && rhs.key == old(key) && rhs.value == old(value)
    {
      var t, k, v := table, key, value;
      table, key, value := rhs.table, rhs.key, rhs.value;
      rhs.table, rhs.key, rhs.value := t, k, v;
    }
  }

  /** The body of Proxy::operator=: SetField(key, value), then
      GetField(key, this->value). */
  method StoreAndReadBack(tb: Table, key: VariantValue, oldValue: VariantValue, v: HostValue) returns (value: VariantValue)
    requires tb.env != null && tb.env.Valid() && CanAssign(tb.env.Snapshot(), tb, key, oldValue, v)
    modifies tb.env
    ensures tb.env.Valid()
    ensures (tb.env.Snapshot(), value) == AssignEffect(old(tb.env.Snapshot()), tb, key, oldValue, v)
  {
    GenericSetField(tb, HVariant(key), v);
    var f, _ := GenericGetField(tb, HVariant(key), HVariant(oldValue));
    value := f.v;
  }

  /** Table::operator[](key) on the Table variable t: GetField(key, tmp)
      into a default Variant, then a Proxy pointing at t and holding
      Variant(key) and the value read.  The read slot stays on the stack. */
  method Index(t: TableObject, key: HostValue) returns (p: Proxy)
    requires t.handle.env != null && t.handle.env.Valid() && IsVariantKey(key)
    requires CanGetField(t.handle.env.Snapshot(), t.handle, key, HVariant(Unset))
    modifies t.handle.env
    ensures fresh(p)
    ensures t.handle == old(t.handle) && t.handle.env.Valid()
    ensures var r := FieldGet(old(t.handle.env.Snapshot()), t.handle, key, HVariant(Unset));
      && t.handle.env.Snapshot() == r.0
      && p.table == t && p.key == VariantOf(key) && p.value == r.1.v
  {
    var tmp, _ := GetField(t.handle, key, HVariant(Unset));
    p := new Proxy(t, VariantOf(key), tmp.v);
  }

  /** operator[] with a key that pushes one slot leaves exactly one more
      slot, and the proxy's value is the Variant conversion of that slot. */
  lemma {:induction false} IndexLeavesOne(m: Machine, tb: Table, key: HostValue)
    requires IsVariantKey(key) && CanGetField(m, tb, key, HVariant(Unset)) && PushCount(key) == 1
    ensures var r := FieldGet(m, tb, key, HVariant(Unset));
      && |r.0.stack| == |m.stack| + 1 && r.0.stack[..|m.stack|] == m.stack
      && tb.env != null && TypeOf(r.0.stack[|m.stack|]) != TypeOther
      && r.1.v == VariantConverted(tb.env, r.0.stack[|m.stack|], -1).0
  {
    GetFieldLeavesOne(m, tb, key, HVariant(Unset));
    var r := FieldGet(m, tb, key, HVariant(Unset));
    assert Slot(r.0.stack, -1) == r.0.stack[|m.stack|];
  }

  /** Proxy assignment through an absolute table index, with a key and a
      value that push one slot each: afterwards the stack holds one more
      slot, the stored value, and the proxy's value is that slot converted
      to a Variant. */
  lemma {:induction false} AssignReadsBack(m: Machine, tb: Table, key: VariantValue, oldValue: VariantValue, v: HostValue)
    requires tb.env != null && !v.HVI? && CanGenericSet(m, tb, HVariant(key), v)
    requires PushCount(HVariant(key)) == 1 && PushCount(v) == 1
    requires 0 < tb.index <= |m.stack|
    requires TypeOf(Pushed(PushH(m, HVariant(key)).stack, v)[0]) != TypeOther
    ensures var slot := Pushed(PushH(m, HVariant(key)).stack, v)[0];
      && CanAssign(m, tb, key, oldValue, v)
      && AssignEffect(m, tb, key, oldValue, v).0.stack == m.stack + [slot]
      && AssignEffect(m, tb, key, oldValue, v).1 == VariantConverted(tb.env, slot, -1).0
  {
    var slot := Pushed(PushH(m, HVariant(key)).stack, v)[0];
    SetThenGet(m, tb, HVariant(key), v, HVariant(oldValue));
    assert Slot(m.stack + [slot], -1) == slot;
  }

  /** Assigning the C string "Z" through a proxy reads back "Z". */
  lemma AssignZ(m: Machine, tb: Table, key: VariantValue, oldValue: VariantValue)
    requires tb.env != null && CanGenericSet(m, tb, HVariant(key), HCString(CStr([90])))
    requires PushCount(HVariant(key)) == 1 && 0 < tb.index <= |m.stack|
    ensures CanAssign(m, tb, key, oldValue, HCString(CStr([90])))
    ensures AssignEffect(m, tb, key, oldValue, HCString(CStr([90]))).1 == VCString(CStr([90]))
  {
    var z: Bytes := [90];
    assert UpToNul(z) == z by {
      assert z[1..] == [];
    }
    var v := HCString(CStr(z));
    var slot := Pushed(PushH(m, HVariant(key)).stack, v)[0];
    assert slot == Str(z);
    AssignReadsBack(m, tb, key, oldValue, v);
    assert VariantConverted(tb.env, slot, -1).0 == VCString(CStr(z));
  }
}
