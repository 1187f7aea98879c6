// Overload resolution of StackPush / StackConv: the C++ compiler picks the
// overload from the static type of the argument; here the constructor of the
// HostValue picks the method.  VI<T> (hklua/stack.h) recurses into its data.

module Dispatch {
  import opened LuaApi
  import opened Values
  import Stack
  import TableHandle
  import Variants

  /** The state after StackPush(env, h). */
  function PushH(m: Machine, h: HostValue): (m': Machine)
    requires CanPush(m.stack, h)
    ensures m'.stack == m.stack + Pushed(m.stack, h)
    ensures m'.tables == m.tables && m'.globals == m.globals && m'.nextTable == m.nextTable
    ensures m.Wf() ==> m'.Wf()
  {
    var r := m.Push(Pushed(m.stack, h));
    assert m.Wf() ==> r.Wf() by {
      if m.Wf() {
        PushedRefOk(m, h);
      }
    }
    r
  }

  /** StackPush(env, h) for every overload. */
  method Push(env: LuaState, h: HostValue)
    requires env.Valid() && CanPush(env.stack, h)
    modifies env
    ensures env.Valid()
    ensures env.Snapshot() == PushH(old(env.Snapshot()), h)
    decreases h, 1
  {
    match h
    case HInt(k, x) =>
      Stack.PushInteger(env, k, x);
    case HNumber(n) =>
      Stack.PushNumber(env, n);
    case HCString(s) =>
      Stack.PushCString(env, s);
    case HString(b) =>
      Stack.PushString(env, b);
    case HBool(b) =>
      Stack.PushBoolean(env, b);
    case HCFunction(f) =>
      Stack.PushCFunction(env, f);
    case HNil =>
      Stack.PushNil(env);
    case HTable(t) =>
      TableHandle.PushTable(env, t);
    case HVariant(v) =>
      Variants.PushVariant(env, v);
    case HVI(_, _) =>
      PushVI(env, h);
  }

  /** StackPush(env, VI<T>&): nil when is_nil is set, otherwise data.  (The
      source calls StackPush(vi.data) without env, which does not compile
      once instantiated; the model passes env.) */
  method PushVI(env: LuaState, vi: HostValue)
    requires vi.HVI? && env.Valid() && CanPush(env.stack, vi)
    modifies env
    ensures env.Valid()
    ensures env.Snapshot() == PushH(old(env.Snapshot()), vi)
    decreases vi, 0
  {
    if vi.isNil {
      Stack.PushNil(env);
    } else {
      Push(env, vi.data);
    }
  }

  /** StackConv(env, index, out) for every overload: the new value of the
      out-parameter and the result.  The stack is only read. */
  method Conv(env: LuaState, index: int, h: HostValue) returns (h': HostValue, ok: bool)
    requires ValidIndex(|env.stack|, index) && Convertible(h) && ConvDefined(Slot(env.stack, index), h)
    ensures (h', ok) == Converted(env, env.stack, index, h)
    decreases h, 1
  {
    match h
    case HInt(k, _) =>
      var i;
      i, ok := Stack.ConvInteger(env, index, k);
      h' := HInt(k, i);
    case HNumber(_) =>
      var n;
      n, ok := Stack.ConvNumber(env, index);
      h' := HNumber(n);
    case HCString(_) =>
      var s;
      s, ok := Stack.ConvCString(env, index);
      h' := HCString(s);
    case HString(b) =>
      var b';
      b', ok := Stack.ConvString(env, index, b);
      h' := HString(b');
    case HBool(_) =>
      var b;
      b, ok := Stack.ConvBoolean(env, index);
      h' := HBool(b);
    case HCFunction(_) =>
      var f;
      f, ok := Stack.ConvCFunction(env, index);
      h' := HCFunction(f);
    case HTable(t) =>
      var t';
      t', ok := TableHandle.ConvTable(env, index, t);
      h' := HTable(t');
    case HVariant(v) =>
      var v';
      v', ok := Variants.ConvVariantValue(env, index, v);
      h' := HVariant(v');
    case HVI(_, _) =>
      h', ok := ConvVI(env, index, h);
  }

  /** StackConv(env, index, VI<T>&): a nil slot sets is_nil and keeps data;
      anything else converts data and keeps is_nil as it was. */
  method ConvVI(env: LuaState, index: int, vi: HostValue) returns (h': HostValue, ok: bool)
    requires vi.HVI? && ValidIndex(|env.stack|, index) && Convertible(vi) && ConvDefined(Slot(env.stack, index), vi)
    ensures (h', ok) == Converted(env, env.stack, index, vi)
    decreases vi, 0
  {
    var isNil := TypeOf(Slot(env.stack, index)) == TypeNil;
    if isNil {
      return HVI(vi.data, true), true;
    }
    var d;
    d, ok := Conv(env, index, vi.data);
    h' := HVI(d, vi.isNil);
  }
}
