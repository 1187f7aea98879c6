// hklua/function.h: pushing an argument pack and converting a tuple of
// results.  The C++ code recurses over the variadic pack at compile time;
// here the pack is a sequence of host values and the recursion is over it.

module Functions {
  import opened LuaApi
  import opened Values
  import opened Dispatch

  /* ---------------------------------------------------------------------- */
  /* StackPushMultiple                                                      */
  /* ---------------------------------------------------------------------- */

  /** Every argument can be pushed on the stack its predecessors left; a
      table handle with a relative index sees the arguments pushed before it. */
  predicate CanPushAll(stack: seq<LuaValue>, args: seq<HostValue>)
    decreases |args|
  {
    args == [] || (CanPush(stack, args[0]) && CanPushAll(stack + Pushed(stack, args[0]), args[1..]))
  }

  /** The number of slots a pack pushes. */
  function TotalPush(args: seq<HostValue>): nat
  {
    if args == [] then 0 else PushCount(args[0]) + TotalPush(args[1..])
  }

  /** StackPush applied to the arguments left to right. */
  function PushAll(m: Machine, args: seq<HostValue>): (m': Machine)
    requires CanPushAll(m.stack, args)
    ensures |m'.stack| == |m.stack| + TotalPush(args)
    ensures m'.stack[..|m.stack|] == m.stack
    ensures m'.tables == m.tables && m'.globals == m.globals && m'.nextTable == m.nextTable
    ensures m.Wf() ==> m'.Wf()
    decreases |args|
  {
    if args == [] then m
    else
      var m1 := PushH(m, args[0]);
      var r := PushAll(m1, args[1..]);
      assert r.stack[..|m.stack|] == r.stack[..|m1.stack|][..|m.stack|];
      r
  }

  /** StackPushMultiple(env, args...): StackPush of each argument, first
      to last; the empty pack does nothing. */
  method StackPushMultiple(env: LuaState, args: seq<HostValue>)
    requires env.Valid() && CanPushAll(env.stack, args)
    modifies env
    ensures env.Valid()
    ensures env.Snapshot() == PushAll(old(env.Snapshot()), args)
  {
    var i := 0;
    while i < |args|
      invariant 0 <= i <= |args|
      invariant env.Valid() && CanPushAll(env.stack, args[i..])
      invariant PushAll(env.Snapshot(), args[i..]) == PushAll(old(env.Snapshot()), args)
    {
      assert args[i..][1..] == args[i + 1..];
      Push(env, args[i]);
      i := i + 1;
    }
    assert args[i..] == [];
  }

  /** Pushing a pack in two parts is pushing the whole pack. */
  lemma {:induction false} PushAllAppend(m: Machine, a: seq<HostValue>, b: seq<HostValue>)
    requires CanPushAll(m.stack, a + b)
    ensures CanPushAll(m.stack, a) && CanPushAll(PushAll(m, a).stack, b)
    ensures PushAll(m, a + b) == PushAll(PushAll(m, a), b)
    decreases |a|
  {
    if a != [] {
      assert (a + b)[0] == a[0] && (a + b)[1..] == a[1..] + b;
      PushAllAppend(PushH(m, a[0]), a[1..], b);
    } else {
      assert a + b == b;
    }
  }

  /** Arguments that push exactly one slot each, whatever the stack. */
  predicate OneSlotEach(args: seq<HostValue>)
  {
    forall i :: 0 <= i < |args| ==> PushIndependentArg(args[i]) && CanPush([], args[i]) && PushCount(args[i]) == 1
  }

  /** Above base, s holds one slot per argument, in argument order. */
  predicate SlotsFor(s: seq<LuaValue>, base: nat, args: seq<HostValue>)
  {
    && |s| == base + |args|
    && forall i :: 0 <= i < |args| ==> CanPush([], args[i]) && Pushed([], args[i]) == [s[base + i]]
  }

  lemma {:induction false} OneSlotEachTail(args: seq<HostValue>)
    requires OneSlotEach(args) && args != []
    ensures OneSlotEach(args[1..])
  {
    forall i | 0 <= i < |args[1..]|
      ensures PushIndependentArg(args[1..][i]) && CanPush([], args[1..][i]) && PushCount(args[1..][i]) == 1
    {
      assert args[1..][i] == args[i + 1];
    }
  }

  lemma {:induction false} SlotsForCons(s: seq<LuaValue>, base: nat, args: seq<HostValue>)
    requires args != [] && SlotsFor(s, base + 1, args[1..])
    requires CanPush([], args[0]) && Pushed([], args[0]) == [s[base]]
    ensures SlotsFor(s, base, args)
  {
    forall i | 0 <= i < |args|
      ensures CanPush([], args[i]) && Pushed([], args[i]) == [s[base + i]]
    {
      if i > 0 {
        assert args[1..][i - 1] == args[i];
      }
    }
  }

  /** Arguments that push one slot each, wherever they are pushed, leave one
      slot per argument above the old top, in order. */
  lemma {:induction false} PushAllOneEach(m: Machine, args: seq<HostValue>)
    requires OneSlotEach(args)
    ensures CanPushAll(m.stack, args)
    ensures SlotsFor(PushAll(m, args).stack, |m.stack|, args)
    decreases |args|
  {
    if args != [] {
      PushedAnywhere(m.stack, args[0]);
      var m1 := PushH(m, args[0]);
      OneSlotEachTail(args);
      PushAllOneEach(m1, args[1..]);
      var s := PushAll(m, args).stack;
      assert s == PushAll(m1, args[1..]).stack;
      assert s[|m.stack|] == m1.stack[|m.stack|];
      SlotsForCons(s, |m.stack|, args);
    }
  }

  /** A value whose push does not read the stack: no table handle and no
      Variant holding one. */
  predicate PushIndependentArg(h: HostValue)
  {
    match h
    case HTable(_) => false
    case HVariant(v) => !v.VTable?
    case HVI(d, isNil) => isNil || PushIndependentArg(d)
    case _ => true
  }

  /** Such a value pushes the same slots on every stack. */
  lemma {:induction false} PushedAnywhere(s: seq<LuaValue>, h: HostValue)
    requires PushIndependentArg(h) && CanPush([], h)
    ensures CanPush(s, h) && Pushed(s, h) == Pushed([], h)
  {
    if h.HVI? && !h.isNil {
      PushedAnywhere(s, h.data);
    }
  }

  /* ---------------------------------------------------------------------- */
  /* StackConvMultiple                                                      */
  /* ---------------------------------------------------------------------- */

  /** The slot at idx exists, the target has a StackConv overload and the
      conversion does not reach an assert, and it gives r. */
  predicate ConvertsAt(env: LuaState, stack: seq<LuaValue>, idx: int, h: HostValue, r: (HostValue, bool))
  {
    ValidIndex(|stack|, idx) && Convertible(h) && ConvDefined(Slot(stack, idx), h)
    && Converted(env, stack, idx, h) == r
  }

  /** What StackConvMultiple_impl<n> reads is there: element n-1 converts
      from index, element n-2 from index - 1, and so on until the first
      failure. */
  predicate CanConvFrom(env: LuaState, stack: seq<LuaValue>, index: int, rets: seq<HostValue>, n: nat)
    requires n <= |rets|
    decreases n
  {
    n == 0 ||
    (&& ValidIndex(|stack|, index) && Convertible(rets[n - 1]) && ConvDefined(Slot(stack, index), rets[n - 1])
     && var c := Converted(env, stack, index, rets[n - 1]);
        c.1 ==> CanConvFrom(env, stack, index - 1, rets[n - 1 := c.0], n - 1))
  }

  /** StackConvMultiple_impl<n>::apply: StackConv into element n-1 from
      index, written in place; on failure stop with false, otherwise go on
      with element n-2 from index - 1.  The element that failed keeps what
      its StackConv wrote; elements from n on are never touched. */
  function ConvFrom(env: LuaState, stack: seq<LuaValue>, index: int, rets: seq<HostValue>, n: nat): (r: (seq<HostValue>, bool))
    requires n <= |rets| && CanConvFrom(env, stack, index, rets, n)
    ensures |r.0| == |rets| && r.0[n..] == rets[n..]
    ensures forall k :: 0 <= k < |rets| ==> TypeOfHost(r.0[k]) == TypeOfHost(rets[k])
    decreases n
  {
    if n == 0 then (rets, true)
    else
      var c := Converted(env, stack, index, rets[n - 1]);
      if !c.1 then (rets[n - 1 := c.0], false)
      else
        var r := ConvFrom(env, stack, index - 1, rets[n - 1 := c.0], n - 1);
        assert r.0[n..] == r.0[n - 1..][1..];
        r
  }

  /** StackConvMultiple(env, index, retval): element N-1 from index, then
      N-2 from index - 1, and so on, each written in place; the first
      failure returns false. */
  method StackConvMultiple(env: LuaState, index: int, rets: seq<HostValue>) returns (rets': seq<HostValue>, ok: bool)
    requires CanConvFrom(env, env.stack, index, rets, |rets|)
    ensures (rets', ok) == ConvFrom(env, env.stack, index, rets, |rets|)
  {
    rets' := rets;
    var i := |rets|;
    var idx := index;
    while i > 0
      invariant 0 <= i <= |rets'| == |rets|
      invariant CanConvFrom(env, env.stack, idx, rets', i)
      invariant ConvFrom(env, env.stack, idx, rets', i) == ConvFrom(env, env.stack, index, rets, |rets|)
    {
      var h, hOk := Conv(env, idx, rets'[i - 1]);
      rets' := rets'[i - 1 := h];
      if !hOk {
        return rets', false;
      }
      i, idx := i - 1, idx - 1;
    }
    ok := true;
  }

  /** Elements lo .. n-1 of out are the successful conversions of the
      slots index - (n-1-k) into the corresponding elements of rets. */
  predicate ConvertedFrom(env: LuaState, stack: seq<LuaValue>, index: int, rets: seq<HostValue>, out: seq<HostValue>, n: int, lo: int)
    requires |out| == |rets| && n <= |rets|
  {
    forall k :: 0 <= lo <= k < n ==> ConvertsAt(env, stack, index - (n - 1 - k), rets[k], (out[k], true))
  }

  /** Element f failed: it holds what its StackConv wrote, those after it
      up to n-1 converted and those before it are what they were. */
  predicate FailedAt(env: LuaState, stack: seq<LuaValue>, index: int, rets: seq<HostValue>, out: seq<HostValue>, n: int, f: int)
    requires |out| == |rets| && n <= |rets|
  {
    && 0 <= f < n
    && ConvertsAt(env, stack, index - (n - 1 - f), rets[f], (out[f], false))
    && ConvertedFrom(env, stack, index, rets, out, n, f + 1)
    && out[..f] == rets[..f]
  }

  /** One step of StackConvMultiple_impl: if elements lo .. n-2 converted
      from the slots below index after element n-1 was written, and element
      n-1 converted from index, then elements lo .. n-1 converted. */
  lemma {:induction false} ConvertedFromCons(env: LuaState, stack: seq<LuaValue>, index: int, rets: seq<HostValue>, x: HostValue, out: seq<HostValue>, n: nat, lo: nat)
    requires 0 < n <= |rets| == |out| && lo <= n - 1
    requires ConvertedFrom(env, stack, index - 1, rets[n - 1 := x], out, n - 1, lo)
    requires ConvertsAt(env, stack, index, rets[n - 1], (out[n - 1], true))
    ensures ConvertedFrom(env, stack, index, rets, out, n, lo)
  {
    var rets1 := rets[n - 1 := x];
    forall k | lo <= k < n
      ensures ConvertsAt(env, stack, index - (n - 1 - k), rets[k], (out[k], true))
    {
      if k < n - 1 {
        assert rets1[k] == rets[k];
        assert ConvertsAt(env, stack, index - 1 - (n - 2 - k), rets1[k], (out[k], true));
      }
    }
  }

  /** On success every element k < n is the conversion of the slot at
      index - (n-1-k). */
  lemma {:induction false} ConvFromSuccess(env: LuaState, stack: seq<LuaValue>, index: int, rets: seq<HostValue>, n: nat)
    requires n <= |rets| && CanConvFrom(env, stack, index, rets, n) && ConvFrom(env, stack, index, rets, n).1
    ensures ConvertedFrom(env, stack, index, rets, ConvFrom(env, stack, index, rets, n).0, n, 0)
    decreases n
  {
    if n == 0 {
      return;
    }
    var r := ConvFrom(env, stack, index, rets, n).0;
    var c := Converted(env, stack, index, rets[n - 1]);
    var rets1 := rets[n - 1 := c.0];
    assert r == ConvFrom(env, stack, index - 1, rets1, n - 1).0;
    ConvFromSuccess(env, stack, index - 1, rets1, n - 1);
    assert r[n - 1..] == rets1[n - 1..];
    ConvertedFromCons(env, stack, index, rets, c.0, r, n, 0);
  }

  /** On failure exactly one element failed and the conversion stopped
      there. */
  lemma {:induction false} ConvFromFailure(env: LuaState, stack: seq<LuaValue>, index: int, rets: seq<HostValue>, n: nat)
    requires n <= |rets| && CanConvFrom(env, stack, index, rets, n) && !ConvFrom(env, stack, index, rets, n).1
    ensures exists f :: FailedAt(env, stack, index, rets, ConvFrom(env, stack, index, rets, n).0, n, f)
    decreases n
  {
    var r := ConvFrom(env, stack, index, rets, n).0;
    var c := Converted(env, stack, index, rets[n - 1]);
    var rets1 := rets[n - 1 := c.0];
    if !c.1 {
      assert r == rets1 && r[..n - 1] == rets[..n - 1];
      assert FailedAt(env, stack, index, rets, r, n, n - 1);
      return;
    }
    assert r == ConvFrom(env, stack, index - 1, rets1, n - 1).0;
    ConvFromFailure(env, stack, index - 1, rets1, n - 1);
    var f :| FailedAt(env, stack, index - 1, rets1, r, n - 1, f);
    assert r[n - 1..] == rets1[n - 1..];
    FailedAtCons(env, stack, index, rets, c.0, r, n, f);
  }

  /** One step of StackConvMultiple_impl after a later failure: if element
      f failed below index after element n-1 was written, and element n-1
      converted from index, then element f is where the whole run failed. */
  lemma {:induction false} FailedAtCons(env: LuaState, stack: seq<LuaValue>, index: int, rets: seq<HostValue>, x: HostValue, out: seq<HostValue>, n: nat, f: int)
    requires 0 < n <= |rets| == |out|
    requires FailedAt(env, stack, index - 1, rets[n - 1 := x], out, n - 1, f)
    requires ConvertsAt(env, stack, index, rets[n - 1], (out[n - 1], true))
    ensures FailedAt(env, stack, index, rets, out, n, f)
  {
    var rets1 := rets[n - 1 := x];
    assert rets1[f] == rets[f] && rets1[..f] == rets[..f];
    assert index - 1 - (n - 2 - f) == index - (n - 1 - f);
    ConvertedFromCons(env, stack, index, rets, x, out, n, f + 1);
  }

  /** The empty tuple converts trivially and nothing is read. */
  lemma EmptyTupleConverts(env: LuaState, stack: seq<LuaValue>, index: int)
    ensures CanConvFrom(env, stack, index, [], 0)
    ensures ConvFrom(env, stack, index, [], 0) == ([], true)
  {
  }
}
