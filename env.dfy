// hklua/env.h: the Env wrapper around one lua_State.  Its methods are thin
// steps over the C API: global variables, a few stack wrappers and
// CallFunction, which fetches a global, pushes the arguments, calls it under
// lua_pcall and converts the results.

module Environment {
  import opened LuaApi
  import opened Values
  import opened Dispatch
  import opened Functions
  import opened TableHandle

  /** The default tuple std::tuple<Rets...>{} of the given result types. */
  function Defaults(rets: seq<HostType>): (r: seq<HostValue>)
    ensures |r| == |rets|
    ensures forall k :: 0 <= k < |rets| ==> r[k] == Default(rets[k])
  {
    seq(|rets|, k requires 0 <= k < |rets| => Default(rets[k]))
  }

  /** lua_isfunction: C functions and Lua functions. */
  predicate IsFunction(v: LuaValue)
  {
    TypeOf(v) == TypeFunction
  }

  /** The global a name denotes; a char const* name stops at its first NUL. */
  function GlobalKey(name: CString): Bytes
    requires name.CStr?
  {
    UpToNul(name.chars)
  }

  /* ---------------------------------------------------------------------- */
  /* CallFunction, as a function of the state before the call               */
  /* ---------------------------------------------------------------------- */

  datatype CallResult = CallResult(after: Machine, results: seq<HostValue>, success: bool)

  /** The state right after lua_getglobal(name). */
  function Fetched(m: Machine, name: CString): (m': Machine)
    requires name.CStr?
    ensures |m'.stack| == |m.stack| + 1 && m'.stack[..|m.stack|] == m.stack
    ensures m'.stack[|m.stack|] == if GlobalKey(name) in m.globals then m.globals[GlobalKey(name)] else Nil
  {
    m.GetGlobal(GlobalKey(name))
  }

  /** Everything CallFunction hands to the C API is acceptable to it: the
      name is not NULL; if the global is a function, the arguments can be
      pushed, there are enough slots for lua_pcall's nargs, the message
      handler is 0 or a live index, and, if the call returns, the results
      can be converted. */
  predicate CanCall(env: LuaState, m: Machine, name: CString, msgh: int, args: seq<HostValue>, rets: seq<HostType>, outcome: CallOutcome)
  {
    && name.CStr?
    && var m1 := Fetched(m, name);
    (IsFunction(m1.stack[|m1.stack| - 1]) ==>
      && CanPushAll(m1.stack, args)
      && var m2 := PushAll(m1, args);
      && |args| + 1 <= |m2.stack|
      && (msgh == 0 || ValidIndex(|m2.stack|, msgh))
      && m2.OutcomeOk(outcome)
      && var m3 := m2.PCall(|args|, |rets|, outcome);
      (PCallStatus(outcome) == LuaOk ==> CanConvFrom(env, m3.stack, |m3.stack|, Defaults(rets), |rets|)))
  }

  /** Env::CallFunction<Rets...>(name, msgh, success, pop, args...): the
      final state, the returned tuple and the success flag.  Every failure
      returns the default tuple and leaves what was pushed so far. */
  function CallEffect(env: LuaState, m: Machine, name: CString, msgh: int, pop: bool,
                      args: seq<HostValue>, rets: seq<HostType>, outcome: CallOutcome): (r: CallResult)
    requires CanCall(env, m, name, msgh, args, rets, outcome)
    ensures |r.results| == |rets|
    ensures forall k :: 0 <= k < |rets| ==> TypeOfHost(r.results[k]) == TypeOfHost(Default(rets[k]))
    ensures !IsFunction(Fetched(m, name).stack[|m.stack|]) ==> r.after.tables == m.tables && r.after.globals == m.globals
    ensures m.nextTable <= r.after.nextTable && forall id :: id in m.tables ==> id in r.after.tables
    ensures m.Wf() && m.OutcomeOk(outcome) ==> r.after.Wf()
  {
    var m1 := Fetched(m, name);
    if !IsFunction(m1.stack[|m1.stack| - 1]) then CallResult(m1, Defaults(rets), false)
    else
      var m2 := PushAll(m1, args);
      var m3 := m2.PCall(|args|, |rets|, outcome);
      if PCallStatus(outcome) != LuaOk then CallResult(m3, Defaults(rets), false)
      else
        var c := ConvFrom(env, m3.stack, |m3.stack|, Defaults(rets), |rets|);
        if !c.1 then CallResult(m3, Defaults(rets), false)
        else if pop then CallResult(m3.Pop(|rets|), c.0, true)
        else CallResult(m3, c.0, true)
  }

  /** The state after Env::SetGlobal(name, value) as written: lua_setglobal
      stores and pops whatever is on the top, then the value is pushed. */
  function SetGlobalEffect(m: Machine, name: CString, value: HostValue): (m': Machine)
    requires name.CStr? && |m.stack| >= 1 && CanPush(m.stack[..|m.stack| - 1], value)
    ensures |m'.stack| == |m.stack| - 1 + PushCount(value)
    ensures m'.stack[..|m.stack| - 1] == m.stack[..|m.stack| - 1]
    ensures m.Wf() ==> m'.Wf()
  {
    var m1 := m.SetGlobal(GlobalKey(name));
    assert m1.stack == m.stack[..|m.stack| - 1];
    PushH(m1, value)
  }

  /* ---------------------------------------------------------------------- */
  /* Env                                                                    */
  /* ---------------------------------------------------------------------- */

  class Env {
    const L: LuaState
    const name: Bytes

    /** Env(name): a fresh lua_State. */
    constructor (name: Bytes)
      ensures fresh(L) && L.Valid()
      ensures L.stack == [] && L.tables == map[] && L.globals == map[]
      ensures this.name == name
    {
      L := new LuaState();
      this.name := name;
    }

    /** StackGetTop(): lua_gettop. */
    method StackGetTop() returns (n: int)
      ensures n == |L.stack|
    {
      var top := L.GetTop();
      n := top;
    }

    /** StackEmpty(): StackGetTop() == 0. */
    method StackEmpty() returns (e: bool)
      ensures e <==> L.stack == []
    {
      var top := StackGetTop();
      e := top == 0;
    }

    /** StackPop(n): lua_pop, that is lua_settop(L, -n - 1).  A negative n
        sets the height to -n - 1 instead of popping. */
    method StackPop(n: int)
      requires L.Valid() && (n < 0 || n <= |L.stack|)
      modifies L
      ensures L.Valid()
      ensures L.Snapshot() == old(L.Snapshot()).SetTop(-n - 1)
      ensures 0 <= n ==> L.Snapshot() == old(L.Snapshot()).Pop(n)
      ensures n < 0 ==> |L.stack| == -n - 1
    {
      ghost var m := L.Snapshot();
      L.SetTop(-n - 1);
      if 0 <= n {
        assert m.SetTop(-n - 1).stack == m.stack[..|m.stack| - n];
      }
    }

    /** StackPush(var): ::hklua::StackPush on this state. */
    method StackPush(h: HostValue)
      requires L.Valid() && CanPush(L.stack, h)
      modifies L
      ensures L.Valid()
      ensures L.Snapshot() == PushH(old(L.Snapshot()), h)
    {
      Push(L, h);
    }

    /** StackTo(index, var): ::hklua::StackConv on this state. */
    method StackTo(index: int, h: HostValue) returns (h': HostValue, ok: bool)
      requires ValidIndex(|L.stack|, index) && Convertible(h) && ConvDefined(Slot(L.stack, index), h)
      ensures (h', ok) == Converted(L, L.stack, index, h)
    {
      h', ok := Conv(L, index, h);
    }

    /** GetGlobal(name, var): lua_getglobal, then StackConv from the
        absolute top.  The global stays on the stack. */
    method GetGlobal(gname: CString, target: HostValue) returns (target': HostValue, ok: bool)
      requires L.Valid() && gname.CStr? && Convertible(target)
      requires ConvDefined(Fetched(L.Snapshot(), gname).stack[|L.stack|], target)
      modifies L
      ensures L.Valid()
      ensures L.Snapshot() == Fetched(old(L.Snapshot()), gname)
      ensures (target', ok) == Converted(L, L.stack, |L.stack|, target)
    {
      L.GetGlobal(GlobalKey(gname));
      var top := L.GetTop();
      assert Slot(L.stack, top) == L.stack[top - 1];
      target', ok := StackTo(top, target);
    }

    /** GetGlobal<Table>(name, success): starts from Table(env_) (index 0)
        and reports the conversion's result. */
    method GetGlobalTable(gname: CString) returns (tb: Table, ok: bool)
      requires L.Valid() && gname.CStr?
      modifies L
      ensures L.Valid()
      ensures L.Snapshot() == Fetched(old(L.Snapshot()), gname)
      ensures ok <==> L.stack[|L.stack| - 1].TableRef?
      ensures tb == if ok then Table(L, |L.stack|) else Table(L, 0)
    {
      var h;
      h, ok := GetGlobal(gname, HTable(Table(L, 0)));
      tb := h.t;
    }

    /** SetGlobal(name, value) as written: lua_setglobal before the push, so
        the global receives the slot that was on the top and the value is
        left on the stack. */
    method SetGlobal(gname: CString, value: HostValue)
      requires L.Valid() && gname.CStr? && |L.stack| >= 1
      requires CanPush(L.stack[..|L.stack| - 1], value)
      modifies L
      ensures L.Valid()
      ensures L.Snapshot() == SetGlobalEffect(old(L.Snapshot()), gname, value)
    {
      L.SetGlobal(GlobalKey(gname));
      StackPush(value);
    }

    /** CallFunction<Rets...>(name, msgh, success, pop, args...).  What the
        called function does is the outcome parameter. */
    method CallFunction(fname: CString, msgh: int, pop: bool, args: seq<HostValue>, rets: seq<HostType>, outcome: CallOutcome)
        returns (results: seq<HostValue>, success: bool)
      requires L.Valid() && L.Snapshot().OutcomeOk(outcome)
      requires CanCall(L, L.Snapshot(), fname, msgh, args, rets, outcome)
      modifies L
      ensures L.Valid()
      ensures var r := CallEffect(L, old(L.Snapshot()), fname, msgh, pop, args, rets, outcome);
        L.Snapshot() == r.after && results == r.results && success == r.success
    {
      success := false;
      L.GetGlobal(GlobalKey(fname));
      if !IsFunction(L.stack[|L.stack| - 1]) {
        return Defaults(rets), false;
      }
      StackPushMultiple(L, args);
      var status := L.PCall(|args|, |rets|, msgh, outcome);
      if status != LuaOk {
        return Defaults(rets), false;
      }
      var top := L.GetTop();
      var retval, ok := StackConvMultiple(L, top, Defaults(rets));
      if !ok {
        return Defaults(rets), false;
      }
      success := true;
      if pop {
        L.Pop(|rets|);
      }
      results := retval;
    }
  }

  /** `Table t; TableGuard g(t); env.GetGlobal(name, t);` followed by the
      end of g's scope.  The guard holds t by reference, so it sees the
      handle GetGlobal bound t to, the top, and pops the global again. */
  method GuardedGlobal(env: Env, gname: CString) returns (ok: bool)
    requires env.L.Valid() && gname.CStr?
    requires Fetched(env.L.Snapshot(), gname).stack[|env.L.stack|].TableRef?
    modifies env.L
    ensures ok
    ensures env.L.Snapshot() == old(env.L.Snapshot())
  {
    var t := new TableObject(Table(null, 0));
    var g := new TableGuard(t);
    env.L.GetGlobal(GlobalKey(gname));
    var top := env.L.GetTop();
    ok := t.Conv(env.L, top);
    g.Release();
  }

  /* ---------------------------------------------------------------------- */
  /* What CallFunction, GetGlobal and SetGlobal do                          */
  /* ---------------------------------------------------------------------- */

  /** success is set exactly when the global is a function, lua_pcall
      returned LUA_OK and every result converted. */
  lemma {:induction false} CallSuccessIff(env: LuaState, m: Machine, name: CString, msgh: int, pop: bool,
                                          args: seq<HostValue>, rets: seq<HostType>, outcome: CallOutcome)
    requires CanCall(env, m, name, msgh, args, rets, outcome)
    ensures var m1 := Fetched(m, name);
      CallEffect(env, m, name, msgh, pop, args, rets, outcome).success <==>
        && IsFunction(m1.stack[|m.stack|])
        && PCallStatus(outcome) == LuaOk
        && var m3 := PushAll(m1, args).PCall(|args|, |rets|, outcome);
           ConvFrom(env, m3.stack, |m3.stack|, Defaults(rets), |rets|).1
    ensures !CallEffect(env, m, name, msgh, pop, args, rets, outcome).success ==>
      CallEffect(env, m, name, msgh, pop, args, rets, outcome).results == Defaults(rets)
  {
    var m1 := Fetched(m, name);
    assert m1.stack[|m1.stack| - 1] == m1.stack[|m.stack|];
  }

  /** A global that is not a function: nothing is called, the default tuple
      comes back, and the fetched value stays on the stack. */
  lemma {:induction false} NotAFunction(env: LuaState, m: Machine, name: CString, msgh: int, pop: bool,
                                        args: seq<HostValue>, rets: seq<HostType>, outcome: CallOutcome)
    requires CanCall(env, m, name, msgh, args, rets, outcome)
    requires name.CStr? && !(GlobalKey(name) in m.globals && IsFunction(m.globals[GlobalKey(name)]))
    ensures var r := CallEffect(env, m, name, msgh, pop, args, rets, outcome);
      && !r.success && r.results == Defaults(rets)
      && r.after.stack == m.stack + [if GlobalKey(name) in m.globals then m.globals[GlobalKey(name)] else Nil]
  {
    var m1 := Fetched(m, name);
    assert m1.stack[|m1.stack| - 1] == m1.stack[|m.stack|];
    assert m1.stack == m1.stack[..|m.stack|] + [m1.stack[|m.stack|]];
  }

  /** When the global is a function, the state CallFunction leaves has the
      heap the called function left: its tables and its globals. */
  lemma {:induction false} CallInstallsHeap(env: LuaState, m: Machine, name: CString, msgh: int, pop: bool,
                                            args: seq<HostValue>, rets: seq<HostType>, outcome: CallOutcome)
    requires CanCall(env, m, name, msgh, args, rets, outcome)
    requires IsFunction(Fetched(m, name).stack[|m.stack|])
    ensures var r := CallEffect(env, m, name, msgh, pop, args, rets, outcome);
      && r.after.tables == outcome.heap.tables
      && r.after.globals == outcome.heap.globals
      && r.after.nextTable == outcome.heap.nextTable
  {
    var m1 := Fetched(m, name);
    assert m1.stack[|m1.stack| - 1] == m1.stack[|m.stack|];
  }

  /** The stack lua_pcall sees: with one slot per argument, the arguments
      sit directly above the fetched function, and what the call leaves
      replaces exactly those slots. */
  lemma {:induction false} CallFrame(m: Machine, name: CString, args: seq<HostValue>, rets: seq<HostType>, outcome: CallOutcome)
    requires name.CStr? && CanPushAll(Fetched(m, name).stack, args) && TotalPush(args) == |args|
    requires Fetched(m, name).OutcomeOk(outcome)
    ensures var m2 := PushAll(Fetched(m, name), args);
      && |args| + 1 <= |m2.stack|
      && m2.stack[|m.stack|] == Fetched(m, name).stack[|m.stack|]
      && m2.PCall(|args|, |rets|, outcome).stack ==
           m.stack + match outcome
                     case Returned(vs, _) => Adjust(vs, |rets|)
                     case Raised(_, e, _) => [e]
  {
    var m1 := Fetched(m, name);
    var m2 := PushAll(m1, args);
    assert m2.stack[..|m1.stack|] == m1.stack;
    assert m2.stack[|m.stack|] == m2.stack[..|m1.stack|][|m.stack|];
    assert m2.stack[..|m2.stack| - |args| - 1] == m1.stack[..|m.stack|];
  }

  /** Element k of out is the successful conversion, into a default value
      of type rets[k], of the slot at absolute position base + 1 + k. */
  predicate ResultsAbove(env: LuaState, s: seq<LuaValue>, base: int, rets: seq<HostType>, out: seq<HostValue>)
  {
    && |out| == |rets|
    && forall k :: 0 <= k < |rets| ==> ConvertsAt(env, s, base + 1 + k, Default(rets[k]), (out[k], true))
  }

  /** The tuple converted from the top n slots of s: element k comes from
      absolute position base + 1 + k. */
  lemma ResultsFromTop(env: LuaState, s: seq<LuaValue>, base: nat, rets: seq<HostType>, out: seq<HostValue>)
    requires |s| == base + |rets| && |out| == |rets|
    requires ConvertedFrom(env, s, |s|, Defaults(rets), out, |rets|, 0)
    ensures ResultsAbove(env, s, base, rets, out)
  {
    forall k | 0 <= k < |rets|
      ensures ConvertsAt(env, s, base + 1 + k, Default(rets[k]), (out[k], true))
    {
      assert |s| - (|rets| - 1 - k) == base + 1 + k;
      assert Defaults(rets)[k] == Default(rets[k]);
    }
  }

  /** A successful call converted every result from the state lua_pcall
      left, which with one slot per argument is the old stack followed by
      the adjusted results. */
  lemma CallSucceeded(env: LuaState, m: Machine, name: CString, msgh: int, pop: bool,
                      args: seq<HostValue>, rets: seq<HostType>, outcome: CallOutcome)
    requires CanCall(env, m, name, msgh, args, rets, outcome) && TotalPush(args) == |args|
    requires CallEffect(env, m, name, msgh, pop, args, rets, outcome).success
    ensures outcome.Returned?
    ensures var m3 := PushAll(Fetched(m, name), args).PCall(|args|, |rets|, outcome);
      && m3.stack == m.stack + Adjust(outcome.values, |rets|)
      && CanConvFrom(env, m3.stack, |m3.stack|, Defaults(rets), |rets|)
      && ConvFrom(env, m3.stack, |m3.stack|, Defaults(rets), |rets|).1
      && CallEffect(env, m, name, msgh, pop, args, rets, outcome).results
           == ConvFrom(env, m3.stack, |m3.stack|, Defaults(rets), |rets|).0
  {
    CallFrame(m, name, args, rets, outcome);
  }

  /** On success, result k is the conversion of the k-th value the call
      returned (adjusted to the number of results), provided every argument
      pushes one slot. */
  lemma {:induction false} CallResults(env: LuaState, m: Machine, name: CString, msgh: int, pop: bool,
                                       args: seq<HostValue>, rets: seq<HostType>, outcome: CallOutcome)
    requires CanCall(env, m, name, msgh, args, rets, outcome) && TotalPush(args) == |args|
    requires CallEffect(env, m, name, msgh, pop, args, rets, outcome).success
    ensures outcome.Returned?
    ensures ResultsAbove(env, m.stack + Adjust(outcome.values, |rets|), |m.stack|, rets,
                         CallEffect(env, m, name, msgh, pop, args, rets, outcome).results)
  {
    CallSucceeded(env, m, name, msgh, pop, args, rets, outcome);
    var after := m.stack + Adjust(outcome.values, |rets|);
    var out := CallEffect(env, m, name, msgh, pop, args, rets, outcome).results;
    ConvFromSuccess(env, after, |after|, Defaults(rets), |rets|);
    ResultsFromTop(env, after, |m.stack|, rets, out);
  }

  /** With pop set and one slot per argument, a successful call leaves the
      stack as it found it; without pop the results stay on top. */
  lemma {:induction false} CallBalanced(env: LuaState, m: Machine, name: CString, msgh: int, pop: bool,
                                        args: seq<HostValue>, rets: seq<HostType>, outcome: CallOutcome)
    requires CanCall(env, m, name, msgh, args, rets, outcome) && TotalPush(args) == |args|
    requires CallEffect(env, m, name, msgh, pop, args, rets, outcome).success
    ensures outcome.Returned?
    ensures pop ==> CallEffect(env, m, name, msgh, pop, args, rets, outcome).after.stack == m.stack
    ensures !pop ==> CallEffect(env, m, name, msgh, pop, args, rets, outcome).after.stack == m.stack + Adjust(outcome.values, |rets|)
  {
    CallSucceeded(env, m, name, msgh, pop, args, rets, outcome);
    var m3 := PushAll(Fetched(m, name), args).PCall(|args|, |rets|, outcome);
    assert m3.Pop(|rets|).stack == (m.stack + Adjust(outcome.values, |rets|))[..|m.stack|];
  }

  /** A conversion failure after a successful call leaves the results on the
      stack and returns the default tuple. */
  lemma {:induction false} ConversionFailureKeepsResults(env: LuaState, m: Machine, name: CString, msgh: int, pop: bool,
                                                         args: seq<HostValue>, rets: seq<HostType>, outcome: CallOutcome)
    requires CanCall(env, m, name, msgh, args, rets, outcome) && TotalPush(args) == |args|
    requires GlobalKey(name) in m.globals && IsFunction(m.globals[GlobalKey(name)])
    requires outcome.Returned?
    requires !CallEffect(env, m, name, msgh, pop, args, rets, outcome).success
    ensures var r := CallEffect(env, m, name, msgh, pop, args, rets, outcome);
      r.after.stack == m.stack + Adjust(outcome.values, |rets|) && r.results == Defaults(rets)
  {
    var m1 := Fetched(m, name);
    assert m1.stack[|m1.stack| - 1] == m1.stack[|m.stack|];
    CallFrame(m, name, args, rets, outcome);
  }

  /** lua_pcall is told sizeof...(args), not the number of slots pushed: a
      Variant holding a bool pushes nothing, so the call takes the fetched
      function as its argument and the caller's own slot below it as the
      function, which it consumes. */
  lemma NargsCountsArgumentsNotSlots(m: Machine)
    requires m.stack == [Int(5)] && m.globals == map[[102] := CFunc(1)] && m.tables == map[]
    ensures var name := CStr([102]);
      var m2 := PushAll(Fetched(m, name), [HVariant(VBool(true))]);
      && m2.stack == [Int(5), CFunc(1)]
      && m2.PCall(1, 0, Returned([], Heap(map[], m.globals, m.nextTable))).stack == []
  {
    var name := CStr([102]);
    assert GlobalKey(name) == [102] by {
      var b: Bytes := [102];
      assert b[1..] == [];
    }
    var m1 := Fetched(m, name);
    assert m1.stack == [Int(5), CFunc(1)];
    var args := [HVariant(VBool(true))];
    assert args[1..] == [];
    assert PushAll(m1, args) == PushAll(PushH(m1, args[0]), []);
  }

  /** GetGlobal pushes exactly one slot, the global (nil when unset), and
      converts from it. */
  lemma {:induction false} GetGlobalReads(m: Machine, name: CString)
    requires name.CStr? && m.Wf()
    ensures var m' := Fetched(m, name);
      && m'.Wf() && m'.stack == m.stack + [m'.stack[|m.stack|]]
      && Slot(m'.stack, |m'.stack|) == Slot(m'.stack, -1) == m'.stack[|m.stack|]
      && (GlobalKey(name) !in m.globals ==> m'.stack[|m.stack|] == Nil)
  {
    var m' := Fetched(m, name);
    assert m'.stack == m'.stack[..|m.stack|] + [m'.stack[|m.stack|]];
  }

  /** SetGlobal as written: the global becomes the slot that was on the top
      (unset if that was nil), not the value, and the value takes that
      slot's place on the stack. */
  lemma {:induction false} SetGlobalStoresOldTop(m: Machine, name: CString, value: HostValue)
    requires name.CStr? && |m.stack| >= 1 && CanPush(m.stack[..|m.stack| - 1], value)
    ensures var m' := SetGlobalEffect(m, name, value);
      var top := m.stack[|m.stack| - 1];
      && m'.stack == m.stack[..|m.stack| - 1] + Pushed(m.stack[..|m.stack| - 1], value)
      && (top != Nil ==> GlobalKey(name) in m'.globals && m'.globals[GlobalKey(name)] == top)
      && (top == Nil ==> GlobalKey(name) !in m'.globals)
      && (forall k :: k != GlobalKey(name) ==> (k in m'.globals <==> k in m.globals))
      && m'.tables == m.tables
  {
    var m1 := m.SetGlobal(GlobalKey(name));
    assert m1.stack == m.stack[..|m.stack| - 1];
  }

  /** So reading the global back after SetGlobal(name, 7) over a stack whose
      top is "x" gives "x", not 7. */
  lemma SetGlobalThenGetGlobal(m: Machine)
    requires m.stack == [Str([120])] && m.globals == map[]
    ensures var name := CStr([118]);
      var m' := Fetched(SetGlobalEffect(m, name, HInt(I64, 7)), name);
      m'.stack == [Int(7), Str([120])]
  {
    var name := CStr([118]);
    assert GlobalKey(name) == [118] by {
      var b: Bytes := [118];
      assert b[1..] == [];
    }
    var m1 := m.SetGlobal([118]);
    assert m1.stack == [] && m1.globals == map[[118] := Str([120])];
  }
}
