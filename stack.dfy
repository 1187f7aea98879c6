// hklua/stack.h: the StackPush overloads for scalars (each adds one slot)
// and the StackConv overloads (each reads one slot into an out-parameter and
// leaves the stack alone).  VI<T> dispatches on T and lives in Dispatch.

module Stack {
  import opened LuaApi
  import opened Values

  /** StackPush for uint8_t … uint64_t and Integer: lua_pushinteger of the
      value converted to lua_Integer. */
  method PushInteger(env: LuaState, k: IntKind, i: int)
    requires env.Valid() && InRange(k, i)
    modifies env
    ensures env.Valid()
    ensures env.Snapshot() == old(env.Snapshot()).Push([Int(Wrap(Integer, i))])
  {
    env.Push(Int(Wrap(Integer, i)));
  }

  /** StackPush for float and double: lua_pushnumber. */
  method PushNumber(env: LuaState, n: Number)
    requires env.Valid()
    modifies env
    ensures env.Valid()
    ensures env.Snapshot() == old(env.Snapshot()).Push([Num(n)])
  {
    env.Push(Num(n));
  }

  /** StackPush(char const*): lua_pushstring copies up to the first NUL;
      a NULL pointer pushes nil. */
  method PushCString(env: LuaState, s: CString)
    requires env.Valid()
    modifies env
    ensures env.Valid()
    ensures env.Snapshot() == old(env.Snapshot()).Push([CStringSlot(s)])
  {
    env.Push(CStringSlot(s));
  }

  /** StackPush(std::string const&): lua_pushlstring copies every byte,
      NULs included. */
  method PushString(env: LuaState, s: Bytes)
    requires env.Valid()
    modifies env
    ensures env.Valid()
    ensures env.Snapshot() == old(env.Snapshot()).Push([Str(s)])
  {
    env.Push(Str(s));
  }

  /** StackPush(bool) passes `b ? 0 : 1` to lua_pushboolean, so it pushes
      the negation of b. */
  method PushBoolean(env: LuaState, b: bool)
    requires env.Valid()
    modifies env
    ensures env.Valid()
    ensures env.Snapshot() == old(env.Snapshot()).Push([Bool(!b)])
  {
    var flag := if b then 0 else 1;
    env.Push(Bool(flag != 0));
  }

  /** StackPush(lua_CFunction): lua_pushcfunction. */
  method PushCFunction(env: LuaState, f: nat)
    requires env.Valid()
    modifies env
    ensures env.Valid()
    ensures env.Snapshot() == old(env.Snapshot()).Push([CFunc(f)])
  {
    env.Push(CFunc(f));
  }

  /** StackPush(Nil): lua_pushnil. */
  method PushNil(env: LuaState)
    requires env.Valid()
    modifies env
    ensures env.Valid()
    ensures env.Snapshot() == old(env.Snapshot()).Push([Nil])
  {
    env.Push(Nil);
  }

  /** StackConv for the integer types: the result is lua_tointegerx's isnum
      flag, and the out-parameter is written even when that flag is 0 (with
      0).  A successful value is narrowed to the target type. */
  method ConvInteger(env: LuaState, index: int, k: IntKind) returns (i: int, ok: bool)
    requires ValidIndex(|env.stack|, index)
    ensures ok <==> Slot(env.stack, index).Int?
    ensures i == if ok then Wrap(k, Slot(env.stack, index).i) else 0
  {
    var v, isnum := env.ToIntegerX(index);
    i := Wrap(k, v);
    ok := isnum;
  }

  /** StackConv for float and double: lua_tonumberx; integers become floats,
      anything else gives 0 and false. */
  method ConvNumber(env: LuaState, index: int) returns (n: Number, ok: bool)
    requires ValidIndex(|env.stack|, index)
    ensures ok <==> TypeOf(Slot(env.stack, index)) == TypeNumber
    ensures n == match Slot(env.stack, index)
                 case Num(x) => x
                 case Int(x) => FromInteger(x)
                 case _ => FromInteger(0)
  {
    n, ok := env.ToNumberX(index);
  }

  /** StackConv(bool&) always returns true; the value follows Lua
      truthiness (only nil and false read as false). */
  method ConvBoolean(env: LuaState, index: int) returns (b: bool, ok: bool)
    requires ValidIndex(|env.stack|, index)
    ensures ok
    ensures !b <==> Slot(env.stack, index).Nil? || Slot(env.stack, index) == Bool(false)
  {
    b := env.ToBoolean(index);
    ok := true;
  }

  /** StackConv(char const*&): a pointer to the slot's bytes, NULL (and
      false) when the slot is not a string. */
  method ConvCString(env: LuaState, index: int) returns (s: CString, ok: bool)
    requires ValidIndex(|env.stack|, index)
    ensures ok <==> Slot(env.stack, index).Str?
    ensures ok <==> s != Null
    ensures ok ==> s.chars == Slot(env.stack, index).s
  {
    var present, bytes := env.ToLString(index);
    s := if present then CStr(bytes) else Null;
    ok := s != Null;
  }

  /** StackConv(std::string&) appends the slot's bytes to what the string
      already holds; on failure the string is left as it was. */
  method ConvString(env: LuaState, index: int, str: Bytes) returns (str': Bytes, ok: bool)
    requires ValidIndex(|env.stack|, index)
    ensures ok <==> Slot(env.stack, index).Str?
    ensures ok ==> str' == str + Slot(env.stack, index).s
    ensures !ok ==> str' == str
  {
    var present, bytes := env.ToLString(index);
    str' := str;
    if present {
      str' := str' + bytes;
    }
    ok := present;
  }

  /** StackConv(lua_CFunction&) succeeds only on a C function slot with a
      non-NULL pointer; the pointer is written in every case. */
  method ConvCFunction(env: LuaState, index: int) returns (f: nat, ok: bool)
    requires ValidIndex(|env.stack|, index)
    ensures ok <==> Slot(env.stack, index).CFunc? && Slot(env.stack, index).ptr != 0
    ensures f == if Slot(env.stack, index).CFunc? then Slot(env.stack, index).ptr else 0
  {
    f := env.ToCFunction(index);
    ok := f != 0;
  }
}
