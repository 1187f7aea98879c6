// The C++ values the marshalling layer moves on and off the Lua stack, and
// what each StackPush / StackConv overload does with them at the level of
// values: Pushed gives the slots a push adds, Converted the out-parameter and
// the result a conversion produces.  The methods in the other modules are
// proved against these functions.

module Values {
  import opened LuaApi

  /* ---------------------------------------------------------------------- */
  /* Fixed-width integers                                                   */
  /* ---------------------------------------------------------------------- */

  /** uint8_t … int64_t, and hklua::Integer, that is lua_Integer (long
      long): as wide as int64_t but a distinct C++ type. */
  datatype IntKind = U8 | I8 | U16 | I16 | U32 | I32 | U64 | I64 | Integer

  function Modulus(k: IntKind): nat
  {
    match k
    case U8 => 0x100
    case I8 => 0x100
    case U16 => 0x1_0000
    case I16 => 0x1_0000
    case U32 => 0x1_0000_0000
    case I32 => 0x1_0000_0000
    case U64 => 0x1_0000_0000_0000_0000
    case I64 => 0x1_0000_0000_0000_0000
    case Integer => 0x1_0000_0000_0000_0000
  }

  predicate IsSigned(k: IntKind)
  {
    k.I8? || k.I16? || k.I32? || k.I64? || k.Integer?
  }

  function MinOf(k: IntKind): int
  {
    if IsSigned(k) then -(Modulus(k) / 2) else 0
  }

  function MaxOf(k: IntKind): int
  {
    if IsSigned(k) then Modulus(k) / 2 - 1 else Modulus(k) - 1
  }

  predicate InRange(k: IntKind, x: int)
  {
    MinOf(k) <= x <= MaxOf(k)
  }

  /** The C++ conversion of an integer value to the type k: reduction modulo
      2^bits into the range of k. */
  function Wrap(k: IntKind, x: int): (r: int)
    ensures InRange(k, r)
    ensures InRange(k, x) ==> r == x
  {
    var m := x % Modulus(k);
    if IsSigned(k) && m > MaxOf(k) then m - Modulus(k) else m
  }

  /** Every value of every integer type survives lua_pushinteger followed by
      lua_tointegerx back into the same type; for uint64_t values above the
      lua_Integer range this goes through a negative lua_Integer. */
  lemma IntegerRoundTrip(k: IntKind, x: int)
    requires InRange(k, x)
    ensures InRange(Integer, Wrap(Integer, x))
    ensures Wrap(k, Wrap(Integer, x)) == x
  {
    if k == U64 && x > MaxOf(Integer) {
      assert Wrap(Integer, x) == x - Modulus(U64);
    }
  }

  /* ---------------------------------------------------------------------- */
  /* C strings                                                              */
  /* ---------------------------------------------------------------------- */

  /** char const*: NULL, or the bytes stored at the pointer.  Reading it as a
      C string stops at the first NUL byte. */
  datatype CString = Null | CStr(chars: Bytes)

  /** The C string starting at the given bytes: everything before the first NUL. */
  function UpToNul(b: Bytes): (r: Bytes)
    ensures r <= b
    ensures 0 !in r
    ensures |r| < |b| ==> b[|r|] == 0
  {
    if b == [] || b[0] == 0 then [] else [b[0]] + UpToNul(b[1..])
  }

  /** A byte string without NUL is its own C string. */
  lemma {:induction false} UpToNulNoNul(b: Bytes)
    requires 0 !in b
    ensures UpToNul(b) == b
  {
    if b != [] {
      UpToNulNoNul(b[1..]);
    }
  }

  /** The slot lua_pushstring makes of a C string: nil for NULL. */
  function CStringSlot(s: CString): LuaValue
  {
    match s
    case Null => Nil
    case CStr(b) => Str(UpToNul(b))
  }

  /* ---------------------------------------------------------------------- */
  /* The table handle and the Variant                                       */
  /* ---------------------------------------------------------------------- */

  /** hklua::Table: a non-owning {env, index} handle.  index 0 is "unset". */
  datatype Table = Table(env: LuaState?, index: int)

  /** HKVariantType. */
  datatype VariantType = HkUnset | HkInt | HkBoolean | HkNumber | HkCString | HkString | HkFunction | HkTable | HkNil

  /** The value a Variant holds: its tag and the union member that tag makes
      readable.  No constructor of Variant produces HK_STRING; the tag exists
      and is kept here. */
  datatype VariantValue =
    | Unset
    | VInt(i: LuaInteger)
    | VBool(b: bool)
    | VNumber(n: Number)
    | VCString(s: CString)
    | VString
    | VFunction(f: nat)
    | VTable(t: Table)
    | VNil

  function Tag(v: VariantValue): VariantType
  {
    match v
    case Unset => HkUnset
    case VInt(_) => HkInt
    case VBool(_) => HkBoolean
    case VNumber(_) => HkNumber
    case VCString(_) => HkCString
    case VString => HkString
    case VFunction(_) => HkFunction
    case VTable(_) => HkTable
    case VNil => HkNil
  }

  /* ---------------------------------------------------------------------- */
  /* Host values: one constructor per family of overloads                   */
  /* ---------------------------------------------------------------------- */

  datatype HostValue =
    | HInt(kind: IntKind, x: int)        // uint8_t … int64_t, Integer
    | HNumber(n: Number)                 // float, double
    | HCString(s: CString)               // char const*
    | HString(bytes: Bytes)              // std::string
    | HBool(b: bool)
    | HCFunction(f: nat)                 // lua_CFunction, 0 is NULL
    | HNil                               // the Nil marker
    | HTable(t: Table)
    | HVariant(v: VariantValue)
    | HVI(data: HostValue, isNil: bool)  // VI<T>

  /** The static C++ type of a host value. */
  datatype HostType =
    | IntT(kind: IntKind)
    | NumberT
    | CStringT
    | StringT
    | BoolT
    | CFunctionT
    | NilT
    | TableT
    | VariantT
    | VIT(inner: HostType)

  function TypeOfHost(h: HostValue): HostType
  {
    match h
    case HInt(k, _) => IntT(k)
    case HNumber(_) => NumberT
    case HCString(_) => CStringT
    case HString(_) => StringT
    case HBool(_) => BoolT
    case HCFunction(_) => CFunctionT
    case HNil => NilT
    case HTable(_) => TableT
    case HVariant(_) => VariantT
    case HVI(d, _) => VIT(TypeOfHost(d))
  }

  /** The value-initialised object of a type, as std::tuple<Rets...>{} makes
      its elements: zero, NULL, empty, the unset handle, the unset Variant. */
  function Default(t: HostType): (h: HostValue)
    ensures TypeOfHost(h) == t
    ensures h.HVI? ==> !h.isNil
  {
    match t
    case IntT(k) => HInt(k, 0)
    case NumberT => HNumber(FromInteger(0))
    case CStringT => HCString(Null)
    case StringT => HString([])
    case BoolT => HBool(false)
    case CFunctionT => HCFunction(0)
    case NilT => HNil
    case TableT => HTable(Table(null, 0))
    case VariantT => HVariant(Unset)
    case VIT(inner) => HVI(Default(inner), false)
  }

  /* ---------------------------------------------------------------------- */
  /* StackPush                                                              */
  /* ---------------------------------------------------------------------- */

  /** A handle can be pushed when it is unset or addresses a live slot. */
  predicate CanPushTable(stack: seq<LuaValue>, t: Table)
  {
    t.index == 0 || ValidIndex(|stack|, t.index)
  }

  predicate CanPush(stack: seq<LuaValue>, h: HostValue)
  {
    match h
    case HInt(k, x) => InRange(k, x)
    case HTable(t) => CanPushTable(stack, t)
    case HVariant(v) => v.VTable? ==> CanPushTable(stack, v.t)
    case HVI(d, isNil) => isNil || CanPush(stack, d)
    case _ => true
  }

  /** StackPush(Table): an unset handle pushes nothing, any other duplicates
      the slot at its index. */
  function TableSlots(stack: seq<LuaValue>, t: Table): seq<LuaValue>
    requires CanPushTable(stack, t)
  {
    if t.index == 0 then [] else [Slot(stack, t.index)]
  }

  /** StackPush(Variant): the switch has no case for HK_BOOLEAN, HK_UNSET
      and HK_STRING, so those push nothing. */
  function VariantSlots(stack: seq<LuaValue>, v: VariantValue): seq<LuaValue>
    requires v.VTable? ==> CanPushTable(stack, v.t)
  {
    match v
    case VInt(i) => [Int(i)]
    case VNumber(n) => [Num(n)]
    case VCString(s) => [CStringSlot(s)]
    case VFunction(f) => [CFunc(f)]
    case VTable(t) => TableSlots(stack, t)
    case VNil => [Nil]
    case _ => []
  }

  /** How many slots StackPush adds for a host value; it depends on the
      value only, not on the stack. */
  function PushCount(h: HostValue): nat
  {
    match h
    case HTable(t) => if t.index == 0 then 0 else 1
    case HVariant(v) =>
      if v.VBool? || v.Unset? || v.VString? || (v.VTable? && v.t.index == 0) then 0 else 1
    case HVI(d, isNil) => if isNil then 1 else PushCount(d)
    case _ => 1
  }

  /** The slots StackPush(env, h) adds on top of the stack.  Integers go
      through lua_pushinteger (so through lua_Integer), bool is pushed
      negated because the source passes `b ? 0 : 1`, a C string goes
      through lua_pushstring. */
  function Pushed(stack: seq<LuaValue>, h: HostValue): (r: seq<LuaValue>)
    requires CanPush(stack, h)
    ensures |r| == PushCount(h) && |r| <= 1
    ensures forall i :: 0 <= i < |r| && r[i].TableRef? ==> r[i] in stack
  {
    match h
    case HInt(_, x) => [Int(Wrap(Integer, x))]
    case HNumber(n) => [Num(n)]
    case HCString(s) => [CStringSlot(s)]
    case HString(b) => [Str(b)]
    case HBool(b) => [Bool(if b then false else true)]
    case HCFunction(f) => [CFunc(f)]
    case HNil => [Nil]
    case HTable(t) => TableSlots(stack, t)
    case HVariant(v) => VariantSlots(stack, v)
    case HVI(d, isNil) => if isNil then [Nil] else Pushed(stack, d)
  }

  /** Pushed slots never introduce a dangling table reference. */
  lemma PushedRefOk(m: Machine, h: HostValue)
    requires m.Wf() && CanPush(m.stack, h)
    ensures forall i :: 0 <= i < |Pushed(m.stack, h)| ==> RefOk(m.tables, Pushed(m.stack, h)[i])
  {
    var r := Pushed(m.stack, h);
    forall i | 0 <= i < |r| ensures RefOk(m.tables, r[i]) {
      if r[i].TableRef? {
        var j :| 0 <= j < |m.stack| && m.stack[j] == r[i];
        assert RefOk(m.tables, m.stack[j]);
      }
    }
  }

  /* ---------------------------------------------------------------------- */
  /* StackConv                                                              */
  /* ---------------------------------------------------------------------- */

  /** The types that have a StackConv overload (there is none for Nil). */
  predicate Convertible(h: HostValue)
  {
    match h
    case HNil => false
    case HVI(d, _) => Convertible(d)
    case _ => true
  }

  /** Whether a conversion exists is a matter of the type alone. */
  lemma {:induction false} ConvertibleByType(a: HostValue, b: HostValue)
    requires TypeOfHost(a) == TypeOfHost(b)
    ensures Convertible(a) <==> Convertible(b)
  {
    if a.HVI? {
      ConvertibleByType(a.data, b.data);
    }
  }

  /** Where a conversion does not reach assert(false): StackConv(Variant&)
      asserts on a slot of a type it has no case for. */
  predicate ConvDefined(slot: LuaValue, h: HostValue)
  {
    match h
    case HVariant(_) => TypeOf(slot) != TypeOther
    case HVI(d, _) => slot.Nil? || ConvDefined(slot, d)
    case _ => true
  }

  /** StackConv(env, index, Variant&): the tag is chosen from lua_type (and
      lua_isinteger for numbers) before the inner conversion runs, so a Lua
      function slot leaves HK_FUNCTION with a NULL pointer and a false result. */
  function VariantConverted(env: LuaState, slot: LuaValue, index: int): (r: (VariantValue, bool))
    requires TypeOf(slot) != TypeOther
    ensures Tag(r.0) == match TypeOf(slot)
                        case TypeNumber => if slot.Int? then HkInt else HkNumber
                        case TypeBoolean => HkBoolean
                        case TypeString => HkCString
                        case TypeFunction => HkFunction
                        case TypeTable => HkTable
                        case _ => HkNil
    ensures r.1 <==> !(TypeOf(slot) == TypeFunction && (slot.LuaFunc? || slot.ptr == 0))
  {
    match slot
    case Int(i) => (VInt(i), true)
    case Num(n) => (VNumber(n), true)
    case Bool(b) => (VBool(b), true)
    case Str(s) => (VCString(CStr(s)), true)
    case CFunc(p) => (VFunction(p), p != 0)
    case LuaFunc(_) => (VFunction(0), false)
    case TableRef(_) => (VTable(Table(env, index)), true)
    case Nil => (VNil, true)
  }

  /** StackConv(env, index, out) for the slot at index: the new value of the
      out-parameter and the result.  Integer conversions store
      lua_tointegerx's value (0 on failure) and return its isnum flag;
      std::string appends; bool always succeeds; a table handle is rebound
      to (env, index) with index as given; VI<T> on nil sets is_nil and
      keeps data, otherwise converts data and keeps is_nil. */
  function Converted(env: LuaState, stack: seq<LuaValue>, index: int, h: HostValue): (r: (HostValue, bool))
    requires ValidIndex(|stack|, index) && Convertible(h) && ConvDefined(Slot(stack, index), h)
    ensures TypeOfHost(r.0) == TypeOfHost(h)
    decreases h
  {
    var slot := Slot(stack, index);
    match h
    case HInt(k, _) =>
      if slot.Int? then (HInt(k, Wrap(k, slot.i)), true) else (HInt(k, 0), false)
    case HNumber(_) =>
      if slot.Num? then (HNumber(slot.n), true)
      else if slot.Int? then (HNumber(FromInteger(slot.i)), true)
      else (HNumber(FromInteger(0)), false)
    case HCString(_) =>
      if slot.Str? then (HCString(CStr(slot.s)), true) else (HCString(Null), false)
    case HString(b) =>
      if slot.Str? then (HString(b + slot.s), true) else (h, false)
    case HBool(_) => (HBool(Truthy(slot)), true)
    case HCFunction(_) =>
      if slot.CFunc? then (HCFunction(slot.ptr), slot.ptr != 0) else (HCFunction(0), false)
    case HTable(_) =>
      if slot.TableRef? then (HTable(Table(env, index)), true) else (h, false)
    case HVariant(_) =>
      var (v', ok) := VariantConverted(env, slot, index);
      (HVariant(v'), ok)
    case HVI(d, isNil) =>
      if slot.Nil? then (HVI(d, true), true)
      else
        var (d', ok) := Converted(env, stack, index, d);
        (HVI(d', isNil), ok)
  }

  /* ---------------------------------------------------------------------- */
  /* Push followed by convert                                               */
  /* ---------------------------------------------------------------------- */

  /** Pushes exactly one nil slot. */
  predicate PushesNil(h: HostValue)
  {
    match h
    case HNil => true
    case HCString(s) => s.Null?
    case HVariant(v) => v.VNil? || v == VCString(Null)
    case HVI(d, isNil) => isNil || PushesNil(d)
    case _ => false
  }

  /** Host values whose push is read back by a conversion into the same
      type: everything but tables, NULL strings and pointers, and the
      Variant tags the push leaves out. */
  predicate RoundTrips(h: HostValue)
  {
    match h
    case HInt(_, _) => true
    case HNumber(_) => true
    case HCString(s) => s.CStr?
    case HString(_) => true
    case HBool(_) => true
    case HCFunction(f) => f != 0
    case HNil => false
    case HTable(_) => false
    case HVariant(v) =>
      v.VInt? || v.VNumber? || v.VNil? || (v.VCString? && v.s.CStr?) || (v.VFunction? && v.f != 0)
    case HVI(d, isNil) => Convertible(d) && (isNil || RoundTrips(d))
  }

  /** What converting the just-pushed h into target gives, case by case:
      the value itself, except that bool comes back negated, a C string
      stops at its first NUL, std::string is appended to the target, and
      VI<T> reports nil whenever the inner value pushed nil. */
  function ReadBack(h: HostValue, target: HostValue): HostValue
    requires RoundTrips(h) && TypeOfHost(target) == TypeOfHost(h)
  {
    match h
    case HCString(s) => HCString(CStr(UpToNul(s.chars)))
    case HString(b) => HString(target.bytes + b)
    case HBool(b) => HBool(!b)
    case HVariant(v) =>
      if v.VCString? then HVariant(VCString(CStr(UpToNul(v.s.chars)))) else h
    case HVI(d, isNil) =>
      if isNil || PushesNil(d) then HVI(target.data, true)
      else HVI(ReadBack(d, target.data), target.isNil)
    case _ => h
  }

  lemma {:induction false} PushesNilSlot(stack: seq<LuaValue>, h: HostValue)
    requires CanPush(stack, h) && (PushesNil(h) || RoundTrips(h))
    ensures PushesNil(h) <==> Pushed(stack, h) == [Nil]
    ensures |Pushed(stack, h)| == 1
  {
    match h
    case HVI(d, isNil) =>
      if !isNil {
        PushesNilSlot(stack, d);
      }
    case HCString(s) =>
      if s.CStr? {
        assert Pushed(stack, h) == [Str(UpToNul(s.chars))];
      }
    case _ =>
  }

  /** StackPush(env, h) followed by StackConv(env, -1, target) yields
      ReadBack(h, target) and succeeds. */
  lemma {:induction false} PushThenConvert(env: LuaState, stack: seq<LuaValue>, h: HostValue, target: HostValue)
    requires CanPush(stack, h) && RoundTrips(h) && TypeOfHost(target) == TypeOfHost(h)
    ensures |stack + Pushed(stack, h)| == |stack| + 1
    ensures Convertible(target) && ConvDefined(Slot(stack + Pushed(stack, h), -1), target)
    ensures Converted(env, stack + Pushed(stack, h), -1, target) == (ReadBack(h, target), true)
  {
    PushesNilSlot(stack, h);
    ConvertibleByType(h, target);
    var s' := stack + Pushed(stack, h);
    assert Slot(s', -1) == Pushed(stack, h)[0];
    match h
    case HInt(k, x) =>
      IntegerRoundTrip(k, x);
    case HVI(d, isNil) =>
      if !isNil && !PushesNil(d) {
        PushesNilSlot(stack, d);
        PushThenConvert(env, stack, d, target.data);
      }
    case HCString(s) =>
    case _ =>
  }
}
