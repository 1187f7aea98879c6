// hklua/variant.h: the Variant tagged union, StackPush(Variant) and
// StackConv(Variant&).  The Proxy of Table::operator[] is in Proxies.
//
// The object keeps the tag and one field per union member.  In C++ the
// members overlap; only the member the tag names is ever read (every ToX
// asserts the tag), so keeping them apart changes nothing observable.

module Variants {
  import opened LuaApi
  import opened Values
  import Stack
  import TableHandle

  /** Everything a Variant object stores. */
  datatype VariantState = VariantState(
    tag: VariantType,
    integer: LuaInteger,
    boolean: bool,
    number: Number,
    cstr: CString,
    func: nat,
    table: Table)

  /** The union after Variant(Variant&&)'s mem-initialiser table_(nullptr):
      every byte of the payload is zero. */
  const Cleared := VariantState(HkUnset, 0, false, Number.FromInteger(0), Null, 0, Table(null, 0))

  /** What a stored state means: the tag and the member it makes readable. */
  function ValueOf(s: VariantState): (v: VariantValue)
    ensures Tag(v) == s.tag
  {
    match s.tag
    case HkUnset => Unset
    case HkInt => VInt(s.integer)
    case HkBoolean => VBool(s.boolean)
    case HkNumber => VNumber(s.number)
    case HkCString => VCString(s.cstr)
    case HkString => VString
    case HkFunction => VFunction(s.func)
    case HkTable => VTable(s.table)
    case HkNil => VNil
  }

  /** Setting the tag of v and the one member v carries; every other member
      keeps its bytes (assigning Nil writes the tag only). */
  function WithValue(s: VariantState, v: VariantValue): (r: VariantState)
    ensures ValueOf(r) == v
    ensures v.Unset? || v.VNil? || v.VString? ==> r == s.(tag := Tag(v))
  {
    match v
    case VInt(i) => s.(tag := HkInt, integer := i)
    case VBool(b) => s.(tag := HkBoolean, boolean := b)
    case VNumber(n) => s.(tag := HkNumber, number := n)
    case VCString(c) => s.(tag := HkCString, cstr := c)
    case VFunction(f) => s.(tag := HkFunction, func := f)
    case VTable(t) => s.(tag := HkTable, table := t)
    case _ => s.(tag := Tag(v))
  }

  class Variant {
    var tag: VariantType
    var integer: LuaInteger
    var boolean: bool
    var number: Number
    var cstr: CString
    var func: nat
    var table: Table

    function State(): VariantState
      reads this
    {
      VariantState(tag, integer, boolean, number, cstr, func, table)
    }

    function Value(): VariantValue
      reads this
    {
      ValueOf(State())
    }

    /** Variant(): HK_UNSET; the payload is left uninitialised in C++. */
    constructor ()
      ensures Value() == Unset
    {
      tag, integer, boolean, number, cstr, func, table := HkUnset, 0, false, Number.FromInteger(0), Null, 0, Table(null, 0);
    }

    /** Variant(Nil), Variant(bool), Variant(Integer), Variant(Number),
        Variant(char const*), Variant(lua_CFunction), Variant(Table): the tag
        of the argument's kind and the argument as payload. */
    constructor FromNil()
      ensures Value() == VNil
    {
      tag, integer, boolean, number, cstr, func, table := HkNil, 0, false, Number.FromInteger(0), Null, 0, Table(null, 0);
    }

    constructor FromBool(b: bool)
      ensures Value() == VBool(b)
    {
      tag, integer, boolean, number, cstr, func, table := HkBoolean, 0, b, Number.FromInteger(0), Null, 0, Table(null, 0);
    }

    constructor FromInteger(i: LuaInteger)
      ensures Value() == VInt(i)
    {
      tag, integer, boolean, number, cstr, func, table := HkInt, i, false, Number.FromInteger(0), Null, 0, Table(null, 0);
    }

    constructor FromNumber(n: Number)
      ensures Value() == VNumber(n)
    {
      tag, integer, boolean, number, cstr, func, table := HkNumber, 0, false, n, Null, 0, Table(null, 0);
    }

    constructor FromCString(s: CString)
      ensures Value() == VCString(s)
    {
      tag, integer, boolean, number, cstr, func, table := HkCString, 0, false, Number.FromInteger(0), s, 0, Table(null, 0);
    }

    constructor FromCFunction(f: nat)
      ensures Value() == VFunction(f)
    {
      tag, integer, boolean, number, cstr, func, table := HkFunction, 0, false, Number.FromInteger(0), Null, f, Table(null, 0);
    }

    constructor FromTable(t: Table)
      ensures Value() == VTable(t)
    {
      tag, integer, boolean, number, cstr, func, table := HkTable, 0, false, Number.FromInteger(0), Null, 0, t;
    }

    /** A Variant holding a given value, whichever constructor makes it. */
    constructor FromValue(v: VariantValue)
      ensures Value() == v
    {
      var s := WithValue(Cleared, v);
      tag, integer, boolean, number, cstr, func, table := s.tag, s.integer, s.boolean, s.number, s.cstr, s.func, s.table;
    }

    /** Variant(Variant const&): the tag and every payload byte are copied. */
    constructor Copy(rhs: Variant)
      ensures State() == rhs.State()
    {
      tag, integer, boolean, number, cstr, func, table := rhs.tag, rhs.integer, rhs.boolean, rhs.number, rhs.cstr, rhs.func, rhs.table;
    }

    /** Variant(Variant&&): start cleared, then swap with the source, which
        is left HK_UNSET with a zeroed payload. */
    constructor Move(rhs: Variant)
      modifies rhs
      ensures State() == old(rhs.State())
      ensures rhs.State() == Cleared
    {
      tag, integer, boolean, number, cstr, func, table := HkUnset, 0, false, Number.FromInteger(0), Null, 0, Table(null, 0);
      new;
      Swap(rhs);
    }

    /** operator=(Variant const&): Variant(rhs).swap(*this). */
    method AssignCopy(rhs: Variant)
      modifies this
      ensures State() == old(rhs.State())
      ensures rhs.State() == old(rhs.State())
    {
      var tmp := new Variant.Copy(rhs);
      tmp.Swap(this);
    }

    /** operator=(Variant&&): swap, so the source receives the old value. */
    method AssignMove(rhs: Variant)
      modifies this, rhs
      ensures State() == old(rhs.State())
      ensures rhs.State() == old(State())
    {
      Swap(rhs);
    }

    method AssignInteger(i: LuaInteger)
      modifies this
      ensures State() == WithValue(old(State()), VInt(i))
    {
      tag := HkInt;
      integer := i;
    }

    method AssignBool(b: bool)
      modifies this
      ensures State() == WithValue(old(State()), VBool(b))
    {
      tag := HkBoolean;
      boolean := b;
    }

    method AssignNumber(n: Number)
      modifies this
      ensures State() == WithValue(old(State()), VNumber(n))
    {
      tag := HkNumber;
      number := n;
    }

    method AssignCString(s: CString)
      modifies this
      ensures State() == WithValue(old(State()), VCString(s))
    {
      tag := HkCString;
      cstr := s;
    }

    method AssignCFunction(f: nat)
      modifies this
      ensures State() == WithValue(old(State()), VFunction(f))
    {
      tag := HkFunction;
      func := f;
    }

    method AssignTable(t: Table)
      modifies this
      ensures State() == WithValue(old(State()), VTable(t))
    {
      tag := HkTable;
      table := t;
    }

    /** operator=(Nil) writes the tag only. */
    method AssignNil()
      modifies this
      ensures State() == WithValue(old(State()), VNil)
    {
      tag := HkNil;
    }

    /** The accessors assert the tag and hand back the member. */
    function ToInteger(): (i: LuaInteger)
      reads this
      requires tag == HkInt
      ensures Value() == VInt(i)
    {
      integer
    }

    function ToBoolean(): (b: bool)
      reads this
      requires tag == HkBoolean
      ensures Value() == VBool(b)
    {
      boolean
    }

    function ToNumber(): (n: Number)
      reads this
      requires tag == HkNumber
      ensures Value() == VNumber(n)
    {
      number
    }

    function ToCString(): (s: CString)
      reads this
      requires tag == HkCString
      ensures Value() == VCString(s)
    {
      cstr
    }

    function ToCFunction(): (f: nat)
      reads this
      requires tag == HkFunction
      ensures Value() == VFunction(f)
    {
      func
    }

    function ToTable(): (t: Table)
      reads this
      requires tag == HkTable
      ensures Value() == VTable(t)
    {
      table
    }

    /** ToNil() returns the lua_nil marker. */
    function ToNil(): (h: HostValue)
      reads this
      requires tag == HkNil
      ensures Value() == VNil && h == HNil
    {
      HNil
    }

    /** type(). */
    function Type(): (t: VariantType)
      reads this
      ensures t == Tag(Value())
    {
      tag
    }

    /** swap: the tags and all payload bytes change places; swapping an
        object with itself leaves it as it was. */
    method Swap(rhs: Variant)
      modifies this, rhs
      ensures State() == old(rhs.State())
      ensures rhs.State() == old(State())
    {
      var t := tag;
      tag := rhs.tag;
      rhs.tag := t;
      var s := State();
      var r := rhs.State();
      integer, boolean, number, cstr, func, table := r.integer, r.boolean, r.number, r.cstr, r.func, r.table;
      rhs.integer, rhs.boolean, rhs.number, rhs.cstr, rhs.func, rhs.table := s.integer, s.boolean, s.number, s.cstr, s.func, s.table;
    }
  }

  /** Swapping twice restores both objects. */
  method SwapTwice(a: Variant, b: Variant)
    modifies a, b
    ensures a.State() == old(a.State()) && b.State() == old(b.State())
  {
    a.Swap(b);
    a.Swap(b);
  }

  /** A moved-from Variant holds HK_UNSET, and the new one holds the old value. */
  method MoveConstruct(src: Variant) returns (dst: Variant)
    modifies src
    ensures fresh(dst)
    ensures dst.Value() == old(src.Value()) && src.Value() == Unset
  {
    dst := new Variant.Move(src);
  }

  /** StackPush(env, Variant): a switch on the tag with cases for INT,
      NUMBER, CSTRING, FUNCTION, TABLE and NIL only. */
  method PushVariant(env: LuaState, v: VariantValue)
    requires env.Valid() && (v.VTable? ==> CanPushTable(env.stack, v.t))
    modifies env
    ensures env.Valid()
    ensures env.Snapshot() == old(env.Snapshot()).Push(VariantSlots(old(env.stack), v))
  {
    match v
    case VInt(i) =>
      Stack.PushInteger(env, Integer, i);
    case VNumber(n) =>
      Stack.PushNumber(env, n);
    case VCString(s) =>
      Stack.PushCString(env, s);
    case VFunction(f) =>
      Stack.PushCFunction(env, f);
    case VTable(t) =>
      TableHandle.PushTable(env, t);
    case VNil =>
      Stack.PushNil(env);
    case _ =>
      assert env.Snapshot().Push([]) == env.Snapshot();
  }

  /** StackConv(env, index, Variant&): the tag is chosen from lua_type (and
      lua_isinteger) and written before the matching inner conversion runs;
      a nil slot only sets the tag.  Any other Lua type reaches assert(false). */
  method ConvVariant(env: LuaState, index: int, target: Variant) returns (ok: bool)
    requires ValidIndex(|env.stack|, index) && TypeOf(Slot(env.stack, index)) != TypeOther
    modifies target
    ensures target.State() == WithValue(old(target.State()), VariantConverted(env, Slot(env.stack, index), index).0)
    ensures ok == VariantConverted(env, Slot(env.stack, index), index).1
  {
    var slot := Slot(env.stack, index);
    var t := TypeOf(slot);
    if t == TypeNumber {
      if slot.Int? {
        target.tag := HkInt;
        var i;
        i, ok := Stack.ConvInteger(env, index, Integer);
        target.integer := i;
        return;
      }
      target.tag := HkNumber;
      target.number, ok := Stack.ConvNumber(env, index);
    } else if t == TypeBoolean {
      target.tag := HkBoolean;
      target.boolean, ok := Stack.ConvBoolean(env, index);
    } else if t == TypeString {
      target.tag := HkCString;
      target.cstr, ok := Stack.ConvCString(env, index);
    } else if t == TypeFunction {
      target.tag := HkFunction;
      target.func, ok := Stack.ConvCFunction(env, index);
    } else if t == TypeTable {
      target.tag := HkTable;
      target.table, ok := TableHandle.ConvTable(env, index, target.table);
    } else {
      target.tag := HkNil;
      ok := true;
    }
  }

  /** StackConv into a Variant object that held v. */
  method ConvVariantValue(env: LuaState, index: int, v: VariantValue) returns (v': VariantValue, ok: bool)
    requires ValidIndex(|env.stack|, index) && TypeOf(Slot(env.stack, index)) != TypeOther
    ensures (v', ok) == VariantConverted(env, Slot(env.stack, index), index)
  {
    var target := new Variant.FromValue(v);
    ok := ConvVariant(env, index, target);
    v' := target.Value();
  }

  /** The tag a conversion leaves never depends on whether it succeeded: a
      Lua function slot gives HK_FUNCTION, a NULL pointer and false. */
  lemma {:induction false} LuaFunctionSlotTagged(env: LuaState, s: VariantState, id: nat, index: int)
    ensures var r := VariantConverted(env, LuaFunc(id), index);
      && WithValue(s, r.0).tag == HkFunction
      && WithValue(s, r.0).func == 0
      && !r.1
  {
  }
}
