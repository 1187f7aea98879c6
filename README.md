# hklua marshalling core in Dafny

hklua is a small C++ header library that moves C++ values on and off the
Lua 5.4 value stack. This project models its core:

- the `StackPush` / `StackConv` overloads (`hklua/stack.h`);
- the non-owning `Table` handle, its field operations and `TableGuard`
  (`hklua/table.h`);
- the `Variant` tagged union, its push and conversion, and the
  `Table::operator[]` proxy (`hklua/variant.h`);
- pushing an argument pack and converting a result tuple
  (`hklua/function.h`);
- the `Env` wrapper: globals, stack helpers and `CallFunction`
  (`hklua/env.h`).

The lua_State is abstract (module `LuaApi`). Its state is a value stack, a
heap of tables, the globals and the next free table id. The datatype
`Machine` holds that state as a value and has one member function per C API
primitive the library calls. The class `LuaState` holds the same fields;
each of its methods ensures `Snapshot() == old(Snapshot()).<primitive>(…)`.
Indices follow section 4.1 of the Lua 5.4 Reference Manual. What a called
function does is a parameter (`CallOutcome`), because the Lua virtual
machine is outside the model. The outcome carries the call's results or
its error, and the heap (tables, globals, next table id) the call leaves.

C++ values are the closed datatype `Values.HostValue`, with one constructor
per overload family. The function `Pushed` gives the slots a push adds.
The function `Converted` gives the out-parameter and the result a
conversion produces. Module `Dispatch` does the overload resolution. The
imperative wrappers (the `Env` class, `Variant`, `Table::Proxy`, the
field methods and the push/convert loops) are methods proved against
these functions. Lemmas then state what the functions do.

The model follows the code as written, including behaviour that looks
unintended:

- `StackPush(bool)` passes `b ? 0 : 1` to `lua_pushboolean`, so it pushes
  the negation.
- `StackPush(Variant)` has no case for `HK_BOOLEAN`, `HK_UNSET` or
  `HK_STRING`; those push nothing.
- `StackConv(Variant&)` sets the tag before the inner conversion runs. A
  Lua function therefore leaves `HK_FUNCTION` with a NULL pointer and
  returns false.
- `StackConv(std::string&)` appends to the string instead of replacing it.
- The integer conversions write 0 into the out-parameter on failure.
- `Table::GetField` leaves the value it read on the stack.
- `Env::SetGlobal` calls `lua_setglobal` before pushing the value. The
  global receives whatever was on top, and the value is left on the stack.
- `CallFunction` passes `sizeof...(args)` to `lua_pcall` as the argument
  count. That is the number of arguments, not the number of slots they
  pushed.

The model follows the code where a reader might expect otherwise.
`GetField` has no pop flag and never pops. A failed numeric
conversion does write the out-parameter. Stack balance across `GetField`
therefore does not hold.

## Model

| member | source | states |
|---|---|---|
| Values.Wrap | hklua/stack.h:17-28 | the C++ integer conversion lands in the target type's range and is the identity on values already in range |
| Values.IntegerRoundTrip | hklua/stack.h:77-93 | every value of every integer type survives lua_pushinteger followed by lua_tointegerx narrowed back to that type, uint64_t above 2^63 included |
| Values.UpToNul | hklua/stack.h:40-43 | the bytes lua_pushstring copies are a prefix of the input, contain no NUL and stop exactly at the first NUL |
| Values.UpToNulNoNul | hklua/stack.h:40-43 | a byte string without NUL is copied whole |
| Values.Default | hklua/env.h:321 | the value-initialised tuple element has the requested type, and a VI<T> starts with is_nil false |
| Values.Pushed | hklua/stack.h:17-75 | a push adds at most one slot, PushCount(h) of them, and adds no table reference that was not already on the stack |
| Values.ConvertibleByType | hklua/stack.h:77-150 | whether a StackConv overload exists depends only on the static type |
| Values.VariantConverted | hklua/variant.h:286-333 | the tag follows lua_type (integer vs float via lua_isinteger), and the conversion fails exactly for a Lua function or a NULL C function |
| Values.Converted | hklua/stack.h:77-150 | every StackConv overload leaves the out-parameter's type unchanged |
| Values.PushesNilSlot | hklua/stack.h:40-75 | the values that push nil are exactly those whose single pushed slot is nil |
| Values.PushThenConvert | hklua/stack.h:17-150 | StackPush(h) then StackConv at -1 succeeds and yields h, except that bool comes back negated, a C string stops at NUL, std::string appends and VI<T> reports nil when nil was pushed |
| Stack.PushInteger | hklua/stack.h:17-28 | pushes one integer slot holding the value converted to lua_Integer |
| Stack.PushNumber | hklua/stack.h:32-36 | pushes one number slot |
| Stack.PushCString | hklua/stack.h:40-43 | pushes the string up to its first NUL, or nil for NULL |
| Stack.PushString | hklua/stack.h:45-48 | pushes every byte of the std::string, NULs included |
| Stack.PushBoolean | hklua/stack.h:50-53 | pushes the negation of b |
| Stack.PushCFunction | hklua/stack.h:55-58 | pushes one C function slot |
| Stack.PushNil | hklua/stack.h:72-75 | pushes one nil slot |
| Stack.ConvInteger | hklua/stack.h:77-93 | succeeds iff the slot is an integer subtype (a float slot fails even when integral, see Left out); the out-parameter is the narrowed value, or 0 on failure |
| Stack.ConvNumber | hklua/stack.h:97-106 | succeeds iff the slot is a number; an integer becomes a float, and the out-parameter is 0 on failure |
| Stack.ConvBoolean | hklua/stack.h:110-115 | always succeeds; false iff the slot is nil or false |
| Stack.ConvCString | hklua/stack.h:117-121 | succeeds iff the slot is a string, and then points at its bytes; NULL otherwise |
| Stack.ConvString | hklua/stack.h:123-131 | succeeds iff the slot is a string; on success the bytes are appended to the old contents, and on failure the string is unchanged |
| Stack.ConvCFunction | hklua/stack.h:133-137 | succeeds iff the slot is a non-NULL C function; the pointer is written either way |
| TableHandle.CreateTable | hklua/table.h:202-208 | runs lua_createtable and returns a handle whose index is the new absolute top |
| TableHandle.CreateTableHandle | hklua/table.h:202-208 | exactly one slot is added; it names a fresh, empty table that no earlier slot refers to; every existing table is unchanged |
| TableHandle.ConvTable | hklua/table.h:210-223 | succeeds iff the slot is a table; the handle then becomes (env, index) with the index as given, otherwise it is untouched |
| TableHandle.PushTable | hklua/table.h:225-243 | an unset handle pushes nothing; otherwise the slot the handle addresses is duplicated on top |
| TableHandle.TableObject.constructor | hklua/table.h:42-52 | a Table variable holding the given handle |
| TableHandle.TableObject.Conv | hklua/table.h:210-223 | StackConv into the variable itself: it is rebound to (env, index) iff the slot is a table, otherwise it keeps its handle |
| TableHandle.TableGuard.constructor | hklua/table.h:250-253 | the guard refers to the Table variable itself, not to a copy of its handle |
| TableHandle.TableGuard.Release | hklua/table.h:255-266 | when the handle the variable holds at that moment is the top (absolute or -1), the destructor pops exactly one slot |
| Variants.ValueOf | hklua/variant.h:229-243 | the value read from a stored state carries that state's tag |
| Variants.WithValue | hklua/variant.h:116-163 | an assignment makes the object hold the assigned value; Nil writes the tag only |
| Variants.Variant.constructor | hklua/variant.h:30-33 | Variant() holds HK_UNSET |
| Variants.Variant.FromNil | hklua/variant.h:35-38 | Variant(Nil) holds nil |
| Variants.Variant.FromBool | hklua/variant.h:40-44 | Variant(bool) holds the bool |
| Variants.Variant.FromInteger | hklua/variant.h:46-50 | Variant(Integer) holds the integer |
| Variants.Variant.FromNumber | hklua/variant.h:52-56 | Variant(Number) holds the number |
| Variants.Variant.FromCString | hklua/variant.h:58-62 | Variant(char const*) holds the pointer |
| Variants.Variant.FromCFunction | hklua/variant.h:64-68 | Variant(lua_CFunction) holds the function |
| Variants.Variant.FromTable | hklua/variant.h:70-74 | Variant(Table) holds the handle |
| Variants.Variant.FromValue | hklua/variant.h:30-74 | some constructor produces any given value |
| Variants.Variant.Copy | hklua/variant.h:76-85 | the copy has the same tag and payload as the source |
| Variants.Variant.Move | hklua/variant.h:87-92 | the new object holds the source's old state, and the source is left HK_UNSET with a zeroed payload |
| Variants.Variant.AssignCopy | hklua/variant.h:94-107 | copy-and-swap: the target holds the source's state and the source is unchanged |
| Variants.Variant.AssignMove | hklua/variant.h:109-114 | move assignment swaps, so the source receives the old value |
| Variants.Variant.AssignInteger | hklua/variant.h:116-122 | sets the tag and the integer member only |
| Variants.Variant.AssignBool | hklua/variant.h:124-129 | sets the tag and the bool member only |
| Variants.Variant.AssignNumber | hklua/variant.h:131-136 | sets the tag and the number member only |
| Variants.Variant.AssignCString | hklua/variant.h:138-143 | sets the tag and the pointer member only |
| Variants.Variant.AssignCFunction | hklua/variant.h:145-150 | sets the tag and the function member only |
| Variants.Variant.AssignTable | hklua/variant.h:152-157 | sets the tag and the table member only |
| Variants.Variant.AssignNil | hklua/variant.h:159-163 | writes the tag only |
| Variants.Variant.ToInteger | hklua/variant.h:174-178 | under the asserted tag, returns the held integer |
| Variants.Variant.ToBoolean | hklua/variant.h:180-184 | under the asserted tag, returns the held bool |
| Variants.Variant.ToNumber | hklua/variant.h:186-190 | under the asserted tag, returns the held number |
| Variants.Variant.ToCString | hklua/variant.h:192-196 | under the asserted tag, returns the held pointer |
| Variants.Variant.ToCFunction | hklua/variant.h:198-202 | under the asserted tag, returns the held function |
| Variants.Variant.ToTable | hklua/variant.h:204-208 | under the asserted tag, returns the held handle |
| Variants.Variant.ToNil | hklua/variant.h:210-214 | under the asserted tag, returns the Nil marker |
| Variants.Variant.Type | hklua/variant.h:229 | type() is the tag of the held value |
| Variants.Variant.Swap | hklua/variant.h:216-227 | the tags and all payloads change places |
| Variants.SwapTwice | hklua/variant.h:216-227 | swapping twice restores both objects |
| Variants.MoveConstruct | hklua/variant.h:87-92 | the moved-from Variant holds HK_UNSET and the new one holds the old value |
| Variants.PushVariant | hklua/variant.h:262-284 | pushes the held value for INT, NUMBER, CSTRING, FUNCTION, TABLE and NIL, and nothing for the other tags |
| Variants.ConvVariant | hklua/variant.h:286-333 | the object's new state is the old one with the tag lua_type selects and the member the inner conversion wrote; the result is the inner conversion's |
| Variants.ConvVariantValue | hklua/variant.h:286-333 | converting into a Variant that held any value gives VariantConverted |
| Variants.LuaFunctionSlotTagged | hklua/variant.h:311-315 | a Lua function slot leaves HK_FUNCTION, a NULL pointer and false |
| Dispatch.PushH | hklua/stack.h:17-75 | StackPush appends exactly the pushed slots; tables and globals are unchanged, and well-formedness is kept |
| Dispatch.Push | hklua/stack.h:17-75 | every StackPush overload is the state PushH describes |
| Dispatch.PushVI | hklua/stack.h:63-70 | VI<T> pushes nil when is_nil is set, otherwise its data |
| Dispatch.Conv | hklua/stack.h:77-150 | every StackConv overload returns what Converted describes and leaves the stack alone |
| Dispatch.ConvVI | hklua/stack.h:142-150 | a nil slot sets is_nil and keeps data; otherwise data is converted and is_nil is kept |
| TableFields.SetTable | hklua/table.h:187-190 | lua_settable at the handle's index |
| TableFields.GetTable | hklua/table.h:192-195 | lua_gettable at the handle's index |
| TableFields.GenericSetField | hklua/table.h:97-103 | pushes the key, pushes the value, then runs lua_settable |
| TableFields.SetStringField | hklua/table.h:161-166 | pushes the value, then runs lua_setfield with the key up to its first NUL |
| TableFields.SetStringFieldString | hklua/table.h:168-172 | the std::string key goes through c_str(), so it ends at its first NUL |
| TableFields.SetFieldConstString | hklua/table.h:114-118 | a const std::string key takes the string path |
| TableFields.SetField | hklua/table.h:97-112 | a C string key takes lua_setfield; any other key takes the generic path |
| TableFields.GenericGetField | hklua/table.h:120-126 | pushes the key, runs lua_gettable, then converts at -1 without popping |
| TableFields.GetStringField | hklua/table.h:174-179 | runs lua_getfield, then converts at -1 without popping |
| TableFields.GetField | hklua/table.h:120-135 | a C string key takes lua_getfield; any other key takes the generic path |
| TableFields.PushedOnLongerStack | hklua/table.h:225-243 | a value whose push does not use a relative table index pushes the same slots on any longer stack |
| TableFields.GenericSetStores | hklua/table.h:97-103 | the stack is back where it was; the table maps the key slot to the value slot; no other key, table or global changes; an absolute index names the same table before and after |
| TableFields.StringSetStores | hklua/table.h:161-166 | the stack is back where it was and the table maps the string key to the value; nothing else changes |
| TableFields.StringSetIsGenericSet | hklua/table.h:108-118 | for a NUL-free key and an absolute index, the lua_setfield path and the generic std::string path leave the same state |
| TableFields.NulKeyStringPath | hklua/table.h:168-172 | a const std::string key "A\0B" is stored under "A" |
| TableFields.NulKeyGenericPath | hklua/table.h:97-103 | a non-const std::string key "A\0B" is stored under all three bytes |
| TableFields.GenericGetLeavesOne | hklua/table.h:120-126 | generic GetField adds exactly one slot, t[key], and leaves it; the field is converted from it |
| TableFields.StringGetLeavesOne | hklua/table.h:174-179 | string-key GetField adds exactly one slot, t[key], and leaves it; the field is converted from it |
| TableFields.StoredUnderKey | hklua/table.h:97-103 | after SetField through an absolute index, the same slot names the table, and the table holds the value under the key |
| TableFields.ReadStoredSlot | hklua/table.h:120-126 | generic GetField through an absolute index reads what the table holds under the pushed key |
| TableFields.SetThenGetSlot | hklua/table.h:97-126 | SetField then GetField with the same one-slot key leaves the stored value as one extra slot |
| TableFields.SetThenGet | hklua/table.h:97-126 | SetField then GetField: one extra slot, the stored value, and the field is converted from it |
| TableFields.GetFieldLeavesOne | hklua/table.h:120-135 | either GetField path adds exactly one slot, which stays; tables and globals are unchanged and the field is converted from that slot |
| Proxies.VariantOf | hklua/variant.h:383-387 | a Variant key is kept as it is, and a bool key becomes a boolean Variant |
| Proxies.VariantKeyPushes | hklua/variant.h:376 | the proxy's Variant key pushes what the original key pushed, except a bool key, which pushes nothing instead of its negation |
| Proxies.AssignEffect | hklua/variant.h:372-380 | the state after a proxy assignment is well formed |
| Proxies.Proxy.constructor | hklua/variant.h:342-346 | the proxy points at the Table variable (the object, not a copy of its handle) and holds the key and the value |
| Proxies.Proxy.MoveFrom | hklua/variant.h:349 | the defaulted move leaves both Variants of the source HK_UNSET |
| Proxies.Proxy.Assign | hklua/variant.h:372-380 | SetField with the Variant key through the handle the pointed-at variable holds now, then GetField into the proxy's value; table pointer and key are unchanged |
| Proxies.Proxy.MoveAssign | hklua/variant.h:355-360 | swaps the table pointer and the key/value pair |
| Proxies.StoreAndReadBack | hklua/variant.h:376-377 | the two field operations of the proxy assignment |
| Proxies.Index | hklua/variant.h:382-388 | operator[] reads the field into a default Variant and returns a fresh proxy pointing at the variable it was called on, with Variant(key) and the value read; the slot stays |
| Proxies.IndexLeavesOne | hklua/variant.h:382-388 | with a one-slot key, operator[] adds exactly one slot, and the proxy's value is that slot converted to a Variant |
| Proxies.AssignReadsBack | hklua/variant.h:372-380 | proxy assignment through an absolute index adds one slot, the stored value, and the proxy's value is that slot as a Variant |
| Proxies.AssignZ | hklua/variant.h:372-380 | assigning the C string "Z" through a proxy reads back the C string "Z" |
| Functions.PushAll | hklua/function.h:13-23 | pushing a pack adds TotalPush(args) slots above an unchanged prefix, and tables and globals are unchanged |
| Functions.StackPushMultiple | hklua/function.h:13-23 | the loop pushes each argument left to right and ends in the state PushAll describes |
| Functions.PushAllAppend | hklua/function.h:18-23 | pushing a pack in two parts is pushing the whole pack |
| Functions.PushAllOneEach | hklua/function.h:13-23 | arguments that push one slot each land one per slot, in order, above the old top |
| Functions.PushedAnywhere | hklua/stack.h:17-75 | a value without a table handle pushes the same slots on any stack |
| Functions.ConvFrom | hklua/function.h:25-43 | converting a tuple only writes elements below n and keeps every element's type |
| Functions.StackConvMultiple | hklua/function.h:45-51 | the loop converts element N-1 from index, N-2 from index-1 and so on, in place, and stops at the first failure, as ConvFrom describes |
| Functions.ConvertedFromCons | hklua/function.h:25-33 | one step of StackConvMultiple_impl extends the run of converted elements by the element it wrote |
| Functions.FailedAtCons | hklua/function.h:25-33 | a failure below index stays the failure of the whole run once element n-1 converted from index |
| Functions.ConvFromSuccess | hklua/function.h:25-43 | on success element k is the successful conversion of the slot at index-(n-1-k) |
| Functions.ConvFromFailure | hklua/function.h:25-33 | on failure exactly one element failed: the elements above it converted, and those below it are untouched |
| Functions.EmptyTupleConverts | hklua/function.h:35-43 | the empty tuple converts and reads nothing |
| Environment.Defaults | hklua/env.h:321 | the default tuple has one value-initialised element per result type |
| Environment.Fetched | hklua/env.h:311 | lua_getglobal pushes one slot, the global or nil |
| Environment.CallEffect | hklua/env.h:304-331 | CallFunction returns one value per result type with the declared types; a global that is not a function changes no table and no global; no table disappears, and a well-formed state with a well-formed outcome stays well formed |
| Environment.CallInstallsHeap | hklua/env.h:316-317 | once the function is called, the tables and globals afterwards are those the call left, whatever happens to its results |
| Environment.SetGlobalEffect | hklua/env.h:177-182 | SetGlobal removes the top slot and pushes the value in its place |
| Environment.Env.constructor | hklua/env.h:57-64 | a fresh, empty lua_State |
| Environment.Env.StackGetTop | hklua/env.h:193-196 | returns the stack height |
| Environment.Env.StackEmpty | hklua/env.h:206-209 | true iff the stack is empty |
| Environment.Env.StackPop | hklua/env.h:188-191 | lua_pop(n) pops n slots for n >= 0; a negative n sets the height to -n-1 |
| Environment.Env.StackPush | hklua/env.h:260-264 | the state PushH describes |
| Environment.Env.StackTo | hklua/env.h:266-270 | the conversion Converted describes |
| Environment.Env.GetGlobal | hklua/env.h:161-166 | pushes the global and converts from the absolute top; the global stays on the stack |
| Environment.Env.GetGlobalTable | hklua/env.h:294-301 | succeeds iff the global is a table, and then returns a handle at the absolute top; otherwise the unset handle |
| Environment.Env.SetGlobal | hklua/env.h:177-182 | lua_setglobal runs before the push, as SetGlobalEffect describes |
| Environment.Env.CallFunction | hklua/env.h:304-331 | the state, the tuple and the success flag are those CallEffect describes |
| Environment.CallSuccessIff | hklua/env.h:309-331 | success iff the global is a function, lua_pcall returned LUA_OK and every result converted; otherwise the default tuple comes back |
| Environment.NotAFunction | hklua/env.h:311-314 | when the global is not a function, nothing is called, the default tuple comes back and the fetched value stays on the stack |
| Environment.CallFrame | hklua/env.h:316-319 | with one slot per argument, lua_pcall replaces the function and its arguments by the adjusted results or the error object |
| Environment.ResultsFromTop | hklua/env.h:321-324 | the tuple converted from the top slots has element k from absolute position base+1+k |
| Environment.CallSucceeded | hklua/env.h:316-324 | a successful call converted its tuple from the old stack followed by the adjusted results |
| Environment.CallResults | hklua/env.h:321-330 | on success result k is the conversion of the k-th returned value, adjusted to the number of results |
| Environment.CallBalanced | hklua/env.h:326-328 | a successful call with pop leaves the stack as it found it; without pop the results stay on top |
| Environment.ConversionFailureKeepsResults | hklua/env.h:321-324 | a conversion failure leaves the results on the stack and returns the default tuple |
| Environment.NargsCountsArgumentsNotSlots | hklua/env.h:316-317 | a Variant bool argument pushes no slot, so lua_pcall takes the fetched function as the argument and consumes the caller's slot below it |
| Environment.GetGlobalReads | hklua/env.h:161-166 | GetGlobal pushes exactly one slot (nil when unset), and the absolute top and -1 both address it |
| Environment.SetGlobalStoresOldTop | hklua/env.h:177-182 | the global receives the slot that was on top (or is unset if that slot was nil), not the value; no other global changes |
| Environment.GuardedGlobal | hklua/table.h:248-270 | `TableGuard g(t)` followed by `GetGlobal(name, t)`: the guard sees t's new handle and its destructor pops the global, restoring the state |
| Environment.SetGlobalThenGetGlobal | hklua/env.h:177-182 | after SetGlobal("v", 7) over a stack holding "x", reading "v" gives "x" |

## Left out

- Lua's own coercions are not modelled: number to string and string to number in lua_tolstring, lua_tointegerx and lua_tonumberx.
- Metamethods are not modelled: lua_gettable, lua_settable and lua_getglobal read and write raw tables.
- Garbage collection, userdata and threads are not modelled; a slot of another type is an opaque `Other`.
- Floating-point values are opaque tokens; no float arithmetic or float-to-integer conversion is modelled.
- What the called Lua function computes is not modelled: its results or error and the heap it leaves are the `outcome` parameter, constrained only by `OutcomeOk` (well formed, no table of the caller removed).
- A failed luaL_newstate (the EnvException), and Env's move operations and destructor, are not modelled.
- OpenLibs, LoadString, DoString, LoadFile, DoFile and CheckError are not modelled: they load and run Lua code or print.
- StackDump, Variant::Dump and hklua/stack.cc are not modelled: they only print.
- Table::GetFieldR and the generic GetGlobal<T>(name, bool*) are not modelled. The latter assigns the result to the pointer instead of through it.
- GetField with a std::string key is not modelled: the overload it selects forwards the out-parameter as an rvalue, which cannot bind to T&.
- The Table(Env&, int) constructor is not modelled; it is declared but not defined in the headers.
- The disabled `#if 0` variants (owning Table, popping StackConv(Table&)) and hklua/table.cc are not modelled: they are not compiled.
- StackSize, StackSetTop, StackExpand, StackRemove, StackReplace, StackCopy, StackPushValue, StackInsert, StackRotate, Env::CreateTable, Env::ToCString and Env::ToString are not modelled. Each forwards to a single C API call.
- Pseudo-indices (LUA_REGISTRYINDEX, upvalues) are not modelled; an index is a live stack position.
- The ToX accessors of Variant return references into the object; the model returns values, so writing through the reference is not captured.
- The byte layout of the Variant union is not modelled. Each member is a separate field, and only the member the tag names is ever read. Every constructor zeroes the members it does not set, where C++ leaves them uninitialised.
- Dispatch.PushVI: the source calls StackPush(vi.data) without env, which does not compile once instantiated; the model passes env.
- Environment.Env.CallFunction: the `bool *success` out-pointer is a returned flag, so a NULL pointer is not distinguished.
- Only TableGuard, Proxy and the GuardedGlobal scenario use a shared Table variable (`TableObject`). Elsewhere a Table is passed and returned as a value, which is how those functions take it.
- The message handler index of lua_pcall is checked to be 0 or a live index, but what it does with an error is part of the outcome.
- Proxies.VariantOf: the contract states only the Variant and bool cases; the other keys map to the Variant constructor of their type by definition.
- LuaApi.Machine.CanSetTable: lua_settable with a nil key raises a Lua error, which is not modelled; the precondition excludes it. Generic SetField can reach it with a Nil key, or with a key that pushes nothing (a Variant holding a bool) when the slot below the value is nil.
- Stack.ConvInteger: lua_tointegerx also accepts a float with an exact integer value; floats are opaque here, so such a slot fails in this model.
- Values.IntKind: hklua::Integer is lua_Integer (long long) and int64_t is a distinct type of the same width on LP64 systems; both are modelled, and only Integer is a valid key of operator[].
