# BaseJSONWriter: a verified model of fbx-conv's structural JSON writer

`json::BaseJSONWriter` (src/json/BaseJSONWriter.h) is the format-neutral
half of fbx-conv's JSON output. It does not render text. It keeps a stack of
nesting frames (`Block`: root, object or array, each with an optional
capacity, a value count, a line-wrap counter and, in objects, a key/value
phase). It checks every write against that stack with C++ `assert`s. Then it
calls one of the abstract sink hooks (`writeOpenObject`, `writeNextValue`,
`writeValue`, `writeOpenData`, ...) that a concrete writer implements.

The model has three parts:

- **Frame state machine.** Covers `Block`, `nextValue`, `openBlock`,
  `closeBlock`, `checkKey` and the destructor's check.
- **Value dispatch.** Covers `val`, `nul`, `is`, `pair`, `valueArray`, the
  `value<T>` specialisations and `__val`/`__ptr`, including `Serializable`
  values that write themselves.
- **Bulk data path.** Covers `data`, both forms of `values`, and
  `arr(values, ...)`, the fallback used when the sink declines a data block.

How the project is laid out:

- `json_model.dfy` (module `JsonModel`) holds the entities as datatypes and
  each operation as a function from a writer `State` to a `Res`. A `Res` is
  the new state, the sink calls made (in order), and the violated assertion
  that stopped the operation, if any. Every `assert` of the modelled code
  that can fail is one `Violation` constructor. Three are not:
  - `closeBlock`'s fourth assert, "Unknown block type" (line 150), cannot
    fail once its first has passed, because a frame other than the root is
    an object or an array. `UnknownBlockType` is `openBlock`'s assert (line 130).
  - The fallback `op()` overloads (lines 385-386) call
    `assert("Unknown operation")`. That tests a string literal, which is
    never null, so it never fails.
  - "Not implemented" (line 244) is reached only from the enum overloads
    listed under "Left out".
- `json_writer.dfy` (module `JsonWriter`) is the class `BaseJsonWriter`. Its
  fields `cur`, `stack` and `defaultDataLineSize` are updated in place, as
  the C++ members `block`, `blocks` and `defaultDataLineSize` are. The sink
  calls made so far are kept in the ghost field `trace`. Each method that
  changes the writer is proved to keep the invariant `Wf`. It is also proved
  to end in exactly the state, the sink calls and the violation that a
  `JsonModel` function gives. Usually that function has the same name.
  The exceptions:
  - `Arr` and `Obj` are proved against `OpenBlock`;
  - `End` against `CloseBlock`;
  - the loop method `WriteEach` against `WriteAll`.

  `Is` and `Dispose` change nothing, and state their outcome directly.
- `json_frames.dfy`, `json_invariant.dfy`, `json_bulk.dfy`,
  `json_nesting.dfy` and `json_props.dfy` prove the writer's promises about those functions:
  - capacity and the one-container-per-instance rule;
  - frames pushed and restored;
  - key/value alternation;
  - the line-wrap period;
  - the two outcomes of the bulk path;
  - an invariant kept by every public call.
- `json_examples.dfy` works through concrete calls:
  - short documents written from a fresh writer;
  - one bulk write into any array with room.

How the C++ is represented:

- `unsigned int` is the newtype `uint32`. The `++lineSize` in `nextValue`
  wraps explicitly at 2^32 - 1.
- `capacity` is an unbounded `int` and `size` a `nat`.
- The sink's answer to `writeOpenData` is a boolean parameter
  (`accepts` / `sinkAccepts`).
- `sizeof(T)` is the parameter `elemSize`.
- A `Serializable`'s `serialize` body is a sequence of public calls
  (`Op`s) that the model runs in order.

Behaviour a user might not expect, which the model reproduces from the
header:

- **Containers in key position.** A container opened where an object
  expects a key is accepted as that key. `openBlock` calls `checkKey()`
  with `allowKey = true` (line 132). The parent is left awaiting that
  key's value (`JsonProps.ContainerAsKey`).
- **Unsupported value kinds.** A type with no `value<T>` specialisation is
  not refused at compile time. The primary template is a run-time
  `assert("Not a serializable value")` (lines 227-228), reached after the
  slot has been taken (`JsonProps.UnsupportedRefused`).
- **Slots taken by a bulk write.** `data()` takes one slot when the sink
  accepts the data block (lines 347-348, 200-202). When the sink declines
  inside an array, it takes two: its own slot, and the fallback array's
  slot through `openBlock` (lines 204-205, 331;
  `JsonProps.DataInArrayDeclined`). In an object, the extra `checkKey()`
  before `arr` (line 204) cancels the phase flip of `openBlock`
  (`JsonProps.DataAsValue`). `val(T (&)[n])` of a non-`char` `T` in an
  array takes one slot more than `data()`, its own (line 319): two when
  the sink accepts and three when it declines
  (`JsonProps.FixedArrayAcceptedInArray`,
  `JsonProps.FixedArrayDeclinedInArray`).
- **Writes where a key is expected.** `val(x)` of a primitive or text
  there is simply the key. Three writes are refused with "Key not
  allowed":
  - `nul()`, which calls `checkKey(false)` (lines 302, 192);
  - `data()`, which calls `checkKey(false)` (line 347);
  - `val(T (&)[n])` of a non-`char` `T` (lines 319, 223, 347). Its slot flips
    the phase to "key written", `valueArray`'s `checkKey()` flips it back,
    and `data`'s `checkKey(false)` flips it again and fails. A `pair` with
    such a key fails the same way (`JsonProps.NoNullOrDataKey`,
    `JsonProps.FixedArrayNotKey`).

## Model

| member | source | states |
|---|---|---|
| JsonWriter.BaseJsonWriter.constructor | src/json/BaseJSONWriter.h:269 | a new writer holds only the root frame, its `defaultDataLineSize` is 32, and it has made no sink call |
| JsonWriter.BaseJsonWriter.Dispose | src/json/BaseJSONWriter.h:271-273 | the destructor's check passes exactly when no object or array is open, and otherwise reports "Unclosed object or array" |
| JsonWriter.BaseJsonWriter.InArray | src/json/BaseJSONWriter.h:288-290 | when the current frame is an array, some frame encloses it |
| JsonWriter.BaseJsonWriter.InObject | src/json/BaseJSONWriter.h:292-294 | when the current frame is an object, some frame encloses it |
| JsonWriter.BaseJsonWriter.NextValue | src/json/BaseJSONWriter.h:118-127 | the four assertions in order, then one `writeNextValue(first, newline)`, `size` + 1 and the wrapped line counter, as `JsonModel.NextValue` gives; keeps `Wf` |
| JsonWriter.BaseJsonWriter.CheckKey | src/json/BaseJSONWriter.h:187-195 | outside objects, nothing changes; in an object, the phase flips before "Key not allowed" is checked, and the result says whether the write completes a pair |
| JsonWriter.BaseJsonWriter.Slot | src/json/BaseJSONWriter.h:251-254 | the prologue `if (!checkKey(allowKey)) nextValue(inObject(), isblock)` has exactly the outcome `JsonModel.Slot` gives |
| JsonWriter.BaseJsonWriter.OpenBlock | src/json/BaseJSONWriter.h:129-144 | "Unknown block type" is checked first; then the parent's slot is taken, the parent is pushed and a fresh frame is current; `writeOpenObject`/`writeOpenArray` get varsize, capacity and inl |
| JsonWriter.BaseJsonWriter.CloseBlock | src/json/BaseJSONWriter.h:146-160 | the assertions "Unmatched blocks", "Reserved capacity not reached yet" and "Key written without value" are checked in order; on success there is one close call with the final size, and the top of the stack becomes current |
| JsonWriter.BaseJsonWriter.Arr | src/json/BaseJSONWriter.h:276-278 | `arr(capacity, maxLineSize)` is `openBlock(ARRAY, ...)` |
| JsonWriter.BaseJsonWriter.Obj | src/json/BaseJSONWriter.h:280-282 | `obj(capacity, maxLineSize)` is `openBlock(OBJECT, ...)` |
| JsonWriter.BaseJsonWriter.End | src/json/BaseJSONWriter.h:284-286 | `end()` is `closeBlock()` |
| JsonWriter.BaseJsonWriter.Is | src/json/BaseJSONWriter.h:296-299 | `is()` passes exactly when the current frame is an object with a key awaiting its value; otherwise it reports "No key written to assign" |
| JsonWriter.BaseJsonWriter.Nul | src/json/BaseJSONWriter.h:301-305 | the slot is taken with keys refused, then one `writeNull` |
| JsonWriter.BaseJsonWriter.ValueOf | src/json/BaseJSONWriter.h:227-242 | a supported primitive or text makes one `writeValue(v, iskey)`; any other type reports "Not a serializable value" |
| JsonWriter.BaseJsonWriter.PlainVal | src/json/BaseJSONWriter.h:251-258 | `__val`/`__ptr` of a non-`Serializable`: the slot, then `value(v, block.wroteKey)` |
| JsonWriter.BaseJsonWriter.ValueArray | src/json/BaseJSONWriter.h:222-224 | a `char[n]` is written as text; any other `T[n]` gets `checkKey()` and then `data(values, n)` |
| JsonWriter.BaseJsonWriter.ValArray | src/json/BaseJSONWriter.h:318-322 | `val(T (&v)[n])`: the slot, then `valueArray(v, block.wroteKey)` |
| JsonWriter.BaseJsonWriter.Val | src/json/BaseJSONWriter.h:248-264 | `val(v)` dispatches to the overload C++ selects: `serialize` for a `Serializable`, `valueArray` for a fixed-size array, `__val` otherwise |
| JsonWriter.BaseJsonWriter.Pair | src/json/BaseJSONWriter.h:364-374 | `pair(k, v)` is `val(k).is().val(v)`, stopping at the first violation |
| JsonWriter.BaseJsonWriter.PairData | src/json/BaseJSONWriter.h:376-382 | `pair(k, values[, size])` is `val(k).is().data(values)` |
| JsonWriter.BaseJsonWriter.Serialize | src/json/BaseJSONWriter.h:47-49 | a `serialize` body's calls run in order, up to the first violation |
| JsonWriter.BaseJsonWriter.Apply | src/json/BaseJSONWriter.h:276-382 | one public call has exactly the outcome its `JsonModel` function gives |
| JsonWriter.BaseJsonWriter.Data | src/json/BaseJSONWriter.h:346-362 | the slot is taken with keys refused; `useDefaultSize` is replaced by `defaultDataLineSize`; then `values` runs |
| JsonWriter.BaseJsonWriter.Values | src/json/BaseJSONWriter.h:197-220 | `writeOpenData(count, count * sizeof(T))` is offered. If accepted: one item (buffer) or one item per element (vector), then `writeCloseData`. If declined: `checkKey()` and `arr(values, ...)` |
| JsonWriter.BaseJsonWriter.ArrValues | src/json/BaseJSONWriter.h:330-344 | `arr(count, lineSize)`, then `val` of each element in order, then `end()` |
| JsonWriter.BaseJsonWriter.WriteEach | src/json/BaseJSONWriter.h:332-333 | the loop `val(values[i])` in an array with room for every element: no write fails, and each pass leaves the writer as `JsonModel.WriteAll` of the elements written so far |
| JsonFrames.NextValueCounters | src/json/BaseJSONWriter.h:118-127 | a passing `nextValue` reports `first` = frame was empty and `newline` = incremented counter > `maxLineSize`; `size` grows by one, the counter resets to 1 on a newline, and nothing else changes |
| JsonFrames.AdvanceBounds | src/json/BaseJSONWriter.h:124-126 | the line counter stays within max(1, maxLineSize); it wraps to 0 exactly when both it and `maxLineSize` are 2^32 - 1 |
| JsonFrames.AdvancedFields | src/json/BaseJSONWriter.h:124-126 | k writes change only `size` (by k) and the line counter |
| JsonFrames.LineWrapPeriod | src/json/BaseJSONWriter.h:124-126 | with 0 < maxLineSize = m < 2^32 - 1, the k-th write leaves the counter at (k - 1) mod m + 1 and reports a newline exactly when k > 1 and m divides k - 1 |
| JsonFrames.LineWrapZero | src/json/BaseJSONWriter.h:124-126 | with `maxLineSize` 0, every write reports a newline |
| JsonFrames.LineWrapThree | src/json/BaseJSONWriter.h:124-126 | with `maxLineSize` 3, the 4th and 7th of seven writes, and only those, start a new line |
| JsonFrames.NextValueWf | src/json/BaseJSONWriter.h:118-127 | `nextValue` keeps the frame invariant `Wf` |
| JsonFrames.CheckKeyWf | src/json/BaseJSONWriter.h:187-195 | `checkKey` keeps `Wf` |
| JsonFrames.SlotWf | src/json/BaseJSONWriter.h:251-254 | the slot prologue keeps `Wf` |
| JsonFrames.OpenBlockWf | src/json/BaseJSONWriter.h:129-144 | `openBlock` keeps `Wf` |
| JsonFrames.CloseBlockWf | src/json/BaseJSONWriter.h:146-160 | `closeBlock` keeps `Wf` |
| JsonInvariant.SlotKeeps | src/json/BaseJSONWriter.h:251-254 | the slot prologue keeps `Wf` and never trips "Can only write key-value pairs within an object" |
| JsonInvariant.OpenKeeps | src/json/BaseJSONWriter.h:129-144 | `arr`/`obj` keep `Wf` and never trip "Unknown block type" or the pair assertion |
| JsonInvariant.CloseKeeps | src/json/BaseJSONWriter.h:146-160 | `end()` keeps `Wf` |
| JsonInvariant.NulKeeps | src/json/BaseJSONWriter.h:301-305 | `nul()` keeps `Wf` |
| JsonInvariant.PlainValKeeps | src/json/BaseJSONWriter.h:251-258 | `__val` keeps `Wf` |
| JsonInvariant.WriteAllKeeps | src/json/BaseJSONWriter.h:332-333 | the element loop keeps `Wf` |
| JsonInvariant.ArrValuesKeeps | src/json/BaseJSONWriter.h:330-344 | `arr(values, ...)` keeps `Wf` |
| JsonInvariant.ValuesKeeps | src/json/BaseJSONWriter.h:197-220 | `values` keeps `Wf` on both paths |
| JsonInvariant.DataKeeps | src/json/BaseJSONWriter.h:346-362 | `data` keeps `Wf` |
| JsonInvariant.ValueArrayKeeps | src/json/BaseJSONWriter.h:222-224 | `valueArray` keeps `Wf` |
| JsonInvariant.ValArrayKeeps | src/json/BaseJSONWriter.h:318-322 | `val(T[n])` keeps `Wf` |
| JsonInvariant.ValKeeps | src/json/BaseJSONWriter.h:307-310 | `val` of any argument, including a `Serializable`, keeps `Wf` |
| JsonInvariant.PairKeeps | src/json/BaseJSONWriter.h:364-374 | `pair` keeps `Wf` |
| JsonInvariant.PairDataKeeps | src/json/BaseJSONWriter.h:376-382 | `pair(k, values)` keeps `Wf` |
| JsonInvariant.ApplyKeeps | src/json/BaseJSONWriter.h:276-382 | every public call keeps `Wf` |
| JsonInvariant.SerializeKeeps | src/json/BaseJSONWriter.h:47-49 | a `serialize` body keeps `Wf` |
| JsonInvariant.ScriptKeeps | src/json/BaseJSONWriter.h:118-144 | from a new writer, no sequence of public calls trips "Can only write key-value pairs within an object" or "Unknown block type" |
| JsonBulk.PlainValInArray | src/json/BaseJSONWriter.h:251-258 | `val(x)` in an array with room: one `writeNextValue`, one non-key `writeValue`, and only the counters change |
| JsonBulk.FillArray | src/json/BaseJSONWriter.h:330-344 | the element loop in an array with room for all elements never fails, takes one slot per element, and writes the elements in order |
| JsonBulk.FillStep | src/json/BaseJSONWriter.h:332-333 | one more pass of the element loop takes one slot and appends exactly that element to the values written |
| JsonBulk.SeparatedShape | src/json/BaseJSONWriter.h:330-344 | the loop's calls, position by position: call 2i is the separator `writeNextValue` with the i-th slot's first/newline flags, and call 2i+1 is `writeValue(values[i], false)`; there are 2n calls in all |
| JsonBulk.FillArrayEvents | src/json/BaseJSONWriter.h:332-333 | the element loop in an array with room makes exactly those calls: n times a separator followed by one value |
| JsonBulk.SerializeStops | src/json/BaseJSONWriter.h:47-49 | once a call in a `serialize` body fails, the rest of the body has no effect |
| JsonNesting.SlotFrame | src/json/BaseJSONWriter.h:251-254 | a slot keeps the enclosing frames, and the current frame's kind, capacity and line size |
| JsonNesting.ArrValuesFrame | src/json/BaseJSONWriter.h:330-344 | `arr(values, ...)` keeps the same, whether or not it fails |
| JsonNesting.ValuesFrame | src/json/BaseJSONWriter.h:197-220 | `values` keeps the same on both sink answers |
| JsonNesting.DataFrame | src/json/BaseJSONWriter.h:346-362 | `data` keeps the same |
| JsonNesting.ValArrayFrame | src/json/BaseJSONWriter.h:318-322 | `val(T[n])` keeps the same |
| JsonNesting.ValFrame | src/json/BaseJSONWriter.h:248-258 | `val` of anything but a `Serializable` keeps the same |
| JsonNesting.PairFrame | src/json/BaseJSONWriter.h:364-370 | `pair(k, v)` with non-`Serializable` k and v keeps the same |
| JsonNesting.PairDataFrame | src/json/BaseJSONWriter.h:376-382 | `pair(k, values)` with a non-`Serializable` k keeps the same |
| JsonNesting.ApplyFrame | src/json/BaseJSONWriter.h:276-382 | every public call except `arr`/`obj`/`end` and a `Serializable`'s body keeps the same, whether it completes or stops at an assertion |
| JsonNesting.SerializeFrame | src/json/BaseJSONWriter.h:47-49 | any sequence of such calls keeps the same |
| JsonNesting.OpenDeeper | src/json/BaseJSONWriter.h:135-136 | an `arr`/`obj` that passes pushes one frame: a body `d` frames deep becomes `d + 1` deep, over the same enclosing frames |
| JsonNesting.CloseShallower | src/json/BaseJSONWriter.h:157-158 | an `end()` that passes pops one frame: a body `d >= 1` frames deep becomes `d - 1` deep, and at depth 0 the frame it started in is current again |
| JsonNesting.ArgFrame | src/json/BaseJSONWriter.h:259-264 | `val` of any argument whose `Serializable` bodies are balanced keeps the stack and the current frame's kind, capacity and line size when it completes |
| JsonNesting.OpFrame | src/json/BaseJSONWriter.h:364-382 | any call other than `arr`/`obj`/`end` whose `Serializable` values have balanced bodies, `pair` included, keeps the same when it completes |
| JsonNesting.NestedFrame | src/json/BaseJSONWriter.h:129-160 | a call sequence that never closes more frames than it opened, when it completes, leaves exactly its open frames pushed over the stack it started with; the outermost of them has the shape of the frame it started in; a balanced sequence keeps the frame |
| JsonNesting.BodyFrame | src/json/BaseJSONWriter.h:47-49 | a `serialize`-style body of flat calls (any outcome), or a balanced one that completes, keeps the stack and the current frame's kind, capacity and line size |
| JsonNesting.CloseRestoresParent | src/json/BaseJSONWriter.h:129-160 | `arr`/`obj`, then a body, then the `end()` that closes the frame. The body may be flat calls, which may stop at an assertion, or a balanced sequence with nested `arr`/`obj`…`end` and `Serializable` values, which completes. The parent comes back exactly as the open's slot left it, and the stack is back at its old depth. The close call has the kind, varsize and inl of the open call, and, when bounded, the capacity it announced |
| JsonProps.NextValueSucceeds | src/json/BaseJSONWriter.h:119-122 | `nextValue` passes if and only if: the pair flag matches an object frame; the root takes only its one container; a bounded frame has room |
| JsonProps.CloseBlockSucceeds | src/json/BaseJSONWriter.h:147-149 | `closeBlock` passes if and only if: the frame is not the root; a bounded frame is exactly full; no key awaits a value |
| JsonProps.CloseBlockPops | src/json/BaseJSONWriter.h:146-160 | a passing close reports the final size, with varsize/inl taken from the frame's own capacity and line size, and makes the innermost enclosing frame current, one level up |
| JsonProps.SlotKeepsStack | src/json/BaseJSONWriter.h:251-254 | taking a slot changes only the current frame |
| JsonProps.SlotInArray | src/json/BaseJSONWriter.h:251-254 | in an array with room, a slot is one `writeNextValue` and the counters advanced |
| JsonProps.SlotInObject | src/json/BaseJSONWriter.h:187-195 | in an object: the key half flips the phase and counts one pair (keys allowed) or fails "Key not allowed"; the value half flips back and counts nothing |
| JsonProps.NothingBareAtRoot | src/json/BaseJSONWriter.h:120 | a scalar, `nul()` or `data()` at the root reports "Must start with an array or an object" |
| JsonProps.OneContainerAtRoot | src/json/BaseJSONWriter.h:121 | once the root holds its container, opening another reports "Can only write one object or array per instance" |
| JsonProps.DisposeAtRoot | src/json/BaseJSONWriter.h:271-273 | the destructor's check passes if and only if the stack is empty, and then the current frame is the original root |
| JsonProps.OpenBlockPushes | src/json/BaseJSONWriter.h:132-141 | `openBlock` pushes the parent as its slot left it, starts an empty frame with the given capacity and line size, and reports varsize/capacity/inl |
| JsonProps.ContainerAsKey | src/json/BaseJSONWriter.h:132-133 | a container opened where a key is expected is accepted as the key, and leaves the parent awaiting its value |
| JsonProps.PlainValWrites | src/json/BaseJSONWriter.h:251-254 | `val(x)` of a supported kind makes one `writeValue`, whose `iskey` is set exactly for the key half of an object pair |
| JsonProps.UnsupportedRefused | src/json/BaseJSONWriter.h:227-228 | any other type takes its slot and reports "Not a serializable value" |
| JsonProps.PairInObject | src/json/BaseJSONWriter.h:364-366 | `pair(k, v)` from key position writes k as a key and v as a value, counts one pair, and leaves the object awaiting a key |
| JsonProps.NoNullOrDataKey | src/json/BaseJSONWriter.h:301-302 | `nul()` and `data()` in key position report "Key not allowed" |
| JsonProps.FixedArrayNotKey | src/json/BaseJSONWriter.h:318-322 | `val(T (&)[n])` of a non-`char` `T` in key position, and `pair` with such a key, fail "Key not allowed": slot, then `valueArray`'s `checkKey()`, then `data`'s `checkKey(false)` (lines 223, 347) |
| JsonProps.TextKindsAgree | src/json/BaseJSONWriter.h:224-238 | `char[n]`, `const char *` and `std::string` with the same characters are written identically, as text |
| JsonProps.SerializableDelegates | src/json/BaseJSONWriter.h:259-264 | the writer takes no slot for a `Serializable`; one whose body writes one value is that value |
| JsonProps.DataItemsEach | src/json/BaseJSONWriter.h:213-214 | the vector form gives the sink one `sizeof(T)` item per element, in order |
| JsonProps.DataAccepted | src/json/BaseJSONWriter.h:198-215 | when the sink accepts, `data()` is one slot, `writeOpenData(n, n * size)`, the items, and `writeCloseData` with the same numbers; no frame is opened |
| JsonProps.FallbackOpens | src/json/BaseJSONWriter.h:331 | the fallback opens an array whose capacity is the element count |
| JsonProps.FallbackCloses | src/json/BaseJSONWriter.h:332-334 | the fallback's elements fill that array exactly, in order, so its `end()` passes and hands back the parent |
| JsonProps.CloseFullArray | src/json/BaseJSONWriter.h:146-160 | a full array with a parent closes and reports its size |
| JsonProps.ArrValuesFill | src/json/BaseJSONWriter.h:330-344 | `arr(values, ...)` never fails once its slot is available: open, every element in order, close, and the parent as its slot left it |
| JsonProps.ArrValuesSucceeds | src/json/BaseJSONWriter.h:330-344 | `arr(values, ...)` with its slot available never fails, and leaves the parent as that slot left it |
| JsonProps.DataAsValue | src/json/BaseJSONWriter.h:346-362 | in an object, `data()` at value position completes the pair on both sink answers, and the size stays the same |
| JsonProps.DataInArrayAccepted | src/json/BaseJSONWriter.h:346-350 | in an array, an accepted `data()` takes one slot, then `writeOpenData` |
| JsonProps.DataInArrayDeclined | src/json/BaseJSONWriter.h:198-206 | in an array, a declined `data()` takes two slots (its own and the fallback array's) |
| JsonProps.FixedArrayIsData | src/json/BaseJSONWriter.h:222-223 | outside an object, `valueArray` of a non-`char` `T[n]` is exactly `data(v, n)` with the default line size: its `checkKey()` passes and changes nothing |
| JsonProps.FixedArrayAcceptedInArray | src/json/BaseJSONWriter.h:318-322 | in an array, when the sink accepts, `val(T (&)[n])` of a non-`char` `T` passes and takes two slots: its own (line 319), then `data`'s (line 347) |
| JsonProps.FixedArrayDeclinedInArray | src/json/BaseJSONWriter.h:318-322 | in an array, when the sink declines, it passes and takes three slots: its own, `data`'s, and the fallback array's through `openBlock` (lines 204-205, 331) |
| JsonProps.ValuesDeclinedInArray | src/json/BaseJSONWriter.h:203-206 | a declined `values` in an array is `writeOpenData` followed by the whole fallback array |
| JsonProps.DefaultDataLineSize | src/json/BaseJSONWriter.h:348 | passing `useDefaultSize` is the same as passing `defaultDataLineSize` |
| JsonExamples.CapacityThree | src/json/BaseJSONWriter.h:122 | `arr(3)` with three values closes; a fourth value reports "Block capacity exceeded"; closing after two reports "Reserved capacity not reached yet" |
| JsonExamples.OneDocument | src/json/BaseJSONWriter.h:121 | `obj()`, `end()`, `arr()` on one writer: the `arr()` is refused |
| JsonExamples.TwoPairs | src/json/BaseJSONWriter.h:364-366 | two pairs in a new object alternate key and value, count two, and the object closes |
| JsonExamples.FreshObject | src/json/BaseJSONWriter.h:129-144 | `obj()` on a new writer takes the root's slot (first, newline), pushes the root, and opens an empty unbounded object |
| JsonExamples.FiveIntsAccepted | src/json/BaseJSONWriter.h:198-202 | five 4-byte ints from a buffer: one slot, `writeOpenData(5, 20)`, one 20-byte item, `writeCloseData(5, 20)` |
| JsonExamples.NestedDocument | src/json/BaseJSONWriter.h:129-160 | `obj`, `val("a")`, `arr`, `val(1)`, `end`, `end` from a fresh writer: no call fails, the stack is two deep inside the array and one deep again after the first `end`, and the writer ends at the root with the destructor's check passing |
| JsonExamples.NestedDocumentBalanced | src/json/BaseJSONWriter.h:47-49 | the same six calls, as a `serialize` body, are balanced |

## Left out

- **Operator sugar.** The `op()` overloads, the stream operators `<<`, `,`, `=` and `[]`, and the `dat`/`obj`/`arr`/`end`/`is`/`nul` tokens (lines 51-95 and 384-444) only forward to the modelled calls, so they are not modelled separately.
- **Enum `val(v, name)`.** These overloads (lines 312-316 and 324-328) are marked work in progress. They call `value<T>(v, name, ...)` with a `T` their template does not declare, so they cannot be instantiated. The stub they name, `value(v, name, iskey)` (line 244), can be instantiated, but it is only `assert(("Not implemented", false))`. No other call reaches it.
- **`pair(const std::pair<K, V> &)`.** This overload (lines 371-374) only forwards to `pair(p.first, p.second)`, so it is not modelled separately.
- **Rendering.** The sink hooks are abstract. The model records their calls as `Event`s. The only sink decision it models is `writeOpenData`'s answer.
- **Payload contents.** Floating-point payloads are opaque tokens. Integer payloads are mathematical integers. The bytes handed to `writeDataItem` are the elements as values, not a raw memory image.
- **`size_t` overflow.** `count * sizeof(T)` is computed without wrap-around.
- **`long long` range.** `capacity` and `size` are unbounded integers, so values near the `long long` limits are not modelled.
- **`Serializable` bodies.** `serialize` is modelled as a finite sequence of public calls. Arbitrary C++ in a `serialize` body (reading the writer's state, branching) is not.
- JsonWriter.BaseJsonWriter.ArrValues: elements are primitives or text, so `arr(values, ...)` over `Serializable` or unsupported element types is not modelled.
- **`NDEBUG`.** With `NDEBUG` the asserts are compiled out and execution continues. The model always stops at the first violated assertion.
- **Streams.** The header's `<ostream>`/`<fstream>` includes are not used by the core and are not modelled.
