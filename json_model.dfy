/**
 * The structural JSON writer of src/json/BaseJSONWriter.h, as values.
 *
 * This module holds the writer's entities (nesting frames, the values it
 * dispatches, the sink calls it makes, the violations its assertions detect)
 * and its behaviour as functions from a writer state to a `Res`: the new
 * state, the sink calls made, and the violation that stopped the operation,
 * if one did.  The class in json_writer.dfy performs the same operations in
 * place and is proved against these functions.
 */
module JsonModel {

  /** `unsigned int`. */
  newtype uint32 = x: int | 0 <= x < 0x1_0000_0000

  const MaxUInt32: uint32 := 0xFFFF_FFFF
  /** `useDefaultSize`, the line size that stands for `defaultDataLineSize`. */
  const UseDefaultSize: uint32 := 0xFFFF
  /** The value the constructor gives `defaultDataLineSize`. */
  const InitialDataLineSize: uint32 := 32

  datatype Option<T> = None | Some(value: T)

  // ----------------------------------------------------------------------
  // Frames
  // ----------------------------------------------------------------------

  datatype Kind = Root | Object | Array

  /**
   * One nesting frame (`Block`).  A negative capacity means unbounded.  In an
   * object, `size` counts pairs and `wroteKey` says that a key awaits its value.
   */
  datatype Block = Block(kind: Kind, capacity: int, size: nat,
                         maxLineSize: uint32, lineSize: uint32, wroteKey: bool)

  /** The frame the `Block(type, capacity, maxLineSize)` constructor builds. */
  function NewBlock(kind: Kind, capacity: int, maxLineSize: uint32): Block {
    Block(kind, capacity, 0, maxLineSize, 0, false)
  }

  /** The frame a new writer starts in: `Block(Block::ROOT)`. */
  const RootBlock: Block := NewBlock(Root, -1, 0)

  // ----------------------------------------------------------------------
  // Values, arguments and scripts
  // ----------------------------------------------------------------------

  /**
   * The non-text primitive kinds, one per `writeValue` overload.  Integer
   * payloads are kept as mathematical integers; floating-point payloads are
   * opaque tokens.
   */
  datatype Prim =
    | Bool(b: bool)
    | Char(c: int)
    | Short(s: int)
    | Int(i: int)
    | Long(l: int)
    | Float(ftoken: nat)
    | Double(dtoken: nat)
    | UChar(uc: nat)
    | UShort(us: nat)
    | UInt(ui: nat)
    | ULong(ul: nat)

  /** The payload of one `writeValue` call: text (`const char *`) or a primitive. */
  datatype Value = Text(chars: string) | Scalar(prim: Prim)

  /** Which `values` form a bulk write comes from: a buffer (or `T[n]`) or a `std::vector<T>`. */
  datatype Layout = Pointer | Vector

  /**
   * A C++ argument of `val`, classified by the overload and specialisation it
   * selects.  `Fixed` is a `T[n]` of non-`char` elements of `elemSize` bytes;
   * its `sinkAccepts` is the answer the sink gives to the `writeOpenData` call
   * it causes.  `Serial` is a `Serializable` whose `serialize` performs `ops`;
   * `Other` is any other type.
   */
  datatype Arg =
    | Str(s: string)
    | CStr(s: string)
    | CharBuf(s: string)
    | Atom(p: Prim)
    | Fixed(elems: seq<Value>, elemSize: nat, sinkAccepts: bool)
    | Serial(ops: seq<Op>)
    | Other

  /** One call of the writer's public interface, as a `serialize` body makes it. */
  datatype Op =
    | ArrOp(capacity: int, maxLineSize: uint32)
    | ObjOp(capacity: int, maxLineSize: uint32)
    | EndOp
    | IsOp
    | NulOp
    | ValOp(arg: Arg)
    | ArrValuesOp(elems: seq<Value>, lineSize: uint32)
    | DataOp(elems: seq<Value>, elemSize: nat, layout: Layout, lineSize: uint32, sinkAccepts: bool)
    | PairOp(key: Arg, value: Arg)
    | PairDataOp(key: Arg, elems: seq<Value>, elemSize: nat, layout: Layout, sinkAccepts: bool)

  // ----------------------------------------------------------------------
  // Sink calls and violations
  // ----------------------------------------------------------------------

  /** One call of a sink hook. */
  datatype Event =
    | WriteOpenObject(varsize: bool, size: int, inl: bool)
    | WriteCloseObject(varsize: bool, size: int, inl: bool)
    | WriteOpenArray(varsize: bool, size: int, inl: bool)
    | WriteCloseArray(varsize: bool, size: int, inl: bool)
    | WriteNextValue(first: bool, newline: bool)
    | WriteNull
    | WriteValue(value: Value, iskey: bool)
    | WriteOpenData(items: nat, bytes: nat)
    | WriteDataItem(data: seq<Value>, bytes: nat)
    | WriteCloseData(items: nat, bytes: nat)

  /**
   * One constructor per assertion of the writer that can fail.  `closeBlock`'s
   * "Unknown block type" cannot (see `CloseBlock`).  Neither can the
   * `assert("Unknown operation")` of the fallback `op()` overloads, which
   * tests a string literal.  "Not implemented" belongs to the enum stub
   * `value(v, name, iskey)`, which is not modelled.
   */
  datatype Violation =
    | PairOutsideObject        // "Can only write key-value pairs within an object"
    | MustStartWithContainer   // "Must start with an array or an object"
    | OneContainerPerInstance  // "Can only write one object or array per instance"
    | CapacityExceeded         // "Block capacity exceeded"
    | UnknownBlockType         // "Unknown block type"
    | UnmatchedBlocks          // "Unmatched blocks"
    | CapacityNotReached       // "Reserved capacity not reached yet"
    | KeyWithoutValue          // "Key written without value"
    | KeyNotAllowed            // "Key not allowed"
    | NoKeyToAssign            // "No key written to assign"
    | NotSerializable          // "Not a serializable value"
    | UnclosedBlock            // "Unclosed object or array"

  // ----------------------------------------------------------------------
  // Writer state and results
  // ----------------------------------------------------------------------

  /** The writer: the current frame, the stack of enclosing frames (innermost last) and `defaultDataLineSize`. */
  datatype State = State(cur: Block, stack: seq<Block>, defaultDataLineSize: uint32)

  /** The state the constructor establishes. */
  const Initial: State := State(RootBlock, [], InitialDataLineSize)

  /**
   * The outcome of an operation: the state it leaves, the sink calls it made
   * in order, and the violated assertion that stopped it, if any.
   */
  datatype Res = Res(st: State, events: seq<Event>, err: Option<Violation>)

  function Ok(st: State, events: seq<Event>): Res { Res(st, events, None) }

  function Fail(st: State, v: Violation): Res { Res(st, [], Some(v)) }

  /** Run `r2`, which starts from `r1.st`, after `r1`, unless `r1` was stopped. */
  function Then(r1: Res, r2: Res): Res {
    if r1.err.Some? then r1 else Res(r2.st, r1.events + r2.events, r2.err)
  }

  /** Appending sink calls in two steps is appending them in one. */
  lemma AppendAssoc<T>(a: seq<T>, b: seq<T>, c: seq<T>)
    ensures a + b + c == a + (b + c)
  {
  }

  /** A step that passes without a sink call adds nothing in front of the next one. */
  lemma ThenOkNil(st: State, r: Res)
    ensures Then(Ok(st, []), r) == r
  {
    assert [] + r.events == r.events;
  }

  /** How `val(key).is()` followed by a third step `r3` combines, whichever step stops first. */
  lemma ThenIsThen(r1: Res, r3: Res)
    ensures Then(r1, Is(r1.st)).st == r1.st
    ensures Then(Then(r1, Is(r1.st)), r3)
         == if r1.err.Some? then r1
            else if Is(r1.st).err.Some? then Res(r1.st, r1.events, Is(r1.st).err)
            else Res(r3.st, r1.events + r3.events, r3.err)
  {
    assert r1.events + [] == r1.events;
  }

  /** The frames are well formed: the invariant every operation keeps. */
  predicate BlockWf(b: Block) {
    && (b.capacity >= 0 ==> b.size <= b.capacity)
    && b.lineSize as int <= Max1(b.maxLineSize)
    && (b.wroteKey ==> b.kind == Object)
  }

  function Max1(m: uint32): int { if m == 0 then 1 else m as int }

  /** A frame that is still the writer's original root frame, after at most one container. */
  predicate IsOriginalRoot(b: Block) {
    b.kind == Root && b.capacity == -1 && b.maxLineSize == 0 && !b.wroteKey && b.size <= 1
  }

  /** Well-formed writer: the bottom frame is the original root and no other frame is a root. */
  predicate Wf(st: State) {
    && BlockWf(st.cur)
    && (forall i :: 0 <= i < |st.stack| ==> BlockWf(st.stack[i]))
    && (if st.stack == [] then IsOriginalRoot(st.cur)
        else IsOriginalRoot(st.stack[0]) && st.cur.kind != Root
             && forall i :: 0 < i < |st.stack| ==> st.stack[i].kind != Root)
  }

  // ----------------------------------------------------------------------
  // nextValue and checkKey
  // ----------------------------------------------------------------------

  /** `++lineSize` on an `unsigned int`: 2^32 - 1 wraps around to 0. */
  function Incr(n: uint32): uint32 {
    if n == MaxUInt32 then 0 else n + 1
  }

  /** The `newline` flag `nextValue` passes to the sink. */
  predicate Newline(b: Block) {
    Incr(b.lineSize) > b.maxLineSize
  }

  /** The counters after `nextValue`: one more value, and the line counter advanced or reset. */
  function Advance(b: Block): Block {
    var ls := Incr(b.lineSize);
    b.(size := b.size + 1, lineSize := if ls > b.maxLineSize then 1 else ls)
  }

  /** The first of `nextValue`'s four assertions that fails, if one does. */
  function NextValueCheck(b: Block, ispair: bool, isblock: bool): Option<Violation> {
    if (ispair && b.kind != Object) || (!ispair && b.kind == Object) then Some(PairOutsideObject)
    else if !isblock && b.kind == Root then Some(MustStartWithContainer)
    else if b.size != 0 && b.kind == Root then Some(OneContainerPerInstance)
    else if !(b.capacity < 0 || b.size < b.capacity) then Some(CapacityExceeded)
    else None
  }

  /** `nextValue(ispair, isblock)`. */
  function NextValue(st: State, ispair: bool, isblock: bool): Res {
    match NextValueCheck(st.cur, ispair, isblock)
    case Some(v) => Fail(st, v)
    case None => Ok(st.(cur := Advance(st.cur)), [WriteNextValue(st.cur.size == 0, Newline(st.cur))])
  }

  /** The frame after `checkKey`: in an object, the key/value phase flips. */
  function KeyFlip(b: Block): Block {
    if b.kind == Object then b.(wroteKey := !b.wroteKey) else b
  }

  /** What `checkKey` returns: the write completes a pair (it is a value after a key). */
  predicate ValueHalf(b: Block) {
    b.kind == Object && b.wroteKey
  }

  /** `checkKey(allowKey)`: the phase flips before the "Key not allowed" assertion. */
  function CheckKey(st: State, allowKey: bool): Res {
    var st' := st.(cur := KeyFlip(st.cur));
    if st.cur.kind == Object && !(allowKey || !st'.cur.wroteKey) then Fail(st', KeyNotAllowed)
    else Ok(st', [])
  }

  /** `if (!checkKey(allowKey)) nextValue(inObject(), isblock);`, the prologue of every write. */
  function Slot(st: State, allowKey: bool, isblock: bool): Res {
    var r := CheckKey(st, allowKey);
    if r.err.Some? || ValueHalf(st.cur) then r
    else Then(r, NextValue(r.st, r.st.cur.kind == Object, isblock))
  }

  // ----------------------------------------------------------------------
  // openBlock and closeBlock
  // ----------------------------------------------------------------------

  /** The `inl` flag: a bounded frame short enough for one line. */
  predicate Inline(b: Block) {
    b.capacity >= 0 && b.capacity <= b.maxLineSize as int
  }

  function OpenEvent(b: Block): Event {
    if b.kind == Object then WriteOpenObject(b.capacity < 0, b.capacity, Inline(b))
    else WriteOpenArray(b.capacity < 0, b.capacity, Inline(b))
  }

  function CloseEvent(b: Block): Event {
    if b.kind == Object then WriteCloseObject(b.capacity < 0, b.size, Inline(b))
    else WriteCloseArray(b.capacity < 0, b.size, Inline(b))
  }

  /** `openBlock(type, capacity, lineSize)`: take the parent's slot, push the parent, start a fresh frame. */
  function OpenBlock(st: State, kind: Kind, capacity: int, lineSize: uint32): Res {
    if kind != Object && kind != Array then Fail(st, UnknownBlockType)
    else
      var r := Slot(st, true, true);
      var child := NewBlock(kind, capacity, lineSize);
      Then(r, Ok(State(child, r.st.stack + [r.st.cur], r.st.defaultDataLineSize), [OpenEvent(child)]))
  }

  /**
   * `closeBlock()`.  Its fourth assertion ("Unknown block type") cannot fail
   * once the first has passed, since a frame that is not the root is an
   * object or an array.
   */
  function CloseBlock(st: State): Res {
    var b := st.cur;
    if !(b.kind != Root && st.stack != []) then Fail(st, UnmatchedBlocks)
    else if !(b.capacity < 0 || b.size == b.capacity) then Fail(st, CapacityNotReached)
    else if b.wroteKey then Fail(st, KeyWithoutValue)
    else Ok(State(st.stack[|st.stack| - 1], st.stack[..|st.stack| - 1], st.defaultDataLineSize), [CloseEvent(b)])
  }

  /** The destructor's check: `!inArray() && !inObject()`. */
  function Dispose(st: State): Option<Violation> {
    if st.cur.kind == Array || st.cur.kind == Object then Some(UnclosedBlock) else None
  }

  // ----------------------------------------------------------------------
  // Value dispatch
  // ----------------------------------------------------------------------

  /** The `writeValue` overload `value<T>` reaches for an argument, if `T` is supported. */
  function Payload(a: Arg): Option<Value> {
    match a
    case Str(s) => Some(Text(s))
    case CStr(s) => Some(Text(s))
    case Atom(p) => Some(Scalar(p))
    case _ => None
  }

  /** `value<T>(v, iskey)`: one `writeValue` call, or "Not a serializable value". */
  function ValueOf(st: State, a: Arg, iskey: bool): Res {
    match Payload(a)
    case None => Fail(st, NotSerializable)
    case Some(v) => Ok(st, [WriteValue(v, iskey)])
  }

  /** `__val` / `__ptr` for a type that is not `Serializable`. */
  function PlainVal(st: State, a: Arg): Res {
    var r := Slot(st, true, false);
    Then(r, ValueOf(r.st, a, r.st.cur.wroteKey))
  }

  /** `valueArray(v, iskey)`: a `char` buffer is text, any other `T[n]` goes to `data`. */
  function ValueArray(st: State, a: Arg, iskey: bool): Res
    requires a.CharBuf? || a.Fixed?
  {
    match a
    case CharBuf(s) => ValueOf(st, CStr(s), iskey)
    case Fixed(elems, elemSize, accepts) =>
      var r := CheckKey(st, true);
      Then(r, Data(r.st, elems, elemSize, Pointer, UseDefaultSize, accepts))
  }

  /** `val(const T (&v)[n])`. */
  function ValArray(st: State, a: Arg): Res
    requires a.CharBuf? || a.Fixed?
  {
    var r := Slot(st, true, false);
    Then(r, ValueArray(r.st, a, r.st.cur.wroteKey))
  }

  /** `val(v)`: the overload C++ selects for the argument. */
  function Val(st: State, a: Arg): Res
    decreases a, 0
  {
    match a
    case Serial(ops) => Serialize(st, ops)
    case CharBuf(_) => ValArray(st, a)
    case Fixed(_, _, _) => ValArray(st, a)
    case _ => PlainVal(st, a)
  }

  /** `pair(key, value)`: `val(key).is().val(value)`. */
  function Pair(st: State, k: Arg, v: Arg): Res
    decreases PairOp(k, v), 1
  {
    var r1 := Val(st, k);
    var r2 := Then(r1, Is(r1.st));
    Then(r2, Val(r2.st, v))
  }

  /** `pair(key, values, size)` and `pair(key, vector)`: `val(key).is().data(values)`. */
  function PairData(st: State, k: Arg, elems: seq<Value>, elemSize: nat, layout: Layout, accepts: bool): Res
    decreases PairDataOp(k, elems, elemSize, layout, accepts), 1
  {
    var r1 := Val(st, k);
    var r2 := Then(r1, Is(r1.st));
    Then(r2, Data(r2.st, elems, elemSize, layout, UseDefaultSize, accepts))
  }

  /** `is()`: checks that a key awaits its value; changes nothing. */
  function Is(st: State): Res {
    if st.cur.kind == Object && st.cur.wroteKey then Ok(st, []) else Fail(st, NoKeyToAssign)
  }

  /** `nul()`. */
  function Nul(st: State): Res {
    var r := Slot(st, false, false);
    Then(r, Ok(r.st, [WriteNull]))
  }

  /** A `serialize` body: the operations one after another, up to the first violation. */
  function Serialize(st: State, ops: seq<Op>): Res
    decreases ops, 3
  {
    if ops == [] then Ok(st, [])
    else
      var r := Serialize(st, ops[..|ops| - 1]);
      Then(r, Apply(r.st, ops[|ops| - 1]))
  }

  /** One public call. */
  function Apply(st: State, op: Op): Res
    decreases op, 2
  {
    match op
    case ArrOp(c, l) => OpenBlock(st, Array, c, l)
    case ObjOp(c, l) => OpenBlock(st, Object, c, l)
    case EndOp => CloseBlock(st)
    case IsOp => Is(st)
    case NulOp => Nul(st)
    case ValOp(a) => Val(st, a)
    case ArrValuesOp(elems, l) => ArrValues(st, elems, l)
    case DataOp(elems, size, layout, l, accepts) => Data(st, elems, size, layout, l, accepts)
    case PairOp(k, v) => Pair(st, k, v)
    case PairDataOp(k, elems, size, layout, accepts) => PairData(st, k, elems, size, layout, accepts)
  }

  // ----------------------------------------------------------------------
  // Bulk data
  // ----------------------------------------------------------------------

  /** The argument `val(values[i])` sees for one element of a bulk write. */
  function ArgOf(v: Value): Arg {
    match v
    case Text(s) => Str(s)
    case Scalar(p) => Atom(p)
  }

  /** `data(values, size, lineSize)` in all three forms. */
  function Data(st: State, elems: seq<Value>, elemSize: nat, layout: Layout, lineSize: uint32, accepts: bool): Res {
    var r := Slot(st, false, false);
    var line := if lineSize == UseDefaultSize then r.st.defaultDataLineSize else lineSize;
    Then(r, Values(r.st, elems, elemSize, layout, line, accepts))
  }

  /** One `writeDataItem` per element, as the `std::vector` form of `values` makes them. */
  function DataItems(elems: seq<Value>, elemSize: nat): seq<Event> {
    if elems == [] then []
    else DataItems(elems[..|elems| - 1], elemSize) + [WriteDataItem([elems[|elems| - 1]], elemSize)]
  }

  /** `values(...)`: offer the sink a data block; if it declines, write an array instead. */
  function Values(st: State, elems: seq<Value>, elemSize: nat, layout: Layout, lineSize: uint32, accepts: bool): Res {
    var n := |elems|;
    var bytes := n * elemSize;
    if accepts then
      var items := if layout == Pointer then [WriteDataItem(elems, bytes)] else DataItems(elems, elemSize);
      Ok(st, [WriteOpenData(n, bytes)] + items + [WriteCloseData(n, bytes)])
    else
      var r := CheckKey(st, true);
      Then(Ok(st, [WriteOpenData(n, bytes)]), Then(r, ArrValues(r.st, elems, lineSize)))
  }

  /** The loop of `arr(values, ...)`: `val(values[i])` for every element, in order. */
  function WriteAll(st: State, elems: seq<Value>): Res {
    if elems == [] then Ok(st, [])
    else
      var r := WriteAll(st, elems[..|elems| - 1]);
      Then(r, PlainVal(r.st, ArgOf(elems[|elems| - 1])))
  }

  /** `arr(values, size, lineSize)` and `arr(vector, lineSize)`. */
  function ArrValues(st: State, elems: seq<Value>, lineSize: uint32): Res {
    var r1 := OpenBlock(st, Array, |elems|, lineSize);
    var r2 := Then(r1, WriteAll(r1.st, elems));
    Then(r2, CloseBlock(r2.st))
  }
}
