/**
 * What the writer promises its callers, stated over the functions of
 * JsonModel: the capacity and root rules, opening and closing frames,
 * key/value alternation inside objects, the key-position restrictions of
 * `nul`, `data` and `val(T (&)[n])`, value dispatch, the two outcomes of the
 * bulk data path, and the slots a bulk write takes in an array.
 */
module JsonProps {
  import opened JsonModel
  import JsonFrames
  import JsonBulk

  // ----------------------------------------------------------------------
  // nextValue and closeBlock: when they succeed
  // ----------------------------------------------------------------------

  /**
   * `nextValue` succeeds exactly when the pair flag matches the frame (pairs
   * in objects only), the root takes nothing but its one container, and a
   * bounded frame still has room.
   */
  lemma NextValueSucceeds(st: State, ispair: bool, isblock: bool)
    ensures NextValue(st, ispair, isblock).err == None
        <==> && ispair == (st.cur.kind == Object)
             && (st.cur.kind == Root ==> isblock && st.cur.size == 0)
             && (st.cur.capacity < 0 || st.cur.size < st.cur.capacity)
  {
  }

  /**
   * `closeBlock` succeeds exactly when the frame is not the root, a bounded
   * frame is full to its capacity, and no key awaits its value.
   */
  lemma CloseBlockSucceeds(st: State)
    requires Wf(st)
    ensures CloseBlock(st).err == None
        <==> && st.cur.kind != Root
             && (st.cur.capacity < 0 || st.cur.size == st.cur.capacity)
             && !st.cur.wroteKey
  {
  }

  /**
   * A successful `closeBlock` reports the frame's final size, with `varsize`
   * and `inl` computed from the frame's capacity and line size, and makes
   * the innermost enclosing frame current again, one level up.
   */
  lemma CloseBlockPops(st: State)
    requires CloseBlock(st).err == None
    ensures var r := CloseBlock(st);
      && |st.stack| > 0
      && r.st.cur == st.stack[|st.stack| - 1]
      && r.st.stack + [r.st.cur] == st.stack
      && r.events == [if st.cur.kind == Object
                      then WriteCloseObject(st.cur.capacity < 0, st.cur.size, 0 <= st.cur.capacity <= st.cur.maxLineSize as int)
                      else WriteCloseArray(st.cur.capacity < 0, st.cur.size, 0 <= st.cur.capacity <= st.cur.maxLineSize as int)]
  {
    assert st.stack[..|st.stack| - 1] + [st.stack[|st.stack| - 1]] == st.stack;
  }

  // ----------------------------------------------------------------------
  // Taking a slot
  // ----------------------------------------------------------------------

  /** Taking a slot changes the current frame only. */
  lemma SlotKeepsStack(st: State, allowKey: bool, isblock: bool)
    ensures Slot(st, allowKey, isblock).st.stack == st.stack
    ensures Slot(st, allowKey, isblock).st.defaultDataLineSize == st.defaultDataLineSize
  {
  }

  /**
   * The slot a write takes in an array: `nextValue(false, isblock)`, one
   * `writeNextValue` call, and the frame's counters advanced.
   */
  lemma SlotInArray(st: State, allowKey: bool, isblock: bool)
    requires st.cur.kind == Array
    requires st.cur.capacity < 0 || st.cur.size < st.cur.capacity
    ensures Slot(st, allowKey, isblock)
         == Ok(st.(cur := Advance(st.cur)), [WriteNextValue(st.cur.size == 0, Newline(st.cur))])
  {
  }

  /**
   * The slot a write takes in an object.  On the key half the phase flips
   * to "key written" and `nextValue(true, isblock)` counts one more pair,
   * provided keys are allowed; on the value half the phase flips back and
   * nothing is counted.
   */
  lemma SlotInObject(st: State, allowKey: bool, isblock: bool)
    requires st.cur.kind == Object
    requires st.cur.wroteKey || !allowKey || st.cur.capacity < 0 || st.cur.size < st.cur.capacity
    ensures var r := Slot(st, allowKey, isblock);
      if st.cur.wroteKey then
        r == Ok(st.(cur := st.cur.(wroteKey := false)), [])
      else if allowKey then
        r == Ok(st.(cur := Advance(st.cur).(wroteKey := true)), [WriteNextValue(st.cur.size == 0, Newline(st.cur))])
      else
        r.err == Some(KeyNotAllowed)
  {
  }

  // ----------------------------------------------------------------------
  // The root frame
  // ----------------------------------------------------------------------

  /** A scalar, a `nul()` or a `data()` directly under the root is refused. */
  lemma NothingBareAtRoot(st: State, a: Arg, elems: seq<Value>, elemSize: nat, layout: Layout,
                          lineSize: uint32, accepts: bool)
    requires st.cur.kind == Root && !a.Serial?
    ensures Val(st, a).err == Some(MustStartWithContainer)
    ensures Nul(st).err == Some(MustStartWithContainer)
    ensures Data(st, elems, elemSize, layout, lineSize, accepts).err == Some(MustStartWithContainer)
  {
  }

  /** Once the root holds its container, no second object or array can be opened. */
  lemma OneContainerAtRoot(st: State, kind: Kind, capacity: int, lineSize: uint32)
    requires st.cur.kind == Root && st.cur.size != 0 && (kind == Object || kind == Array)
    ensures OpenBlock(st, kind, capacity, lineSize).err == Some(OneContainerPerInstance)
  {
  }

  /** The destructor's check passes exactly when every object and array has been closed. */
  lemma DisposeAtRoot(st: State)
    requires Wf(st)
    ensures Dispose(st) == None <==> st.stack == []
    ensures Dispose(st) == None ==> IsOriginalRoot(st.cur)
  {
  }

  // ----------------------------------------------------------------------
  // openBlock
  // ----------------------------------------------------------------------

  /**
   * `openBlock` first takes the parent's slot, then pushes the parent as it
   * is after that slot, and reports the new frame with `varsize` (capacity
   * unbounded), the capacity, and `inl` (0 <= capacity <= line size).
   */
  lemma OpenBlockPushes(st: State, kind: Kind, capacity: int, lineSize: uint32)
    requires kind == Object || kind == Array
    requires Slot(st, true, true).err == None
    ensures var s := Slot(st, true, true);
      var r := OpenBlock(st, kind, capacity, lineSize);
      && r.err == None
      && r.st.stack == st.stack + [s.st.cur]
      && r.st.cur.kind == kind && r.st.cur.capacity == capacity && r.st.cur.maxLineSize == lineSize
      && r.st.cur.size == 0 && r.st.cur.lineSize == 0 && !r.st.cur.wroteKey
      && r.events == s.events + [if kind == Object
                                 then WriteOpenObject(capacity < 0, capacity, 0 <= capacity <= lineSize as int)
                                 else WriteOpenArray(capacity < 0, capacity, 0 <= capacity <= lineSize as int)]
  {
    SlotKeepsStack(st, true, true);
  }

  /**
   * A container opened in key position is accepted: it counts as the key,
   * so the parent object is left awaiting that key's value.
   */
  lemma ContainerAsKey(st: State, kind: Kind, capacity: int, lineSize: uint32)
    requires st.cur.kind == Object && !st.cur.wroteKey
    requires st.cur.capacity < 0 || st.cur.size < st.cur.capacity
    requires kind == Object || kind == Array
    ensures var r := OpenBlock(st, kind, capacity, lineSize);
      && r.err == None
      && r.st.stack == st.stack + [Advance(st.cur).(wroteKey := true)]
  {
    SlotInObject(st, true, true);
    OpenBlockPushes(st, kind, capacity, lineSize);
  }

  // ----------------------------------------------------------------------
  // Objects: keys and values alternate
  // ----------------------------------------------------------------------

  /**
   * `val(x)` of a supported primitive or text takes its slot and makes one
   * `writeValue` call, whose `iskey` is set exactly when the write is the
   * key half of a pair in an object.
   */
  lemma PlainValWrites(st: State, a: Arg, v: Value)
    requires Wf(st) && Payload(a) == Some(v)
    requires Slot(st, true, false).err == None
    ensures var s := Slot(st, true, false);
      PlainVal(st, a) == Ok(s.st, s.events + [WriteValue(v, st.cur.kind == Object && !st.cur.wroteKey)])
  {
  }

  /**
   * Any other type takes its slot and then stops at "Not a serializable
   * value".
   */
  lemma UnsupportedRefused(st: State)
    requires Slot(st, true, false).err == None
    ensures Val(st, Other).err == Some(NotSerializable)
  {
  }

  /**
   * `pair(k, v)` of primitives or text from key position: the key is
   * written as a key and counted, the value is written as a value, and the
   * object is left awaiting its next key with one more pair.
   */
  lemma PairInObject(st: State, k: Arg, v: Arg, kv: Value, vv: Value)
    requires st.cur.kind == Object && !st.cur.wroteKey
    requires st.cur.capacity < 0 || st.cur.size < st.cur.capacity
    requires Payload(k) == Some(kv) && Payload(v) == Some(vv)
    ensures var r := Pair(st, k, v);
      && r.err == None
      && r.st == st.(cur := Advance(st.cur))
      && !r.st.cur.wroteKey && r.st.cur.size == st.cur.size + 1
      && r.events == [WriteNextValue(st.cur.size == 0, Newline(st.cur)), WriteValue(kv, true), WriteValue(vv, false)]
  {
    SlotInObject(st, true, false);
    var r1 := Val(st, k);
    assert r1 == Ok(st.(cur := Advance(st.cur).(wroteKey := true)),
                    [WriteNextValue(st.cur.size == 0, Newline(st.cur)), WriteValue(kv, true)]);
    SlotInObject(r1.st, true, false);
  }

  /** `nul()` and `data()` in key position stop at "Key not allowed". */
  lemma NoNullOrDataKey(st: State, elems: seq<Value>, elemSize: nat, layout: Layout, lineSize: uint32, accepts: bool)
    requires st.cur.kind == Object && !st.cur.wroteKey
    ensures Nul(st).err == Some(KeyNotAllowed)
    ensures Data(st, elems, elemSize, layout, lineSize, accepts).err == Some(KeyNotAllowed)
  {
  }

  /**
   * `val(T (&)[n])` of a non-`char` `T` in key position is refused too: its
   * slot flips the phase to "key written", `valueArray`'s `checkKey()` flips
   * it back, and `data`'s `checkKey(false)` flips it again and stops at "Key
   * not allowed".  The same holds for `pair` with such a key.
   */
  lemma FixedArrayNotKey(st: State, elems: seq<Value>, elemSize: nat, accepts: bool, v: Arg)
    requires st.cur.kind == Object && !st.cur.wroteKey
    requires st.cur.capacity < 0 || st.cur.size < st.cur.capacity
    ensures Val(st, Fixed(elems, elemSize, accepts)).err == Some(KeyNotAllowed)
    ensures Pair(st, Fixed(elems, elemSize, accepts), v).err == Some(KeyNotAllowed)
  {
    var a := Fixed(elems, elemSize, accepts);
    SlotInObject(st, true, false);
    var s := Slot(st, true, false);
    var k := CheckKey(s.st, true);
    assert k == Ok(st.(cur := Advance(st.cur)), []);
    assert Data(k.st, elems, elemSize, Pointer, UseDefaultSize, accepts).err == Some(KeyNotAllowed);
    assert ValueArray(s.st, a, true).err == Some(KeyNotAllowed);
    assert Val(st, a).err == Some(KeyNotAllowed);
    ThenIsThen(Val(st, a), Val(Val(st, a).st, v));
  }

  // ----------------------------------------------------------------------
  // Value dispatch
  // ----------------------------------------------------------------------

  /**
   * A `char[n]`, a `const char *` and a `std::string` with the same
   * characters are written identically: as one text value, never through
   * the data path.
   */
  lemma TextKindsAgree(st: State, s: string)
    ensures Val(st, CharBuf(s)) == Val(st, CStr(s)) == Val(st, Str(s))
  {
  }

  /**
   * A `Serializable` is written by its own `serialize`: the writer takes
   * no slot for it, so one that writes a single value is that value.
   */
  lemma SerializableDelegates(st: State, a: Arg)
    ensures Val(st, Serial([ValOp(a)])) == Val(st, a)
  {
    var ops := [ValOp(a)];
    assert ops[..0] == [] && ops[0] == ValOp(a);
    assert Serialize(st, ops[..0]) == Ok(st, []);
    var r := Val(st, a);
    assert Apply(st, ops[0]) == r;
    assert [] + r.events == r.events;
    assert Serialize(st, ops) == Then(Ok(st, []), r);
  }

  // ----------------------------------------------------------------------
  // The bulk data path
  // ----------------------------------------------------------------------

  /** The `std::vector` form hands the sink one item per element, in order. */
  lemma {:induction false} DataItemsEach(elems: seq<Value>, elemSize: nat)
    ensures |DataItems(elems, elemSize)| == |elems|
    ensures forall i :: 0 <= i < |elems| ==> DataItems(elems, elemSize)[i] == WriteDataItem([elems[i]], elemSize)
  {
    if elems != [] {
      DataItemsEach(elems[..|elems| - 1], elemSize);
    }
  }

  /**
   * When the sink accepts the data block, `data()` takes one slot, offers
   * `writeOpenData(count, count * elemSize)`, hands over the elements (all
   * at once from a buffer, one by one from a vector), closes the block with
   * the same numbers, and opens no frame.
   */
  lemma DataAccepted(st: State, elems: seq<Value>, elemSize: nat, layout: Layout, lineSize: uint32)
    requires Slot(st, false, false).err == None
    ensures var s := Slot(st, false, false);
      var n, bytes := |elems|, |elems| * elemSize;
      Data(st, elems, elemSize, layout, lineSize, true)
        == Ok(s.st, s.events + [WriteOpenData(n, bytes)]
                  + (if layout == Pointer then [WriteDataItem(elems, bytes)] else DataItems(elems, elemSize))
                  + [WriteCloseData(n, bytes)])
  {
    var s := Slot(st, false, false);
    var n, bytes := |elems|, |elems| * elemSize;
    var items := if layout == Pointer then [WriteDataItem(elems, bytes)] else DataItems(elems, elemSize);
    AppendAssoc(s.events, [WriteOpenData(n, bytes)], items);
    AppendAssoc(s.events, [WriteOpenData(n, bytes)] + items, [WriteCloseData(n, bytes)]);
  }

  /** The state `openBlock(ARRAY, |elems|, lineSize)` leaves for the elements. */
  function FallbackArray(st: State, elems: seq<Value>, lineSize: uint32): State {
    var s := Slot(st, true, true);
    State(NewBlock(Array, |elems|, lineSize), st.stack + [s.st.cur], st.defaultDataLineSize)
  }

  /** `openBlock(ARRAY, |elems|, lineSize)` at the start of `arr(values, ...)`. */
  lemma FallbackOpens(st: State, elems: seq<Value>, lineSize: uint32)
    requires Slot(st, true, true).err == None
    ensures OpenBlock(st, Array, |elems|, lineSize)
         == Ok(FallbackArray(st, elems, lineSize),
               Slot(st, true, true).events + [WriteOpenArray(false, |elems|, |elems| <= lineSize as int)])
  {
    OpenBlockPushes(st, Array, |elems|, lineSize);
    SlotKeepsStack(st, true, true);
  }

  /** The `end()` of `arr(values, ...)`: the array is full, so it closes and the parent returns. */
  lemma FallbackCloses(st: State, elems: seq<Value>, lineSize: uint32)
    requires Slot(st, true, true).err == None
    ensures var w := WriteAll(FallbackArray(st, elems, lineSize), elems);
      && w.err == None
      && JsonBulk.Written(w.events) == elems
      && CloseBlock(w.st) == Ok(Slot(st, true, true).st, [WriteCloseArray(false, |elems|, |elems| <= lineSize as int)])
  {
    var a := FallbackArray(st, elems, lineSize);
    JsonBulk.FillArray(a, elems);
    JsonFrames.AdvancedFields(a.cur, |elems|);
    var x := WriteAll(a, elems).st;
    assert x.cur.kind == Array && x.cur.capacity == x.cur.size == |elems| && !x.cur.wroteKey;
    assert x.cur.maxLineSize == lineSize && x.stack == st.stack + [Slot(st, true, true).st.cur];
    SlotKeepsStack(st, true, true);
    CloseFullArray(x);
  }

  /** An array frame filled to its capacity closes and hands back its parent. */
  lemma CloseFullArray(x: State)
    requires x.cur.kind == Array && x.stack != [] && x.cur.capacity == x.cur.size && !x.cur.wroteKey
    ensures CloseBlock(x) == Ok(State(x.stack[|x.stack| - 1], x.stack[..|x.stack| - 1], x.defaultDataLineSize),
                                [WriteCloseArray(false, x.cur.size, x.cur.size <= x.cur.maxLineSize as int)])
  {
  }

  /**
   * `arr(values, ...)`, the path taken when the sink declines: an array of
   * capacity `count` is opened, every element is written into it in
   * order, and the close cannot fail on capacity.  The parent is left as
   * its own slot left it.
   */
  lemma ArrValuesFill(st: State, elems: seq<Value>, lineSize: uint32)
    requires Slot(st, true, true).err == None
    ensures var s := Slot(st, true, true);
      var w := WriteAll(FallbackArray(st, elems, lineSize), elems);
      var n := |elems|;
      var r := ArrValues(st, elems, lineSize);
      && r.err == None
      && r.st == s.st
      && r.events == s.events + [WriteOpenArray(false, n, n <= lineSize as int)] + w.events
                              + [WriteCloseArray(false, n, n <= lineSize as int)]
      && JsonBulk.Written(w.events) == elems
  {
    var s := Slot(st, true, true);
    var n := |elems|;
    var w := WriteAll(FallbackArray(st, elems, lineSize), elems);
    FallbackOpens(st, elems, lineSize);
    FallbackCloses(st, elems, lineSize);
    AppendAssoc(s.events + [WriteOpenArray(false, n, n <= lineSize as int)], w.events,
                [WriteCloseArray(false, n, n <= lineSize as int)]);
  }

  /**
   * In an object, `data()` at value position completes the pair on both
   * paths: the object is left awaiting a key with its size unchanged (on
   * the fallback path the extra `checkKey()` and `openBlock`'s own flip
   * cancel out).
   */
  lemma DataAsValue(st: State, elems: seq<Value>, elemSize: nat, layout: Layout, lineSize: uint32, accepts: bool)
    requires st.cur.kind == Object && st.cur.wroteKey
    ensures var r := Data(st, elems, elemSize, layout, lineSize, accepts);
      && r.err == None
      && r.st == st.(cur := st.cur.(wroteKey := false))
      && r.events[0] == WriteOpenData(|elems|, |elems| * elemSize)
  {
    var s := Slot(st, false, false);
    assert s == Ok(st.(cur := st.cur.(wroteKey := false)), []);
    var line := if lineSize == UseDefaultSize then st.defaultDataLineSize else lineSize;
    if !accepts {
      var k := CheckKey(s.st, true);
      assert k == Ok(st, []);
      assert Slot(st, true, true) == s;
      ArrValuesFill(st, elems, line);
    }
  }

  /**
   * In an array, when the sink accepts, `data()` takes one slot of the
   * array and the data block follows its `writeNextValue`.
   */
  lemma DataInArrayAccepted(st: State, elems: seq<Value>, elemSize: nat, layout: Layout, lineSize: uint32)
    requires st.cur.kind == Array
    requires st.cur.capacity < 0 || st.cur.size < st.cur.capacity
    ensures var r := Data(st, elems, elemSize, layout, lineSize, true);
      && r.err == None
      && r.st == st.(cur := Advance(st.cur))
      && r.events[..2] == [WriteNextValue(st.cur.size == 0, Newline(st.cur)), WriteOpenData(|elems|, |elems| * elemSize)]
  {
    SlotInArray(st, false, false);
    DataAccepted(st, elems, elemSize, layout, lineSize);
  }

  /**
   * In an array, when the sink declines, `data()` takes two slots of the
   * array: its own, then the fallback array's through `openBlock`.
   */
  lemma DataInArrayDeclined(st: State, elems: seq<Value>, elemSize: nat, layout: Layout, lineSize: uint32)
    requires st.cur.kind == Array
    requires st.cur.capacity < 0 || st.cur.size + 2 <= st.cur.capacity
    ensures var r := Data(st, elems, elemSize, layout, lineSize, false);
      && r.err == None
      && r.st == st.(cur := Advance(Advance(st.cur)))
      && r.events[..2] == [WriteNextValue(st.cur.size == 0, Newline(st.cur)), WriteOpenData(|elems|, |elems| * elemSize)]
  {
    var line := if lineSize == UseDefaultSize then st.defaultDataLineSize else lineSize;
    var s := Slot(st, false, false);
    assert s == Ok(st.(cur := Advance(st.cur)), [WriteNextValue(st.cur.size == 0, Newline(st.cur))]) by {
      SlotInArray(st, false, false);
    }
    assert Slot(s.st, true, true).err == None && Slot(s.st, true, true).st == st.(cur := Advance(Advance(st.cur))) by {
      JsonFrames.AdvancedFields(st.cur, 1);
      SlotInArray(s.st, true, true);
    }
    ValuesDeclinedInArray(s.st, elems, elemSize, layout, line);
  }

  /** The `values` fallback inside an array with room for the fallback array. */
  lemma ValuesDeclinedInArray(x: State, elems: seq<Value>, elemSize: nat, layout: Layout, line: uint32)
    requires x.cur.kind == Array && Slot(x, true, true).err == None
    ensures var a := ArrValues(x, elems, line);
      Values(x, elems, elemSize, layout, line, false)
        == Ok(Slot(x, true, true).st, [WriteOpenData(|elems|, |elems| * elemSize)] + a.events)
  {
    var a := ArrValues(x, elems, line);
    ArrValuesSucceeds(x, elems, line);
    assert CheckKey(x, true) == Ok(x, []);
    assert [] + a.events == a.events;
  }

  /** Outside an object, `valueArray` of a non-`char` `T[n]` is `data(v, n)`: its `checkKey()` passes and changes nothing. */
  lemma FixedArrayIsData(st: State, elems: seq<Value>, elemSize: nat, accepts: bool, iskey: bool)
    requires st.cur.kind != Object
    ensures ValueArray(st, Fixed(elems, elemSize, accepts), iskey)
         == Data(st, elems, elemSize, Pointer, UseDefaultSize, accepts)
  {
    var d := Data(st, elems, elemSize, Pointer, UseDefaultSize, accepts);
    assert CheckKey(st, true) == Ok(st, []);
    ThenOkNil(st, d);
  }

  /**
   * In an array, when the sink accepts the data block, `val(T (&)[n])` of a
   * non-`char` `T` takes two slots of the array: its own, then `data`'s.
   */
  lemma FixedArrayAcceptedInArray(st: State, elems: seq<Value>, elemSize: nat)
    requires st.cur.kind == Array
    requires st.cur.capacity < 0 || st.cur.size + 2 <= st.cur.capacity
    ensures var r := ValArray(st, Fixed(elems, elemSize, true));
      && r.err == None
      && r.st == st.(cur := Advance(Advance(st.cur)))
  {
    SlotInArray(st, true, false);
    var s := Slot(st, true, false);
    JsonFrames.AdvancedFields(st.cur, 1);
    var d := Data(s.st, elems, elemSize, Pointer, UseDefaultSize, true);
    FixedArrayIsData(s.st, elems, elemSize, true, s.st.cur.wroteKey);
    DataInArrayAccepted(s.st, elems, elemSize, Pointer, UseDefaultSize);
  }

  /**
   * In an array, when the sink declines, `val(T (&)[n])` of a non-`char` `T`
   * takes three slots of the array: its own, `data`'s, and the fallback
   * array's through `openBlock`.
   */
  lemma FixedArrayDeclinedInArray(st: State, elems: seq<Value>, elemSize: nat)
    requires st.cur.kind == Array
    requires st.cur.capacity < 0 || st.cur.size + 3 <= st.cur.capacity
    ensures var r := ValArray(st, Fixed(elems, elemSize, false));
      && r.err == None
      && r.st == st.(cur := Advance(Advance(Advance(st.cur))))
  {
    SlotInArray(st, true, false);
    var s := Slot(st, true, false);
    JsonFrames.AdvancedFields(st.cur, 1);
    var d := Data(s.st, elems, elemSize, Pointer, UseDefaultSize, false);
    FixedArrayIsData(s.st, elems, elemSize, false, s.st.cur.wroteKey);
    DataInArrayDeclined(s.st, elems, elemSize, Pointer, UseDefaultSize);
  }

  /** `arr(values, ...)` with its slot available ends where its own slot leaves the parent. */
  lemma ArrValuesSucceeds(st: State, elems: seq<Value>, lineSize: uint32)
    requires Slot(st, true, true).err == None
    ensures ArrValues(st, elems, lineSize).err == None
    ensures ArrValues(st, elems, lineSize).st == Slot(st, true, true).st
  {
    ArrValuesFill(st, elems, lineSize);
  }

  /**
   * `data()` with the line size `useDefaultSize` behaves as if the
   * writer's `defaultDataLineSize` had been passed.
   */
  lemma DefaultDataLineSize(st: State, elems: seq<Value>, elemSize: nat, layout: Layout, accepts: bool)
    ensures Data(st, elems, elemSize, layout, UseDefaultSize, accepts)
         == Data(st, elems, elemSize, layout, st.defaultDataLineSize, accepts)
  {
    SlotKeepsStack(st, false, false);
  }
}
