/**
 * Nesting: every public call except `arr`, `obj`, `end` and a
 * `Serializable`'s own body leaves the stack of enclosing frames as it was,
 * and leaves the current frame's kind, capacity and line size as they were.
 * A balanced body, one whose `arr`/`obj` calls are each closed by an `end()`
 * and whose `Serializable` values are balanced themselves, does the same
 * when it completes.  So the `end()` that closes a frame opened by
 * `arr`/`obj` restores the parent and reports the flags the open reported.
 */
module JsonNesting {
  import opened JsonModel
  import JsonProps

  /** Two frames of the same kind, capacity and line size: they differ at most in their counters and phase. */
  predicate SameShape(x: Block, y: Block) {
    x.kind == y.kind && x.capacity == y.capacity && x.maxLineSize == y.maxLineSize
  }

  /** `b` has the enclosing frames of `a`, and a current frame of the same kind, capacity and line size. */
  predicate SameFrame(a: State, b: State) {
    b.stack == a.stack && SameShape(a.cur, b.cur)
  }

  /** A call that neither opens nor closes a frame of its own: no `arr`/`obj`/`end`, no `Serializable`. */
  predicate Flat(op: Op) {
    match op
    case ArrOp(_, _) => false
    case ObjOp(_, _) => false
    case EndOp => false
    case ValOp(a) => !a.Serial?
    case PairOp(k, v) => !k.Serial? && !v.Serial?
    case PairDataOp(k, _, _, _, _) => !k.Serial?
    case _ => true
  }

  lemma SlotFrame(st: State, allowKey: bool, isblock: bool)
    ensures SameFrame(st, Slot(st, allowKey, isblock).st)
  {
  }

  lemma ArrValuesFrame(st: State, elems: seq<Value>, lineSize: uint32)
    ensures SameFrame(st, ArrValues(st, elems, lineSize).st)
  {
    SlotFrame(st, true, true);
    if Slot(st, true, true).err == None {
      JsonProps.ArrValuesSucceeds(st, elems, lineSize);
    }
  }

  lemma ValuesFrame(st: State, elems: seq<Value>, elemSize: nat, layout: Layout, lineSize: uint32, accepts: bool)
    ensures SameFrame(st, Values(st, elems, elemSize, layout, lineSize, accepts).st)
  {
    if !accepts {
      var r := CheckKey(st, true);
      assert r.err == None && SameFrame(st, r.st);
      ArrValuesFrame(r.st, elems, lineSize);
    }
  }

  lemma DataFrame(st: State, elems: seq<Value>, elemSize: nat, layout: Layout, lineSize: uint32, accepts: bool)
    ensures SameFrame(st, Data(st, elems, elemSize, layout, lineSize, accepts).st)
  {
    var r := Slot(st, false, false);
    SlotFrame(st, false, false);
    var line := if lineSize == UseDefaultSize then r.st.defaultDataLineSize else lineSize;
    ValuesFrame(r.st, elems, elemSize, layout, line, accepts);
  }

  lemma ValArrayFrame(st: State, a: Arg)
    requires a.CharBuf? || a.Fixed?
    ensures SameFrame(st, ValArray(st, a).st)
  {
    var r := Slot(st, true, false);
    SlotFrame(st, true, false);
    if a.Fixed? {
      var k := CheckKey(r.st, true);
      assert k.err == None && SameFrame(r.st, k.st);
      DataFrame(k.st, a.elems, a.elemSize, Pointer, UseDefaultSize, a.sinkAccepts);
    }
  }

  lemma ValFrame(st: State, a: Arg)
    requires !a.Serial?
    ensures SameFrame(st, Val(st, a).st)
  {
    if a.CharBuf? || a.Fixed? {
      ValArrayFrame(st, a);
    } else {
      SlotFrame(st, true, false);
    }
  }

  lemma PairFrame(st: State, k: Arg, v: Arg)
    requires !k.Serial? && !v.Serial?
    ensures SameFrame(st, Pair(st, k, v).st)
  {
    var r1 := Val(st, k);
    var r3 := Val(r1.st, v);
    ValFrame(st, k);
    ValFrame(r1.st, v);
    ThenIsThen(r1, r3);
    assert Pair(st, k, v) == Then(Then(r1, Is(r1.st)), r3);
  }

  lemma PairDataFrame(st: State, k: Arg, elems: seq<Value>, elemSize: nat, layout: Layout, accepts: bool)
    requires !k.Serial?
    ensures SameFrame(st, PairData(st, k, elems, elemSize, layout, accepts).st)
  {
    var r1 := Val(st, k);
    var r3 := Data(r1.st, elems, elemSize, layout, UseDefaultSize, accepts);
    ValFrame(st, k);
    DataFrame(r1.st, elems, elemSize, layout, UseDefaultSize, accepts);
    ThenIsThen(r1, r3);
    assert PairData(st, k, elems, elemSize, layout, accepts) == Then(Then(r1, Is(r1.st)), r3);
  }

  /** A flat call keeps the frame, whether it completes or stops at an assertion. */
  lemma ApplyFrame(st: State, op: Op)
    requires Flat(op)
    ensures SameFrame(st, Apply(st, op).st)
  {
    match op
    case IsOp =>
    case NulOp => SlotFrame(st, false, false);
    case ValOp(a) => ValFrame(st, a);
    case ArrValuesOp(elems, l) => ArrValuesFrame(st, elems, l);
    case DataOp(elems, size, layout, l, accepts) => DataFrame(st, elems, size, layout, l, accepts);
    case PairOp(k, v) => PairFrame(st, k, v);
    case PairDataOp(k, elems, size, layout, accepts) => PairDataFrame(st, k, elems, size, layout, accepts);
  }

  /** Any sequence of flat calls keeps the frame. */
  lemma {:induction false} SerializeFrame(st: State, ops: seq<Op>)
    requires forall i :: 0 <= i < |ops| ==> Flat(ops[i])
    ensures SameFrame(st, Serialize(st, ops).st)
  {
    if ops != [] {
      var init := ops[..|ops| - 1];
      SerializeFrame(st, init);
      var r := Serialize(st, init);
      if r.err == None {
        ApplyFrame(r.st, ops[|ops| - 1]);
      }
    }
  }

  // ----------------------------------------------------------------------
  // Balanced bodies
  // ----------------------------------------------------------------------

  /** The frames a call opens (`arr`, `obj`) or closes (`end`). */
  function Delta(op: Op): int {
    match op
    case ArrOp(_, _) => 1
    case ObjOp(_, _) => 1
    case EndOp => -1
    case _ => 0
  }

  /** How many frames a call sequence leaves open (negative when it closes more than it opens). */
  function Depth(ops: seq<Op>): int {
    if ops == [] then 0 else Depth(ops[..|ops| - 1]) + Delta(ops[|ops| - 1])
  }

  /** Every `Serializable` the argument holds has a balanced body. */
  predicate ArgBalanced(a: Arg)
    decreases a, 0
  {
    match a
    case Serial(body) => Balanced(body)
    case _ => true
  }

  /** Every `Serializable` the call writes has a balanced body. */
  predicate OpBalanced(op: Op)
    decreases op, 1
  {
    match op
    case ValOp(a) => ArgBalanced(a)
    case PairOp(k, v) => ArgBalanced(k) && ArgBalanced(v)
    case PairDataOp(k, _, _, _, _) => ArgBalanced(k)
    case _ => true
  }

  /** No prefix closes more frames than it opened, and every `Serializable` written is balanced. */
  predicate Nested(ops: seq<Op>)
    decreases ops, 2
  {
    ops == [] || (Nested(ops[..|ops| - 1]) && Depth(ops) >= 0 && OpBalanced(ops[|ops| - 1]))
  }

  /** A nested sequence that closes every frame it opens. */
  predicate Balanced(ops: seq<Op>)
    decreases ops, 3
  {
    Nested(ops) && Depth(ops) == 0
  }

  /**
   * `s` is `d` frames inside `b`: for `d == 0` the same frame as `b`'s
   * current one; for `d > 0` the enclosing frames of `b`, then a frame of
   * the shape of `b`'s current one, then `d - 1` more.
   */
  predicate Below(b: State, s: State, d: int) {
    if d == 0 then SameFrame(b, s)
    else
      && d > 0
      && |s.stack| == |b.stack| + d
      && s.stack[..|b.stack|] == b.stack
      && SameShape(b.cur, s.stack[|b.stack|])
  }

  /** `arr`/`obj` that passes takes the body one frame deeper. */
  lemma OpenDeeper(b: State, s: State, d: int, kind: Kind, capacity: int, lineSize: uint32)
    requires d >= 0 && Below(b, s, d)
    requires kind == Object || kind == Array
    requires OpenBlock(s, kind, capacity, lineSize).err == None
    ensures Below(b, OpenBlock(s, kind, capacity, lineSize).st, d + 1)
  {
    var slot := Slot(s, true, true);
    assert slot.err == None;
    SlotFrame(s, true, true);
    JsonProps.OpenBlockPushes(s, kind, capacity, lineSize);
    var t := OpenBlock(s, kind, capacity, lineSize).st;
    assert t.stack == s.stack + [slot.st.cur];
    assert t.stack[..|b.stack|] == s.stack[..|b.stack|];
  }

  /** `end()` that passes takes the body one frame back out. */
  lemma CloseShallower(b: State, s: State, d: int)
    requires d >= 1 && Below(b, s, d)
    requires CloseBlock(s).err == None
    ensures Below(b, CloseBlock(s).st, d - 1)
  {
    JsonProps.CloseBlockPops(s);
    var t := CloseBlock(s).st;
    assert t.stack == s.stack[..|s.stack| - 1];
    assert t.stack[..|b.stack|] == s.stack[..|b.stack|];
  }

  /** `val` of an argument whose `Serializable` bodies are balanced, when it completes, keeps the frame. */
  lemma ArgFrame(st: State, a: Arg)
    requires ArgBalanced(a)
    requires Val(st, a).err == None
    ensures SameFrame(st, Val(st, a).st)
    decreases a, 0
  {
    match a
    case Serial(body) => NestedFrame(st, body);
    case _ => ValFrame(st, a);
  }

  /** A call that opens and closes nothing of its own, when it completes, keeps the frame. */
  lemma OpFrame(st: State, op: Op)
    requires Delta(op) == 0 && OpBalanced(op)
    requires Apply(st, op).err == None
    ensures SameFrame(st, Apply(st, op).st)
    decreases op, 1
  {
    match op
    case ValOp(a) => ArgFrame(st, a);
    case PairOp(k, v) =>
      var r1 := Val(st, k);
      var r3 := Val(r1.st, v);
      ThenIsThen(r1, r3);
      assert Pair(st, k, v) == Then(Then(r1, Is(r1.st)), r3);
      ArgFrame(st, k);
      ArgFrame(r1.st, v);
    case PairDataOp(k, elems, size, layout, accepts) =>
      var r1 := Val(st, k);
      var r3 := Data(r1.st, elems, size, layout, UseDefaultSize, accepts);
      ThenIsThen(r1, r3);
      assert PairData(st, k, elems, size, layout, accepts) == Then(Then(r1, Is(r1.st)), r3);
      ArgFrame(st, k);
      DataFrame(r1.st, elems, size, layout, UseDefaultSize, accepts);
    case IsOp => ApplyFrame(st, op);
    case NulOp => ApplyFrame(st, op);
    case ArrValuesOp(_, _) => ApplyFrame(st, op);
    case DataOp(_, _, _, _, _) => ApplyFrame(st, op);
  }

  /**
   * A nested call sequence that completes leaves the writer as many frames
   * inside as it left open, over the enclosing frames it started with; a
   * balanced one keeps the frame.
   */
  lemma {:induction false} NestedFrame(st: State, ops: seq<Op>)
    requires Nested(ops)
    requires Serialize(st, ops).err == None
    ensures Depth(ops) >= 0
    ensures Below(st, Serialize(st, ops).st, Depth(ops))
    decreases ops, 2
  {
    if ops != [] {
      var init := ops[..|ops| - 1];
      var op := ops[|ops| - 1];
      var r := Serialize(st, init);
      assert r.err == None;
      NestedFrame(st, init);
      var d := Depth(init);
      match op
      case ArrOp(c, l) => OpenDeeper(st, r.st, d, Array, c, l);
      case ObjOp(c, l) => OpenDeeper(st, r.st, d, Object, c, l);
      case EndOp => CloseShallower(st, r.st, d);
      case _ => OpFrame(r.st, op);
    }
  }

  /** A flat body, or a balanced body that completes, keeps the frame. */
  lemma BodyFrame(st: State, ops: seq<Op>)
    requires || (forall i :: 0 <= i < |ops| ==> Flat(ops[i]))
             || (Balanced(ops) && Serialize(st, ops).err == None)
    ensures SameFrame(st, Serialize(st, ops).st)
  {
    if forall i :: 0 <= i < |ops| ==> Flat(ops[i]) {
      SerializeFrame(st, ops);
    } else {
      NestedFrame(st, ops);
    }
  }

  /**
   * `arr`/`obj`, then a body, then the `end()` that closes the new frame.
   * The body is either flat calls (which may stop at an assertion) or a
   * balanced sequence that completes, with frames of its own opened and
   * closed inside.  The close restores the parent exactly as the open's
   * slot left it, the stack is back at its depth before the open, and the
   * close call carries the same `varsize` and `inl` flags as the open call
   * (and, for a bounded frame, the size the open announced).
   */
  lemma CloseRestoresParent(st: State, kind: Kind, capacity: int, lineSize: uint32, ops: seq<Op>)
    requires kind == Object || kind == Array
    requires OpenBlock(st, kind, capacity, lineSize).err == None
    requires || (forall i :: 0 <= i < |ops| ==> Flat(ops[i]))
             || (Balanced(ops) && Serialize(OpenBlock(st, kind, capacity, lineSize).st, ops).err == None)
    requires CloseBlock(Serialize(OpenBlock(st, kind, capacity, lineSize).st, ops).st).err == None
    ensures var o := OpenBlock(st, kind, capacity, lineSize);
      var c := CloseBlock(Serialize(o.st, ops).st);
      && c.st.stack == st.stack
      && c.st.cur == Slot(st, true, true).st.cur
      && |o.events| > 0 && |c.events| == 1
    ensures var o := OpenBlock(st, kind, capacity, lineSize);
      var openCall := o.events[|o.events| - 1];
      var closeCall := CloseBlock(Serialize(o.st, ops).st).events[0];
      && (if kind == Object then openCall.WriteOpenObject? && closeCall.WriteCloseObject?
          else openCall.WriteOpenArray? && closeCall.WriteCloseArray?)
      && closeCall.varsize == openCall.varsize && closeCall.inl == openCall.inl
      && openCall.size == capacity
      && (capacity >= 0 ==> closeCall.size == capacity)
  {
    var o := OpenBlock(st, kind, capacity, lineSize);
    JsonProps.OpenBlockPushes(st, kind, capacity, lineSize);
    BodyFrame(o.st, ops);
    var s := Serialize(o.st, ops);
    JsonProps.CloseBlockPops(s.st);
    assert s.st.stack == st.stack + [Slot(st, true, true).st.cur];
  }
}
