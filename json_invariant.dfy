/**
 * The writer's invariant `Wf` is kept by every public operation, whether
 * it completes or stops at an assertion, and two of the assertions are
 * internal consistency checks that no sequence of public calls can make
 * fail: `nextValue`'s "Can only write key-value pairs within an object"
 * (every caller passes `inObject()` as `ispair`) and `openBlock`'s
 * "Unknown block type" (only `arr` and `obj` open frames).
 */
module JsonInvariant {
  import opened JsonModel
  import JsonFrames

  /** The outcome keeps the invariant and did not stop at one of the two unreachable assertions. */
  predicate Keeps(r: Res) {
    && Wf(r.st)
    && r.err != Some(PairOutsideObject)
    && r.err != Some(UnknownBlockType)
  }

  lemma ThenKeeps(r1: Res, r2: Res)
    requires Keeps(r1) && (r1.err == None ==> Keeps(r2))
    ensures Keeps(Then(r1, r2))
  {
  }

  lemma SlotKeeps(st: State, allowKey: bool, isblock: bool)
    requires Wf(st)
    ensures Keeps(Slot(st, allowKey, isblock))
  {
    JsonFrames.SlotWf(st, allowKey, isblock);
  }

  lemma OpenKeeps(st: State, kind: Kind, capacity: int, lineSize: uint32)
    requires Wf(st) && (kind == Object || kind == Array)
    ensures Keeps(OpenBlock(st, kind, capacity, lineSize))
  {
    JsonFrames.OpenBlockWf(st, kind, capacity, lineSize);
    SlotKeeps(st, true, true);
  }

  lemma CloseKeeps(st: State)
    requires Wf(st)
    ensures Keeps(CloseBlock(st))
  {
    JsonFrames.CloseBlockWf(st);
  }

  lemma NulKeeps(st: State)
    requires Wf(st)
    ensures Keeps(Nul(st))
  {
    SlotKeeps(st, false, false);
  }

  lemma PlainValKeeps(st: State, a: Arg)
    requires Wf(st)
    ensures Keeps(PlainVal(st, a))
  {
    SlotKeeps(st, true, false);
  }

  lemma {:induction false} WriteAllKeeps(st: State, elems: seq<Value>)
    requires Wf(st)
    ensures Keeps(WriteAll(st, elems))
  {
    if elems != [] {
      var init := elems[..|elems| - 1];
      WriteAllKeeps(st, init);
      var r := WriteAll(st, init);
      PlainValKeeps(r.st, ArgOf(elems[|elems| - 1]));
      ThenKeeps(r, PlainVal(r.st, ArgOf(elems[|elems| - 1])));
    }
  }

  lemma ArrValuesKeeps(st: State, elems: seq<Value>, lineSize: uint32)
    requires Wf(st)
    ensures Keeps(ArrValues(st, elems, lineSize))
  {
    var r1 := OpenBlock(st, Array, |elems|, lineSize);
    OpenKeeps(st, Array, |elems|, lineSize);
    WriteAllKeeps(r1.st, elems);
    var r2 := Then(r1, WriteAll(r1.st, elems));
    CloseKeeps(r2.st);
  }

  lemma ValuesKeeps(st: State, elems: seq<Value>, elemSize: nat, layout: Layout, lineSize: uint32, accepts: bool)
    requires Wf(st)
    ensures Keeps(Values(st, elems, elemSize, layout, lineSize, accepts))
  {
    if !accepts {
      JsonFrames.CheckKeyWf(st, true);
      ArrValuesKeeps(CheckKey(st, true).st, elems, lineSize);
    }
  }

  lemma DataKeeps(st: State, elems: seq<Value>, elemSize: nat, layout: Layout, lineSize: uint32, accepts: bool)
    requires Wf(st)
    ensures Keeps(Data(st, elems, elemSize, layout, lineSize, accepts))
  {
    SlotKeeps(st, false, false);
    var r := Slot(st, false, false);
    var line := if lineSize == UseDefaultSize then r.st.defaultDataLineSize else lineSize;
    ValuesKeeps(r.st, elems, elemSize, layout, line, accepts);
  }

  lemma ValueArrayKeeps(st: State, a: Arg, iskey: bool)
    requires Wf(st) && (a.CharBuf? || a.Fixed?)
    ensures Keeps(ValueArray(st, a, iskey))
  {
    if a.Fixed? {
      JsonFrames.CheckKeyWf(st, true);
      DataKeeps(CheckKey(st, true).st, a.elems, a.elemSize, Pointer, UseDefaultSize, a.sinkAccepts);
    }
  }

  lemma ValArrayKeeps(st: State, a: Arg)
    requires Wf(st) && (a.CharBuf? || a.Fixed?)
    ensures Keeps(ValArray(st, a))
  {
    SlotKeeps(st, true, false);
    var r := Slot(st, true, false);
    ValueArrayKeeps(r.st, a, r.st.cur.wroteKey);
  }

  lemma ValKeeps(st: State, a: Arg)
    requires Wf(st)
    ensures Keeps(Val(st, a))
    decreases a, 0
  {
    match a
    case Serial(ops) => SerializeKeeps(st, ops);
    case CharBuf(_) => ValArrayKeeps(st, a);
    case Fixed(_, _, _) => ValArrayKeeps(st, a);
    case _ => PlainValKeeps(st, a);
  }

  lemma PairKeeps(st: State, k: Arg, v: Arg)
    requires Wf(st)
    ensures Keeps(Pair(st, k, v))
    decreases PairOp(k, v), 1
  {
    ValKeeps(st, k);
    var r1 := Val(st, k);
    var r3 := Val(r1.st, v);
    ThenIsThen(r1, r3);
    assert Pair(st, k, v) == Then(Then(r1, Is(r1.st)), r3);
    if r1.err == None && Is(r1.st).err == None {
      ValKeeps(r1.st, v);
    }
  }

  lemma PairDataKeeps(st: State, k: Arg, elems: seq<Value>, elemSize: nat, layout: Layout, accepts: bool)
    requires Wf(st)
    ensures Keeps(PairData(st, k, elems, elemSize, layout, accepts))
    decreases PairDataOp(k, elems, elemSize, layout, accepts), 1
  {
    ValKeeps(st, k);
    var r1 := Val(st, k);
    var r3 := Data(r1.st, elems, elemSize, layout, UseDefaultSize, accepts);
    ThenIsThen(r1, r3);
    assert PairData(st, k, elems, elemSize, layout, accepts) == Then(Then(r1, Is(r1.st)), r3);
    if r1.err == None && Is(r1.st).err == None {
      DataKeeps(r1.st, elems, elemSize, layout, UseDefaultSize, accepts);
    }
  }

  lemma ApplyKeeps(st: State, op: Op)
    requires Wf(st)
    ensures Keeps(Apply(st, op))
    decreases op, 2
  {
    match op
    case ArrOp(c, l) => OpenKeeps(st, Array, c, l);
    case ObjOp(c, l) => OpenKeeps(st, Object, c, l);
    case EndOp => CloseKeeps(st);
    case IsOp =>
    case NulOp => NulKeeps(st);
    case ValOp(a) => ValKeeps(st, a);
    case ArrValuesOp(elems, l) => ArrValuesKeeps(st, elems, l);
    case DataOp(elems, size, layout, l, accepts) => DataKeeps(st, elems, size, layout, l, accepts);
    case PairOp(k, v) => PairKeeps(st, k, v);
    case PairDataOp(k, elems, size, layout, accepts) => PairDataKeeps(st, k, elems, size, layout, accepts);
  }

  lemma SerializeKeeps(st: State, ops: seq<Op>)
    requires Wf(st)
    ensures Keeps(Serialize(st, ops))
    decreases ops, 3
  {
    if ops != [] {
      var init := ops[..|ops| - 1];
      SerializeKeeps(st, init);
      var r := Serialize(st, init);
      if r.err == None {
        ApplyKeeps(r.st, ops[|ops| - 1]);
      }
    }
  }

  /** From a fresh writer, no sequence of public calls trips the two consistency assertions. */
  lemma ScriptKeeps(ops: seq<Op>)
    ensures Keeps(Serialize(Initial, ops))
  {
    SerializeKeeps(Initial, ops);
  }
}
