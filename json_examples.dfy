/**
 * Short documents written from a fresh writer, showing the capacity rule,
 * the one-container rule, key/value alternation and nesting on concrete
 * calls, and one bulk write into an array.
 */
module JsonExamples {
  import opened JsonModel
  import JsonBulk
  import JsonProps
  import JsonNesting

  /**
   * `arr(3)` followed by three values closes; a fourth value exceeds the
   * capacity, and closing after two values is refused.
   */
  lemma CapacityThree()
    ensures var a := OpenBlock(Initial, Array, 3, 0);
      var w1 := PlainVal(a.st, Atom(Int(1)));
      var w2 := PlainVal(w1.st, Atom(Int(2)));
      var w3 := PlainVal(w2.st, Atom(Int(3)));
      && a.err == None && w1.err == None && w2.err == None && w3.err == None
      && CloseBlock(w3.st).err == None
      && CloseBlock(w3.st).st.stack == []
      && PlainVal(w3.st, Atom(Int(4))).err == Some(CapacityExceeded)
      && CloseBlock(w2.st).err == Some(CapacityNotReached)
  {
    var a := OpenBlock(Initial, Array, 3, 0);
    assert a.st.cur == NewBlock(Array, 3, 0) && a.st.stack == [Advance(RootBlock)];
    JsonBulk.PlainValInArray(a.st, Scalar(Int(1)));
    var w1 := PlainVal(a.st, Atom(Int(1)));
    JsonBulk.PlainValInArray(w1.st, Scalar(Int(2)));
    var w2 := PlainVal(w1.st, Atom(Int(2)));
    JsonBulk.PlainValInArray(w2.st, Scalar(Int(3)));
    var w3 := PlainVal(w2.st, Atom(Int(3)));
    assert w3.st.cur.size == 3 && w3.st.stack == [Advance(RootBlock)];
  }

  /** `obj()`, `end()`, then `arr()`: the second top-level container is refused. */
  lemma OneDocument()
    ensures var o := OpenBlock(Initial, Object, -1, 0);
      var e := CloseBlock(o.st);
      && o.err == None && e.err == None
      && OpenBlock(e.st, Array, -1, 0).err == Some(OneContainerPerInstance)
  {
    var o := OpenBlock(Initial, Object, -1, 0);
    assert o.st.stack == [Advance(RootBlock)];
    JsonProps.OneContainerAtRoot(CloseBlock(o.st).st, Array, -1, 0);
  }

  /**
   * In an object, key, value, key, value in strict alternation: two pairs,
   * the keys written as keys, and the object closes.
   */
  lemma TwoPairs()
    ensures var o := OpenBlock(Initial, Object, -1, 0);
      var p1 := Pair(o.st, Str("a"), Atom(Int(1)));
      var p2 := Pair(p1.st, Str("b"), Atom(Int(2)));
      && o.err == None && p1.err == None && p2.err == None
      && p2.st.cur.size == 2
      && p1.events[1] == WriteValue(Text("a"), true) && p1.events[2] == WriteValue(Scalar(Int(1)), false)
      && CloseBlock(p2.st).err == None
  {
    var o := OpenBlock(Initial, Object, -1, 0);
    FreshObject();
    var x := o.st;
    JsonProps.PairInObject(x, Str("a"), Atom(Int(1)), Text("a"), Scalar(Int(1)));
    var p1 := Pair(x, Str("a"), Atom(Int(1)));
    JsonProps.PairInObject(p1.st, Str("b"), Atom(Int(2)), Text("b"), Scalar(Int(2)));
    var p2 := Pair(p1.st, Str("b"), Atom(Int(2)));
    assert p2.st.cur.kind == Object && p2.st.cur.capacity == -1 && !p2.st.cur.wroteKey && p2.st.stack != [];
  }

  /** `obj()` on a new writer: the root's one slot, then an empty unbounded object. */
  lemma FreshObject()
    ensures OpenBlock(Initial, Object, -1, 0)
         == Ok(State(NewBlock(Object, -1, 0), [Advance(RootBlock)], InitialDataLineSize),
               [WriteNextValue(true, true), WriteOpenObject(true, -1, false)])
  {
  }

  /**
   * Five 4-byte integers given to a sink that accepts data blocks, from a
   * buffer: one slot, `writeOpenData(5, 20)`, one item of 20 bytes,
   * `writeCloseData(5, 20)`.
   */
  lemma FiveIntsAccepted(st: State)
    requires st.cur.kind == Array && (st.cur.capacity < 0 || st.cur.size < st.cur.capacity)
    ensures var xs := [Scalar(Int(1)), Scalar(Int(2)), Scalar(Int(3)), Scalar(Int(4)), Scalar(Int(5))];
      Data(st, xs, 4, Pointer, UseDefaultSize, true).events
        == [WriteNextValue(st.cur.size == 0, Newline(st.cur)), WriteOpenData(5, 20), WriteDataItem(xs, 20), WriteCloseData(5, 20)]
  {
    var xs := [Scalar(Int(1)), Scalar(Int(2)), Scalar(Int(3)), Scalar(Int(4)), Scalar(Int(5))];
    JsonProps.SlotInArray(st, false, false);
    JsonProps.DataAccepted(st, xs, 4, Pointer, UseDefaultSize);
  }

  /**
   * `obj()`, `val("a")`, `arr()`, `val(1)`, `end()`, `end()`: an object
   * whose key "a" holds an array.  No call fails, and the writer ends back
   * at the root with nothing left open.
   */
  lemma NestedDocument()
    ensures var s1 := OpenBlock(Initial, Object, -1, 0);
      var s2 := PlainVal(s1.st, Str("a"));
      var s3 := OpenBlock(s2.st, Array, -1, 0);
      var s4 := PlainVal(s3.st, Atom(Int(1)));
      var s5 := CloseBlock(s4.st);
      var s6 := CloseBlock(s5.st);
      && s1.err == None && s2.err == None && s3.err == None
      && s4.err == None && s5.err == None && s6.err == None
      && |s3.st.stack| == 2 && s5.st.stack == s1.st.stack
      && s6.st.stack == [] && Dispose(s6.st) == None
  {
    var s1 := OpenBlock(Initial, Object, -1, 0);
    JsonProps.OpenBlockPushes(Initial, Object, -1, 0);
    assert s1.err == None && s1.st.stack == [Advance(RootBlock)];
    var s2 := PlainVal(s1.st, Str("a"));
    JsonProps.SlotInObject(s1.st, true, false);
    assert s2.err == None && s2.st.stack == s1.st.stack && s2.st.cur.kind == Object && s2.st.cur.wroteKey;
    var s3 := OpenBlock(s2.st, Array, -1, 0);
    JsonProps.SlotInObject(s2.st, true, true);
    JsonProps.OpenBlockPushes(s2.st, Array, -1, 0);
    assert s3.err == None && |s3.st.stack| == 2 && s3.st.cur == NewBlock(Array, -1, 0);
    var s4 := PlainVal(s3.st, Atom(Int(1)));
    JsonBulk.PlainValInArray(s3.st, Scalar(Int(1)));
    assert s4.err == None && s4.st.stack == s3.st.stack && s4.st.cur.kind == Array;
    var s5 := CloseBlock(s4.st);
    JsonProps.CloseBlockPops(s4.st);
    assert s5.err == None && s5.st.stack == s1.st.stack && s5.st.cur.kind == Object && !s5.st.cur.wroteKey;
    JsonProps.CloseBlockPops(s5.st);
  }

  /** The calls of `NestedDocument`, as a `serialize` body would make them, are balanced. */
  lemma NestedDocumentBalanced()
    ensures JsonNesting.Balanced([ObjOp(-1, 0), ValOp(Str("a")), ArrOp(-1, 0), ValOp(Atom(Int(1))), EndOp, EndOp])
  {
    var o0, o1, o2, o3, o4, o5 := ObjOp(-1, 0), ValOp(Str("a")), ArrOp(-1, 0), ValOp(Atom(Int(1))), EndOp, EndOp;
    assert [o0][..0] == [];
    assert JsonNesting.Depth([]) == 0 && JsonNesting.Nested([]);
    assert JsonNesting.Depth([o0]) == 1;
    assert JsonNesting.Nested([o0]);
    assert [o0, o1][..1] == [o0];
    assert JsonNesting.Nested([o0, o1]) && JsonNesting.Depth([o0, o1]) == 1;
    assert [o0, o1, o2][..2] == [o0, o1];
    assert JsonNesting.Nested([o0, o1, o2]) && JsonNesting.Depth([o0, o1, o2]) == 2;
    assert [o0, o1, o2, o3][..3] == [o0, o1, o2];
    assert JsonNesting.Nested([o0, o1, o2, o3]) && JsonNesting.Depth([o0, o1, o2, o3]) == 2;
    assert [o0, o1, o2, o3, o4][..4] == [o0, o1, o2, o3];
    assert JsonNesting.Nested([o0, o1, o2, o3, o4]) && JsonNesting.Depth([o0, o1, o2, o3, o4]) == 1;
    assert [o0, o1, o2, o3, o4, o5][..5] == [o0, o1, o2, o3, o4];
  }
}
