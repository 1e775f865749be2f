/**
 * `BaseJSONWriter` as a class: the current frame `cur` and the stack of
 * enclosing frames are fields that the methods update in place, as the C++
 * members `block` and `blocks` are.  The sink calls made so far are kept in
 * the ghost field `trace`.  Every operation returns the violation that
 * stopped it, if any.  It is proved to do exactly what a JsonModel function
 * says: same new state, same sink calls, same violation.  Usually that is
 * the function of the same name; `Arr` and `Obj` follow `OpenBlock`, `End`
 * follows `CloseBlock`, and the loop `WriteEach` follows `WriteAll`.  `Is`
 * and `Dispose` change nothing and state their outcome directly.
 */
module JsonWriter {
  import opened JsonModel
  import JsonFrames
  import JsonInvariant
  import JsonBulk

  class BaseJsonWriter {
    var cur: Block
    var stack: seq<Block>
    var defaultDataLineSize: uint32
    ghost var trace: seq<Event>

    /** The writer's state as a value. */
    ghost function Model(): State
      reads this
    {
      State(cur, stack, defaultDataLineSize)
    }

    ghost predicate Valid()
      reads this
    {
      Wf(Model())
    }

    /** The call ended in the state and with the violation `res` gives, having made the sink calls `res` lists. */
    twostate predicate Realises(new res: Res, new err: Option<Violation>)
      reads this
    {
      Model() == res.st && trace == old(trace) + res.events && err == res.err
    }

    /** `BaseJSONWriter()`: the root frame, and a default data line size of 32. */
    constructor ()
      ensures Valid() && Model() == Initial && trace == []
    {
      cur := NewBlock(Root, -1, 0);
      stack := [];
      defaultDataLineSize := 32;
      trace := [];
    }

    /** `~BaseJSONWriter()`: no object or array may be left open. */
    method Dispose() returns (err: Option<Violation>)
      requires Valid()
      ensures err == None <==> stack == []
      ensures err != None ==> err == Some(UnclosedBlock)
    {
      err := if InArray() || InObject() then Some(UnclosedBlock) else None;
    }

    /** `inArray()`. */
    predicate InArray()
      requires Valid()
      reads this
      ensures InArray() ==> stack != []
    {
      cur.kind == Array
    }

    /** `inObject()`. */
    predicate InObject()
      requires Valid()
      reads this
      ensures InObject() ==> stack != []
    {
      cur.kind == Object
    }

    // --------------------------------------------------------------------
    // The frame state machine
    // --------------------------------------------------------------------

    /** `nextValue(ispair, isblock)`. */
    method NextValue(ispair: bool, isblock: bool) returns (err: Option<Violation>)
      requires Valid()
      modifies this
      ensures Valid() && Realises(JsonModel.NextValue(old(Model()), ispair, isblock), err)
    {
      if (ispair && cur.kind != Object) || (!ispair && cur.kind == Object) {
        return Some(PairOutsideObject);
      }
      if !isblock && cur.kind == Root {
        return Some(MustStartWithContainer);
      }
      if cur.size != 0 && cur.kind == Root {
        return Some(OneContainerPerInstance);
      }
      if !(cur.capacity < 0 || cur.size < cur.capacity) {
        return Some(CapacityExceeded);
      }
      var first := cur.size == 0;
      cur := cur.(size := cur.size + 1);
      cur := cur.(lineSize := Incr(cur.lineSize));
      trace := trace + [WriteNextValue(first, cur.lineSize > cur.maxLineSize)];
      if cur.lineSize > cur.maxLineSize {
        cur := cur.(lineSize := 1);
      }
      err := None;
    }

    /** `checkKey(allowKey)`: the phase flips before the assertion is checked. */
    method CheckKey(allowKey: bool) returns (valueHalf: bool, err: Option<Violation>)
      requires Valid()
      modifies this
      ensures Valid() && valueHalf == ValueHalf(old(cur))
      ensures Realises(JsonModel.CheckKey(old(Model()), allowKey), err)
    {
      if !InObject() {
        return false, None;
      }
      cur := cur.(wroteKey := !cur.wroteKey);
      valueHalf := !cur.wroteKey;
      err := if allowKey || !cur.wroteKey then None else Some(KeyNotAllowed);
    }

    /** The prologue `if (!checkKey(allowKey)) nextValue(inObject(), isblock);` shared by the writes. */
    method Slot(allowKey: bool, isblock: bool) returns (err: Option<Violation>)
      requires Valid()
      modifies this
      ensures Valid() && Realises(JsonModel.Slot(old(Model()), allowKey, isblock), err)
    {
      var valueHalf;
      valueHalf, err := CheckKey(allowKey);
      if err == None && !valueHalf {
        err := NextValue(InObject(), isblock);
      }
    }

    /** `openBlock(type, capacity, lineSize)`. */
    method OpenBlock(kind: Kind, capacity: int, lineSize: uint32) returns (err: Option<Violation>)
      requires Valid()
      modifies this
      ensures Valid() && Realises(JsonModel.OpenBlock(old(Model()), kind, capacity, lineSize), err)
    {
      if kind != Object && kind != Array {
        return Some(UnknownBlockType);
      }
      ghost var st0 := Model();
      err := Slot(true, true);
      if err == None {
        ghost var st1 := Model();
        ghost var t1 := trace;
        stack := stack + [cur];
        cur := NewBlock(kind, capacity, lineSize);
        trace := trace + [OpenEvent(cur)];
        assert Model() == State(cur, st1.stack + [st1.cur], st1.defaultDataLineSize);
      }
      JsonFrames.OpenBlockWf(st0, kind, capacity, lineSize);
    }

    /** `closeBlock()`. */
    method CloseBlock() returns (err: Option<Violation>)
      requires Valid()
      modifies this
      ensures Valid() && Realises(JsonModel.CloseBlock(old(Model())), err)
    {
      if !(cur.kind != Root && stack != []) {
        return Some(UnmatchedBlocks);
      }
      if !(cur.capacity < 0 || cur.size == cur.capacity) {
        return Some(CapacityNotReached);
      }
      if cur.wroteKey {
        return Some(KeyWithoutValue);
      }
      var inl := cur.capacity >= 0 && cur.capacity <= cur.maxLineSize as int;
      if cur.kind == Object {
        trace := trace + [WriteCloseObject(cur.capacity < 0, cur.size, inl)];
      } else {
        trace := trace + [WriteCloseArray(cur.capacity < 0, cur.size, inl)];
      }
      cur := stack[|stack| - 1];
      stack := stack[..|stack| - 1];
      err := None;
    }

    /** `arr(capacity, maxLineSize)`. */
    method Arr(capacity: int, maxLineSize: uint32) returns (err: Option<Violation>)
      requires Valid()
      modifies this
      ensures Valid() && Realises(JsonModel.OpenBlock(old(Model()), Array, capacity, maxLineSize), err)
    {
      err := OpenBlock(Array, capacity, maxLineSize);
    }

    /** `obj(capacity, maxLineSize)`. */
    method Obj(capacity: int, maxLineSize: uint32) returns (err: Option<Violation>)
      requires Valid()
      modifies this
      ensures Valid() && Realises(JsonModel.OpenBlock(old(Model()), Object, capacity, maxLineSize), err)
    {
      err := OpenBlock(Object, capacity, maxLineSize);
    }

    /** `end()`. */
    method End() returns (err: Option<Violation>)
      requires Valid()
      modifies this
      ensures Valid() && Realises(JsonModel.CloseBlock(old(Model())), err)
    {
      err := CloseBlock();
    }

    /** `is()`: only checks that a key awaits its value. */
    method Is() returns (err: Option<Violation>)
      requires Valid()
      ensures err == None <==> cur.kind == Object && cur.wroteKey
      ensures err != None ==> err == Some(NoKeyToAssign)
    {
      err := if InObject() && cur.wroteKey then None else Some(NoKeyToAssign);
    }

    /** `nul()`. */
    method Nul() returns (err: Option<Violation>)
      requires Valid()
      modifies this
      ensures Valid() && Realises(JsonModel.Nul(old(Model())), err)
    {
      err := Slot(false, false);
      if err == None {
        trace := trace + [WriteNull];
      }
    }

    // --------------------------------------------------------------------
    // Value dispatch
    // --------------------------------------------------------------------

    /** `value<T>(v, iskey)`: the specialisation for `T`, or "Not a serializable value". */
    method ValueOf(a: Arg, iskey: bool) returns (err: Option<Violation>)
      requires Valid()
      modifies this
      ensures Valid() && Realises(JsonModel.ValueOf(old(Model()), a, iskey), err)
    {
      match a
      case Str(s) => trace := trace + [WriteValue(Text(s), iskey)]; err := None;
      case CStr(s) => trace := trace + [WriteValue(Text(s), iskey)]; err := None;
      case Atom(p) => trace := trace + [WriteValue(Scalar(p), iskey)]; err := None;
      case _ => err := Some(NotSerializable);
    }

    /** `__val(v)` / `__ptr(v)` for a type that is not `Serializable`. */
    method PlainVal(a: Arg) returns (err: Option<Violation>)
      requires Valid()
      modifies this
      ensures Valid() && Realises(JsonModel.PlainVal(old(Model()), a), err)
    {
      err := Slot(true, false);
      if err == None {
        err := ValueOf(a, cur.wroteKey);
      }
    }

    /** `valueArray(v, iskey)`. */
    method ValueArray(a: Arg, iskey: bool) returns (err: Option<Violation>)
      requires Valid()
      requires a.CharBuf? || a.Fixed?
      modifies this
      ensures Valid() && Realises(JsonModel.ValueArray(old(Model()), a, iskey), err)
    {
      match a
      case CharBuf(s) =>
        err := ValueOf(CStr(s), iskey);
      case Fixed(elems, elemSize, accepts) =>
        ghost var st0, t0 := Model(), trace;
        var _, _ := CheckKey(true);
        ghost var r := JsonModel.CheckKey(st0, true);
        assert r.err == None && r.events == [] && trace == t0 + [] == t0;
        err := Data(elems, elemSize, Pointer, UseDefaultSize, accepts);
        ghost var d := JsonModel.Data(r.st, elems, elemSize, Pointer, UseDefaultSize, accepts);
        assert [] + d.events == d.events;
    }

    /** `val(const T (&v)[n])`. */
    method ValArray(a: Arg) returns (err: Option<Violation>)
      requires Valid()
      requires a.CharBuf? || a.Fixed?
      modifies this
      ensures Valid() && Realises(JsonModel.ValArray(old(Model()), a), err)
    {
      ghost var st0, t0 := Model(), trace;
      err := Slot(true, false);
      ghost var r := JsonModel.Slot(st0, true, false);
      if err == None {
        err := ValueArray(a, cur.wroteKey);
        ghost var r2 := JsonModel.ValueArray(r.st, a, r.st.cur.wroteKey);
        AppendAssoc(t0, r.events, r2.events);
      }
    }

    /** `val(v)`. */
    method Val(a: Arg) returns (err: Option<Violation>)
      requires Valid()
      modifies this
      ensures Valid() && Realises(JsonModel.Val(old(Model()), a), err)
      decreases a, 0
    {
      match a
      case Serial(ops) => err := Serialize(ops);
      case CharBuf(_) => err := ValArray(a);
      case Fixed(_, _, _) => err := ValArray(a);
      case _ => err := PlainVal(a);
    }

    /** `pair(key, value)`. */
    method Pair(k: Arg, v: Arg) returns (err: Option<Violation>)
      requires Valid()
      modifies this
      ensures Valid() && Realises(JsonModel.Pair(old(Model()), k, v), err)
      decreases PairOp(k, v), 1
    {
      ghost var st0, t0 := Model(), trace;
      ghost var r1 := JsonModel.Val(st0, k);
      err := Val(k);
      ghost var r3 := JsonModel.Val(r1.st, v);
      ThenIsThen(r1, r3);
      assert JsonModel.Pair(st0, k, v) == Then(Then(r1, JsonModel.Is(r1.st)), r3);
      if err == None {
        err := Is();
        if err == None {
          err := Val(v);
          AppendAssoc(t0, r1.events, r3.events);
        }
      }
      JsonInvariant.PairKeeps(st0, k, v);
    }

    /** `pair(key, values, size)` and `pair(key, vector)`. */
    method PairData(k: Arg, elems: seq<Value>, elemSize: nat, layout: Layout, accepts: bool)
      returns (err: Option<Violation>)
      requires Valid()
      modifies this
      ensures Valid() && Realises(JsonModel.PairData(old(Model()), k, elems, elemSize, layout, accepts), err)
      decreases PairDataOp(k, elems, elemSize, layout, accepts), 1
    {
      ghost var st0, t0 := Model(), trace;
      ghost var r1 := JsonModel.Val(st0, k);
      err := Val(k);
      ghost var r3 := JsonModel.Data(r1.st, elems, elemSize, layout, UseDefaultSize, accepts);
      ThenIsThen(r1, r3);
      assert JsonModel.PairData(st0, k, elems, elemSize, layout, accepts) == Then(Then(r1, JsonModel.Is(r1.st)), r3);
      if err == None {
        err := Is();
        if err == None {
          err := Data(elems, elemSize, layout, UseDefaultSize, accepts);
          AppendAssoc(t0, r1.events, r3.events);
        }
      }
      JsonInvariant.PairDataKeeps(st0, k, elems, elemSize, layout, accepts);
    }

    /** A `Serializable`'s `serialize(*this)`: its calls in order, up to the first violation. */
    method Serialize(ops: seq<Op>) returns (err: Option<Violation>)
      requires Valid()
      modifies this
      ensures Valid() && Realises(JsonModel.Serialize(old(Model()), ops), err)
      decreases ops, 3
    {
      ghost var st0 := Model();
      err := None;
      var i := 0;
      while i < |ops| && err == None
        invariant 0 <= i <= |ops| && Valid()
        invariant Model() == JsonModel.Serialize(st0, ops[..i]).st
        invariant trace == old(trace) + JsonModel.Serialize(st0, ops[..i]).events
        invariant err == JsonModel.Serialize(st0, ops[..i]).err
      {
        assert ops[..i + 1][..i] == ops[..i];
        err := Apply(ops[i]);
        i := i + 1;
      }
      if i < |ops| {
        JsonBulk.SerializeStops(st0, ops, i);
      } else {
        assert ops[..i] == ops;
      }
    }

    /** One public call of a `serialize` body. */
    method Apply(op: Op) returns (err: Option<Violation>)
      requires Valid()
      modifies this
      ensures Valid() && Realises(JsonModel.Apply(old(Model()), op), err)
      decreases op, 2
    {
      match op
      case ArrOp(c, l) => err := Arr(c, l);
      case ObjOp(c, l) => err := Obj(c, l);
      case EndOp => err := End();
      case IsOp => err := Is();
      case NulOp => err := Nul();
      case ValOp(a) => err := Val(a);
      case ArrValuesOp(elems, l) => err := ArrValues(elems, l);
      case DataOp(elems, size, layout, l, accepts) => err := Data(elems, size, layout, l, accepts);
      case PairOp(k, v) => err := Pair(k, v);
      case PairDataOp(k, elems, size, layout, accepts) => err := PairData(k, elems, size, layout, accepts);
    }

    // --------------------------------------------------------------------
    // Bulk data
    // --------------------------------------------------------------------

    /** `data(values, size, lineSize)`, `data(T[n], lineSize)` and `data(vector, lineSize)`. */
    method Data(elems: seq<Value>, elemSize: nat, layout: Layout, lineSize: uint32, accepts: bool)
      returns (err: Option<Violation>)
      requires Valid()
      modifies this
      ensures Valid() && Realises(JsonModel.Data(old(Model()), elems, elemSize, layout, lineSize, accepts), err)
    {
      ghost var st0, t0 := Model(), trace;
      err := Slot(false, false);
      ghost var r := JsonModel.Slot(st0, false, false);
      var line := if lineSize == UseDefaultSize then defaultDataLineSize else lineSize;
      if err == None {
        err := Values(elems, elemSize, layout, line, accepts);
        ghost var r2 := JsonModel.Values(r.st, elems, elemSize, layout, line, accepts);
        AppendAssoc(t0, r.events, r2.events);
      }
      JsonInvariant.DataKeeps(st0, elems, elemSize, layout, lineSize, accepts);
    }

    /**
     * `values(values, count, lineSize)` and `values(vector, lineSize)`;
     * `accepts` is the answer of the sink's `writeOpenData`.
     */
    method Values(elems: seq<Value>, elemSize: nat, layout: Layout, lineSize: uint32, accepts: bool)
      returns (err: Option<Violation>)
      requires Valid()
      modifies this
      ensures Valid() && Realises(JsonModel.Values(old(Model()), elems, elemSize, layout, lineSize, accepts), err)
    {
      var count := |elems|;
      var bytes := count * elemSize;
      ghost var t0 := trace;
      trace := trace + [WriteOpenData(count, bytes)];
      if accepts {
        ghost var items: seq<Event>;
        if layout == Pointer {
          trace := trace + [WriteDataItem(elems, bytes)];
          items := [WriteDataItem(elems, bytes)];
        } else {
          for i := 0 to count
            invariant trace == t0 + [WriteOpenData(count, bytes)] + DataItems(elems[..i], elemSize)
          {
            assert elems[..i + 1][..i] == elems[..i];
            AppendAssoc(t0 + [WriteOpenData(count, bytes)], DataItems(elems[..i], elemSize), [WriteDataItem([elems[i]], elemSize)]);
            trace := trace + [WriteDataItem([elems[i]], elemSize)];
          }
          assert elems[..count] == elems;
          items := DataItems(elems, elemSize);
        }
        trace := trace + [WriteCloseData(count, bytes)];
        AppendAssoc(t0, [WriteOpenData(count, bytes)], items);
        AppendAssoc(t0, [WriteOpenData(count, bytes)] + items, [WriteCloseData(count, bytes)]);
        err := None;
        assert JsonModel.Values(old(Model()), elems, elemSize, layout, lineSize, accepts)
            == Ok(old(Model()), [WriteOpenData(count, bytes)] + items + [WriteCloseData(count, bytes)]);
      } else {
        ghost var st0, t1 := Model(), trace;
        var _, _ := CheckKey(true);
        ghost var r := JsonModel.CheckKey(st0, true);
        assert r.err == None && r.events == [];
        assert trace == t1 + [] == t1;
        err := ArrValues(elems, lineSize);
        ghost var r2 := JsonModel.ArrValues(r.st, elems, lineSize);
        assert Then(r, r2) == r2;
        AppendAssoc(t0, [WriteOpenData(count, bytes)], r2.events);
        assert JsonModel.Values(old(Model()), elems, elemSize, layout, lineSize, accepts)
            == Then(Ok(st0, [WriteOpenData(count, bytes)]), r2);
        JsonInvariant.ValuesKeeps(st0, elems, elemSize, layout, lineSize, accepts);
      }
    }

    /**
     * `arr(values, size, lineSize)` and `arr(vector, lineSize)`.  Each
     * `val(values[i])` takes the non-`Serializable` path, since the elements
     * are primitives or text; the new array's capacity is the element count,
     * so no element write and not the final `end()` can fail.
     */
    method ArrValues(elems: seq<Value>, lineSize: uint32) returns (err: Option<Violation>)
      requires Valid()
      modifies this
      ensures Valid() && Realises(JsonModel.ArrValues(old(Model()), elems, lineSize), err)
    {
      ghost var st0, t0 := Model(), trace;
      err := Arr(|elems|, lineSize);
      ghost var r1 := JsonModel.OpenBlock(st0, Array, |elems|, lineSize);
      if err == None {
        ghost var st1 := Model();
        WriteEach(elems);
        ghost var w := WriteAll(st1, elems);
        JsonBulk.FillArray(st1, elems);
        JsonFrames.AdvancedFields(st1.cur, |elems|);
        err := End();
        ghost var c := JsonModel.CloseBlock(w.st);
        AppendAssoc(t0, r1.events, w.events);
        AppendAssoc(t0 + r1.events, w.events, c.events);
        AppendAssoc(t0, r1.events + w.events, c.events);
        assert JsonModel.ArrValues(st0, elems, lineSize) == Then(Then(r1, w), c);
      }
    }

    /** The loop of `arr(values, ...)`: `val(values[i])` for each element, in an array with room for them all. */
    method WriteEach(elems: seq<Value>)
      requires Valid() && cur.kind == Array && !cur.wroteKey
      requires cur.capacity < 0 || cur.size + |elems| <= cur.capacity
      modifies this
      ensures Valid() && Realises(WriteAll(old(Model()), elems), None)
    {
      ghost var st1, t1 := Model(), trace;
      for i := 0 to |elems|
        invariant Valid() && stack == st1.stack && defaultDataLineSize == st1.defaultDataLineSize
        invariant WriteAll(st1, elems[..i]).err == None
        invariant Model() == WriteAll(st1, elems[..i]).st
        invariant trace == t1 + WriteAll(st1, elems[..i]).events
      {
        ghost var w := WriteAll(st1, elems[..i]);
        assert elems[..i + 1][..i] == elems[..i];
        JsonBulk.FillArray(st1, elems[..i + 1]);
        var _ := PlainVal(ArgOf(elems[i]));
        AppendAssoc(t1, w.events, JsonModel.PlainVal(w.st, ArgOf(elems[i])).events);
      }
      assert elems[..|elems|] == elems;
    }
  }
}
