/**
 * Properties of the bulk data path (`data`, `values`, `arr(values, ...)`)
 * and of running a `serialize` body.
 */
module JsonBulk {
  import opened JsonModel
  import opened JsonFrames

  /** The payloads of the `writeValue` calls among `events`, in order. */
  function Written(events: seq<Event>): seq<Value> {
    if events == [] then []
    else
      var last := events[|events| - 1];
      Written(events[..|events| - 1]) + (if last.WriteValue? then [last.value] else [])
  }

  lemma {:induction false} WrittenAppend(a: seq<Event>, b: seq<Event>)
    ensures Written(a + b) == Written(a) + Written(b)
    decreases |b|
  {
    if b != [] {
      assert (a + b)[..|a + b| - 1] == a + b[..|b| - 1];
      WrittenAppend(a, b[..|b| - 1]);
    } else {
      assert a + b == a;
    }
  }

  /** The payload written by one slot and one `writeValue` call. */
  lemma WrittenOne(first: bool, newline: bool, v: Value)
    ensures Written([WriteNextValue(first, newline), WriteValue(v, false)]) == [v]
  {
    var e := [WriteNextValue(first, newline), WriteValue(v, false)];
    assert e[..1] == [e[0]] && [e[0]][..0] == [];
    assert Written([e[0]]) == [];
    assert Written(e) == Written(e[..1]) + [v];
  }

  /**
   * `val(x)` of a primitive or a string in an array frame with room left:
   * one slot (`writeNextValue`) and one `writeValue` call that is not a
   * key, and nothing else changes but the frame's counters.
   */
  lemma PlainValInArray(st: State, v: Value)
    requires st.cur.kind == Array && !st.cur.wroteKey
    requires st.cur.capacity < 0 || st.cur.size < st.cur.capacity
    ensures PlainVal(st, ArgOf(v))
         == Ok(st.(cur := Advance(st.cur)), [WriteNextValue(st.cur.size == 0, Newline(st.cur)), WriteValue(v, false)])
  {
    var r := Slot(st, true, false);
    assert r == Ok(st.(cur := Advance(st.cur)), [WriteNextValue(st.cur.size == 0, Newline(st.cur))]);
  }

  /**
   * The loop of `arr(values, ...)` in an array frame with room for all the
   * elements: no write fails, the enclosing frames stay as they were, the
   * frame has taken one slot per element, and the `writeValue` calls carry
   * the elements in order.
   */
  lemma {:induction false} FillArray(st: State, elems: seq<Value>)
    requires st.cur.kind == Array && !st.cur.wroteKey
    requires st.cur.capacity < 0 || st.cur.size + |elems| <= st.cur.capacity
    ensures var r := WriteAll(st, elems);
      && r.err == None
      && r.st == st.(cur := Advanced(st.cur, |elems|))
      && Written(r.events) == elems
  {
    if elems != [] {
      var init, last := elems[..|elems| - 1], elems[|elems| - 1];
      FillArray(st, init);
      JsonFrames.AdvancedFields(st.cur, |init|);
      FillStep(st, elems);
      assert Advanced(st.cur, |elems|) == Advance(Advanced(st.cur, |init|));
      assert init + [last] == elems;
    }
  }

  /** One more element of the loop of `arr(values, ...)`, after the others left room for it. */
  lemma FillStep(st: State, elems: seq<Value>)
    requires elems != []
    requires var r := WriteAll(st, elems[..|elems| - 1]);
      && r.err == None && r.st.cur.kind == Array && !r.st.cur.wroteKey
      && (r.st.cur.capacity < 0 || r.st.cur.size < r.st.cur.capacity)
    ensures var r := WriteAll(st, elems[..|elems| - 1]);
      var t := WriteAll(st, elems);
      && t.err == None
      && t.st == r.st.(cur := Advance(r.st.cur))
      && Written(t.events) == Written(r.events) + [elems[|elems| - 1]]
  {
    var r, last := WriteAll(st, elems[..|elems| - 1]), elems[|elems| - 1];
    PlainValInArray(r.st, last);
    var p := PlainVal(r.st, ArgOf(last));
    WrittenAppend(r.events, p.events);
    WrittenOne(r.st.cur.size == 0, Newline(r.st.cur), last);
  }

  /**
   * The sink calls of writing `elems` one value per slot into frame `b`:
   * for each element, the separator `writeNextValue` with that slot's
   * `first` and `newline` flags, then one non-key `writeValue`.
   */
  function Separated(b: Block, elems: seq<Value>): seq<Event> {
    if elems == [] then []
    else
      var k := |elems| - 1;
      Separated(b, elems[..k]) + [WriteNextValue(Advanced(b, k).size == 0, Newline(Advanced(b, k))), WriteValue(elems[k], false)]
  }

  /** The calls of `Separated`, position by position: a separator and a value per element, in order. */
  lemma {:induction false} SeparatedShape(b: Block, elems: seq<Value>)
    ensures |Separated(b, elems)| == 2 * |elems|
    ensures forall i :: 0 <= i < |elems| ==>
      && Separated(b, elems)[2 * i] == WriteNextValue(Advanced(b, i).size == 0, Newline(Advanced(b, i)))
      && Separated(b, elems)[2 * i + 1] == WriteValue(elems[i], false)
  {
    if elems != [] {
      var k := |elems| - 1;
      var init := elems[..k];
      SeparatedShape(b, init);
      forall i | 0 <= i < k
        ensures Separated(b, elems)[2 * i] == WriteNextValue(Advanced(b, i).size == 0, Newline(Advanced(b, i)))
        ensures Separated(b, elems)[2 * i + 1] == WriteValue(elems[i], false)
      {
        assert init[i] == elems[i];
      }
    }
  }

  /**
   * The loop of `arr(values, ...)` in an array frame with room for all the
   * elements makes exactly the calls `Separated` lists.
   */
  lemma {:induction false} FillArrayEvents(st: State, elems: seq<Value>)
    requires st.cur.kind == Array && !st.cur.wroteKey
    requires st.cur.capacity < 0 || st.cur.size + |elems| <= st.cur.capacity
    ensures WriteAll(st, elems).events == Separated(st.cur, elems)
  {
    if elems != [] {
      var k := |elems| - 1;
      var init := elems[..k];
      FillArrayEvents(st, init);
      FillArray(st, init);
      JsonFrames.AdvancedFields(st.cur, k);
      var r := WriteAll(st, init);
      PlainValInArray(r.st, elems[k]);
      assert WriteAll(st, elems) == Then(r, PlainVal(r.st, ArgOf(elems[k])));
    }
  }

  /** Once an operation of a `serialize` body fails, the rest of the body does not run. */
  lemma {:induction false} SerializeStops(st: State, ops: seq<Op>, i: nat)
    requires i <= |ops| && Serialize(st, ops[..i]).err.Some?
    ensures Serialize(st, ops) == Serialize(st, ops[..i])
    decreases |ops|
  {
    if i == |ops| {
      assert ops[..i] == ops;
    } else {
      var n := |ops| - 1;
      assert ops[..n][..i] == ops[..i];
      SerializeStops(st, ops[..n], i);
    }
  }
}
