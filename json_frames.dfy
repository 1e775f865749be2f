/**
 * Properties of a frame's counters and of the invariant `Wf`: what
 * `nextValue` does to `size` and `lineSize`, the line-wrap period, and `Wf`
 * kept by the primitive operations (`nextValue`, `checkKey`, the slot,
 * `openBlock` and `closeBlock`).
 */
module JsonFrames {
  import opened JsonModel

  /** The frame after `k` calls of `nextValue`. */
  function Advanced(b: Block, k: nat): Block {
    if k == 0 then b else Advance(Advanced(b, k - 1))
  }

  /** The `newline` flag of the `k`-th `nextValue` call (from 1) on frame `b`. */
  predicate NewlineAt(b: Block, k: nat)
    requires k >= 1
  {
    Newline(Advanced(b, k - 1))
  }

  /** `k` writes change only the frame's `size` (by `k`) and its line counter. */
  lemma {:induction false} AdvancedFields(b: Block, k: nat)
    ensures Advanced(b, k) == b.(size := b.size + k, lineSize := Advanced(b, k).lineSize)
  {
    if k > 0 {
      AdvancedFields(b, k - 1);
    }
  }

  // ----------------------------------------------------------------------
  // Counters
  // ----------------------------------------------------------------------

  /**
   * `nextValue`, when no assertion fails: one `writeNextValue` call whose
   * `first` says the frame was empty and whose `newline` says the incremented
   * line counter passed `maxLineSize`; `size` grows by one and the line
   * counter is the incremented one, or 1 after a newline.  Nothing else
   * changes.
   */
  lemma NextValueCounters(st: State, ispair: bool, isblock: bool)
    requires NextValueCheck(st.cur, ispair, isblock) == None
    ensures var r := NextValue(st, ispair, isblock);
      && r.err == None
      && r.events == [WriteNextValue(st.cur.size == 0, Incr(st.cur.lineSize) > st.cur.maxLineSize)]
      && r.st.cur.size == st.cur.size + 1
      && r.st.cur.lineSize == (if Incr(st.cur.lineSize) > st.cur.maxLineSize then 1 else Incr(st.cur.lineSize))
      && r.st.cur == st.cur.(size := r.st.cur.size, lineSize := r.st.cur.lineSize)
      && r.st.stack == st.stack && r.st.defaultDataLineSize == st.defaultDataLineSize
  {
  }

  /**
   * After any write the line counter is between 1 and max(1, maxLineSize),
   * except when the 32-bit `++lineSize` wraps: that happens exactly when
   * both the counter and `maxLineSize` are 2^32 - 1, and leaves the counter 0.
   */
  lemma AdvanceBounds(b: Block)
    requires b.lineSize as int <= Max1(b.maxLineSize)
    ensures Advance(b).lineSize as int <= Max1(b.maxLineSize)
    ensures Advance(b).lineSize == 0 <==> b.maxLineSize == MaxUInt32 && b.lineSize == MaxUInt32
    ensures Advance(b).lineSize == 0 ==> !Newline(b)
  {
  }

  lemma MulBound(d: int, m: int)
    requires m > 0
    ensures d >= 1 ==> d * m >= m
    ensures d <= -1 ==> d * m <= -m
  {
    if d >= 1 {
      assert d * m == (d - 1) * m + m;
    } else if d <= -1 {
      assert d * m == (d + 1) * m - m;
    }
  }

  /** Euclidean division is unique: x = q * m + r with 0 <= r < m fixes r as x % m. */
  lemma ModUnique(x: int, q: int, r: int, m: int)
    requires m > 0 && 0 <= r < m && x == q * m + r
    ensures x % m == r
  {
    var q2, r2 := x / m, x % m;
    assert (q - q2) * m == r2 - r;
    MulBound(q - q2, m);
  }

  lemma ModStep(k: nat, m: nat)
    requires m > 0
    ensures (k + 1) % m == if k % m == m - 1 then 0 else k % m + 1
  {
    var q, r := k / m, k % m;
    if r == m - 1 {
      assert k + 1 == (q + 1) * m + 0;
      ModUnique(k + 1, q + 1, 0, m);
    } else {
      ModUnique(k + 1, q, r + 1, m);
    }
  }

  /**
   * The line counter of a fresh frame with `maxLineSize` m (0 < m < 2^32 - 1)
   * after k writes is (k - 1) mod m + 1, and the k-th write reports a newline
   * exactly when k > 1 and k - 1 is a multiple of m.
   */
  lemma {:induction false} LineWrapPeriod(kind: Kind, capacity: int, m: uint32, k: nat)
    requires 0 < m < MaxUInt32 && k >= 1
    ensures Advanced(NewBlock(kind, capacity, m), k).lineSize as int == (k - 1) % m as int + 1
    ensures NewlineAt(NewBlock(kind, capacity, m), k) <==> k > 1 && (k - 1) % m as int == 0
  {
    var b := NewBlock(kind, capacity, m);
    if k > 1 {
      LineWrapPeriod(kind, capacity, m, k - 1);
      AdvancedFields(b, k - 1);
      ModStep(k - 2, m as int);
    }
  }

  /** With `maxLineSize` 0, every write reports a newline and leaves the counter at 1. */
  lemma {:induction false} LineWrapZero(kind: Kind, capacity: int, k: nat)
    requires k >= 1
    ensures Advanced(NewBlock(kind, capacity, 0), k).lineSize == 1
    ensures NewlineAt(NewBlock(kind, capacity, 0), k)
  {
    if k > 1 {
      LineWrapZero(kind, capacity, k - 1);
      AdvancedFields(NewBlock(kind, capacity, 0), k - 1);
    }
  }

  /** With `maxLineSize` 3, of seven writes exactly the 4th and the 7th report a newline. */
  lemma LineWrapThree(kind: Kind, capacity: int)
    ensures forall k :: 1 <= k <= 7 ==> (NewlineAt(NewBlock(kind, capacity, 3), k) <==> k == 4 || k == 7)
  {
    forall k | 1 <= k <= 7
      ensures NewlineAt(NewBlock(kind, capacity, 3), k) <==> k == 4 || k == 7
    {
      LineWrapPeriod(kind, capacity, 3, k);
    }
  }

  // ----------------------------------------------------------------------
  // The invariant Wf under the primitive operations
  // ----------------------------------------------------------------------

  lemma NextValueWf(st: State, ispair: bool, isblock: bool)
    requires Wf(st)
    ensures Wf(NextValue(st, ispair, isblock).st)
  {
    if NextValueCheck(st.cur, ispair, isblock) == None {
      var b := st.cur;
      AdvanceBounds(b);
    }
  }

  lemma CheckKeyWf(st: State, allowKey: bool)
    requires Wf(st)
    ensures Wf(CheckKey(st, allowKey).st)
  {
  }

  lemma SlotWf(st: State, allowKey: bool, isblock: bool)
    requires Wf(st)
    ensures Wf(Slot(st, allowKey, isblock).st)
  {
    CheckKeyWf(st, allowKey);
    NextValueWf(CheckKey(st, allowKey).st, st.cur.kind == Object, isblock);
  }

  lemma OpenBlockWf(st: State, kind: Kind, capacity: int, lineSize: uint32)
    requires Wf(st)
    ensures Wf(OpenBlock(st, kind, capacity, lineSize).st)
  {
    SlotWf(st, true, true);
  }

  lemma CloseBlockWf(st: State)
    requires Wf(st)
    ensures Wf(CloseBlock(st).st)
  {
  }
}
