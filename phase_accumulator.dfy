/** The phase accumulator that `fillBuffer` runs, as values: where `phase`
    stands at each step, which table entry each step reads, whether a step
    reads outside the table, and the block of samples one fill produces. */
module PhaseAccumulator {
  import opened JavaInt
  import opened Wavetable

  /** The largest step for which `phase + frequency` never overflows a Java
      `int` once `phase` has been reduced below the table length. */
  const MAX_SAFE_STEP: int := INT32_MAX - (SAMPLE_RATE - 1)

  /** A start phase and a step for which the accumulator stays inside the table. */
  predicate SafeStep(p0: int32, f: int32)
  {
    0 <= p0 && 0 <= f <= MAX_SAFE_STEP
  }

  /** The value of `phase` at the top of step `i` of a fill that started at
      `p0`: each step reduces it with Java's `%` and adds `f` in 32-bit
      arithmetic. With a step that cannot overflow, every phase after the
      first step lies within N of `f`. */
  function PhaseAt(p0: int32, f: int32, i: nat): (p: int32)
    ensures 0 < i && 0 <= f <= MAX_SAFE_STEP ==> f - SAMPLE_RATE < p < f + SAMPLE_RATE
  {
    if i == 0 then p0 else AddInt(JavaRem(PhaseAt(p0, f, i - 1), SAMPLE_RATE), f)
  }

  /** The table index step `i` reads: the reduced phase, which is negative
      (and so outside the table) whenever the phase was negative. */
  function ReadIndex(p0: int32, f: int32, i: nat): (r: int)
    ensures -SAMPLE_RATE < r < SAMPLE_RATE
  {
    JavaRem(PhaseAt(p0, f, i), SAMPLE_RATE)
  }

  /** None of the first `count` steps reads outside the table. */
  predicate NoFault(p0: int32, f: int32, count: nat)
  {
    forall i :: 0 <= i < count ==> 0 <= ReadIndex(p0, f, i)
  }

  /** The samples a fault-free fill of `count` slots writes, read from `table`:
      one per slot. */
  function Rendered(table: seq<int16>, p0: int32, f: int32, count: nat): (r: seq<int16>)
    requires |table| == SAMPLE_RATE
    requires NoFault(p0, f, count)
    ensures |r| == count
  {
    seq(count, i requires 0 <= i < count => table[ReadIndex(p0, f, i)])
  }

  /** A fill that got through `i` slots and reads inside the table at slot
      `i` gets through `i + 1`. */
  lemma NoFaultExtend(p0: int32, f: int32, i: nat)
    requires NoFault(p0, f, i)
    requires 0 <= ReadIndex(p0, f, i)
    ensures NoFault(p0, f, i + 1)
    ensures PhaseAt(p0, f, i + 1) == AddInt(ReadIndex(p0, f, i), f)
  {
  }

  /** A block whose every slot holds the entry its step reads is the rendered
      block. */
  lemma RenderedFrom(table: seq<int16>, p0: int32, f: int32, block: seq<int16>)
    requires |table| == SAMPLE_RATE
    requires NoFault(p0, f, |block|)
    requires forall j :: 0 <= j < |block| ==> block[j] == table[ReadIndex(p0, f, j)]
    ensures block == Rendered(table, p0, f, |block|)
  {
  }

  // ---------------------------------------------------------------------------
  // Modular arithmetic modulo the table length

  /** Shifting by a multiple of the table length keeps the remainder. */
  lemma ShiftMod(x: int, k: int)
    ensures (x + SAMPLE_RATE * k) % SAMPLE_RATE == x % SAMPLE_RATE
  {
  }

  /** Adding the same amount to two congruent numbers keeps them congruent. */
  lemma AddCongruent(a: int, b: int, c: int)
    requires a % SAMPLE_RATE == b % SAMPLE_RATE
    ensures (a + c) % SAMPLE_RATE == (b + c) % SAMPLE_RATE
  {
  }

  // ---------------------------------------------------------------------------
  // The accumulator with a non-negative start and a step that cannot overflow

  /** The exact, unreduced position after `i` steps of `f` from `p0`. */
  function Offset(p0: int, f: int, i: nat): (x: int)
  {
    if i == 0 then p0 else Offset(p0, f, i - 1) + f
  }

  /** The unreduced position is `p0 + i*f`. */
  lemma {:induction false} OffsetClosedForm(p0: int, f: int, i: nat)
    ensures Offset(p0, f, i) == p0 + i * f
  {
    if i > 0 {
      OffsetClosedForm(p0, f, i - 1);
      assert (i - 1) * f + f == i * f;
    }
  }

  /** With a safe step the phase never goes negative, is below `N + f` after
      every increment (it is left unreduced after the last one), and is
      congruent to the unreduced position modulo the table length N. */
  lemma {:induction false} PhaseInvariant(p0: int32, f: int32, i: nat)
    requires SafeStep(p0, f)
    ensures 0 <= PhaseAt(p0, f, i)
    ensures 0 < i ==> PhaseAt(p0, f, i) < SAMPLE_RATE + f
    ensures PhaseAt(p0, f, i) % SAMPLE_RATE == Offset(p0, f, i) % SAMPLE_RATE
  {
    if i > 0 {
      PhaseInvariant(p0, f, i - 1);
      var q := PhaseAt(p0, f, i - 1);
      var r := q % SAMPLE_RATE;
      assert PhaseAt(p0, f, i) == r + f;
      AddCongruent(r, q, f);
      AddCongruent(q, Offset(p0, f, i - 1), f);
    }
  }

  /** Slot `i` of a fill reads table entry `(p0 + i*f) mod N`, which lies
      inside the table. */
  lemma ReadIndexClosedForm(p0: int32, f: int32, i: nat)
    requires SafeStep(p0, f)
    ensures ReadIndex(p0, f, i) == (p0 + i * f) % SAMPLE_RATE
    ensures 0 <= ReadIndex(p0, f, i) < SAMPLE_RATE
  {
    PhaseInvariant(p0, f, i);
    OffsetClosedForm(p0, f, i);
  }

  /** With a safe step no fill of any length reads outside the table, and slot
      `i` of the block holds `table[(p0 + i*f) mod N]`. */
  lemma RenderedClosedForm(table: seq<int16>, p0: int32, f: int32, count: nat)
    requires |table| == SAMPLE_RATE
    requires SafeStep(p0, f)
    ensures NoFault(p0, f, count)
    ensures |Rendered(table, p0, f, count)| == count
    ensures forall i :: 0 <= i < count ==>
      Rendered(table, p0, f, count)[i] == table[(p0 + i * f) % SAMPLE_RATE]
  {
    forall i | 0 <= i < count
      ensures 0 <= ReadIndex(p0, f, i)
      ensures ReadIndex(p0, f, i) == (p0 + i * f) % SAMPLE_RATE
    {
      ReadIndexClosedForm(p0, f, i);
    }
  }

  /** After a fill of `count >= 1` slots the phase left behind is congruent to
      `p0 + count*f` modulo N, not negative, and below `N + f`. */
  lemma {:induction false} PhaseAfterFill(p0: int32, f: int32, count: nat)
    requires SafeStep(p0, f)
    requires 0 < count
    ensures 0 <= PhaseAt(p0, f, count) < SAMPLE_RATE + f
    ensures PhaseAt(p0, f, count) % SAMPLE_RATE == (p0 + count * f) % SAMPLE_RATE
    ensures SafeStep(PhaseAt(p0, f, count), f)
  {
    PhaseInvariant(p0, f, count);
    OffsetClosedForm(p0, f, count);
  }

  /** Every frequency the control surface offers is a safe step. */
  lemma ControlRangeIsSafe(p0: int32, f: int32)
    requires 0 <= p0
    requires MIN_FREQUENCY <= f <= MAX_FREQUENCY
    ensures SafeStep(p0, f)
    ensures forall count: nat :: NoFault(p0, f, count)
  {
    forall i: nat ensures 0 <= ReadIndex(p0, f, i) {
      ReadIndexClosedForm(p0, f, i);
    }
  }

  // ---------------------------------------------------------------------------
  // Consecutive fills continue one stream

  /** Running `a` steps and then `b` more from where they left off is the same
      as running `a + b` steps. */
  lemma {:induction false} PhaseAtSplit(p0: int32, f: int32, a: nat, b: nat)
    ensures PhaseAt(PhaseAt(p0, f, a), f, b) == PhaseAt(p0, f, a + b)
  {
    if b > 0 {
      PhaseAtSplit(p0, f, a, b - 1);
      var prev := PhaseAt(p0, f, a + b - 1);
      assert PhaseAt(p0, f, a + b) == AddInt(JavaRem(prev, SAMPLE_RATE), f);
    }
  }

  /** Two consecutive fills of `a` and `b` slots read exactly what one fill of
      `a + b` slots reads, so the block boundaries are inaudible. */
  lemma RenderedSplit(table: seq<int16>, p0: int32, f: int32, a: nat, b: nat)
    requires |table| == SAMPLE_RATE
    ensures NoFault(p0, f, a + b) <==> NoFault(p0, f, a) && NoFault(PhaseAt(p0, f, a), f, b)
    ensures NoFault(p0, f, a + b) ==>
      Rendered(table, p0, f, a + b)
        == Rendered(table, p0, f, a) + Rendered(table, PhaseAt(p0, f, a), f, b)
  {
    var p1 := PhaseAt(p0, f, a);
    forall j | 0 <= j < b
      ensures ReadIndex(p1, f, j) == ReadIndex(p0, f, a + j)
    {
      PhaseAtSplit(p0, f, a, j);
    }
    if NoFault(p0, f, a) && NoFault(p1, f, b) {
      forall i | 0 <= i < a + b
        ensures 0 <= ReadIndex(p0, f, i)
      {
        if i >= a {
          assert ReadIndex(p1, f, i - a) == ReadIndex(p0, f, i);
        }
      }
    }
    if NoFault(p0, f, a + b) {
      assert NoFault(p1, f, b) by {
        forall j | 0 <= j < b
          ensures 0 <= ReadIndex(p1, f, j)
        {
          assert ReadIndex(p1, f, j) == ReadIndex(p0, f, a + j);
        }
      }
      var whole := Rendered(table, p0, f, a + b);
      var parts := Rendered(table, p0, f, a) + Rendered(table, p1, f, b);
      assert |whole| == |parts|;
      forall i | 0 <= i < a + b
        ensures whole[i] == parts[i]
      {
        if i >= a {
          assert ReadIndex(p1, f, i - a) == ReadIndex(p0, f, i);
        }
      }
    }
  }

  /** Fills totalling exactly N slots, at any safe step, bring the phase back
      to where it started, modulo N. */
  lemma FullCycleReturns(p0: int32, f: int32, a: nat, b: nat)
    requires SafeStep(p0, f)
    requires a + b == SAMPLE_RATE
    ensures PhaseAt(PhaseAt(p0, f, a), f, b) % SAMPLE_RATE == p0 % SAMPLE_RATE
  {
    PhaseAtSplit(p0, f, a, b);
    PhaseInvariant(p0, f, SAMPLE_RATE);
    OffsetClosedForm(p0, f, SAMPLE_RATE);
    ShiftMod(p0, f);
  }

  // ---------------------------------------------------------------------------
  // Steps that leave the table

  /** A negative step read from phase 0 goes out of the table on the second
      slot: the phase becomes `f` and Java's `%` keeps it negative. */
  lemma NegativeStepFaults(f: int32, count: nat)
    requires -SAMPLE_RATE < f < 0
    requires 2 <= count
    ensures ReadIndex(0, f, 1) == f
    ensures !NoFault(0, f, count)
  {
    assert PhaseAt(0, f, 1) == f;
  }

  /** The safe bound is tight: one above it, the increment from phase N - 1
      overflows to a negative `int` and the next slot reads outside the table. */
  lemma OverflowingStepFaults(count: nat)
    requires 2 <= count
    ensures PhaseAt(SAMPLE_RATE - 1, MAX_SAFE_STEP + 1, 1) == INT32_MIN
    ensures ReadIndex(SAMPLE_RATE - 1, MAX_SAFE_STEP + 1, 1) < 0
    ensures !NoFault(SAMPLE_RATE - 1, MAX_SAFE_STEP + 1, count)
  {
    assert PhaseAt(SAMPLE_RATE - 1, MAX_SAFE_STEP + 1, 1) == INT32_MIN;
  }

  // ---------------------------------------------------------------------------
  // The square table read at one table entry per slot

  /** Reading the square table from phase 0 at step 1 for N slots gives N/2
      samples at full positive scale and then N/2 at full negative scale. */
  lemma SquareSweep()
    ensures NoFault(0, 1, SAMPLE_RATE)
    ensures |Rendered(SquareTable(), 0, 1, SAMPLE_RATE)| == SAMPLE_RATE
    ensures forall i :: 0 <= i < SAMPLE_RATE / 2 ==>
      Rendered(SquareTable(), 0, 1, SAMPLE_RATE)[i] == SHORT_MAX
    ensures forall i :: SAMPLE_RATE / 2 <= i < SAMPLE_RATE ==>
      Rendered(SquareTable(), 0, 1, SAMPLE_RATE)[i] == SHORT_MIN
  {
    RenderedClosedForm(SquareTable(), 0, 1, SAMPLE_RATE);
  }
}
