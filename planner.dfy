/** The length planner of the Hadryss network: it searches for eight pooling
    factors such that eight "convolve with an unpadded kernel of 3, then pool"
    stages bring the input length down to at most ten positions (the dense size). */
module Planner {

  /** Number of length-reducing blocks whose pooling factor the planner chooses. */
  const PoolingBlocks: nat := 8

  /** The search stops as soon as the simulated final length is at most this. */
  const MaxDenseFinalLayerFeatures: int := 10

  /** The result of the search: one pooling factor per block and the final length. */
  datatype PoolingPlan = PoolingPlan(poolingSizes: seq<int>, denseSize: int)

  predicate AllPositive(factors: seq<int>)
  {
    forall k :: 0 <= k < |factors| ==> factors[k] >= 1
  }

  /** Python's `math.floor(a / b)` for a positive divisor (Dafny's `/` rounds towards
      minus infinity when the divisor is positive). */
  function FloorDiv(a: int, b: int): int
    requires b >= 1
  {
    a / b
  }

  /** FloorDiv is the floor of the true quotient: the one q with q * b <= a < q * b + b. */
  lemma FloorDivIsFloor(a: int, b: int, q: int)
    requires b >= 1
    ensures FloorDiv(a, b) * b <= a < FloorDiv(a, b) * b + b
    ensures q * b <= a < q * b + b <==> q == FloorDiv(a, b)
    ensures q * b <= a ==> q <= FloorDiv(a, b)
  {
    var r := FloorDiv(a, b);
    if q < r {
      assert (q + 1) * b <= r * b;
    } else if r < q {
      assert (r + 1) * b <= q * b;
    }
  }

  /** One simulated block: an unpadded kernel of 3 removes two positions, then the
      pooling factor floor-divides what is left. Negative lengths are not guarded. */
  function Step(size: int, factor: int): int
    requires factor >= 1
  {
    FloorDiv(size - 2, factor)
  }

  /** One block never lengthens: from two or more positions it leaves between zero and
      two fewer, and from one or fewer it leaves a negative length. */
  lemma StepShrinks(size: int, factor: int)
    requires factor >= 1
    ensures size >= 2 ==> 0 <= Step(size, factor) <= size - 2
    ensures size <= 1 ==> Step(size, factor) <= -1
  {
    var q := FloorDiv(size - 2, factor);
    FloorDivIsFloor(size - 2, factor, 0);
    if q >= 0 {
      assert q * factor == q + q * (factor - 1);
      assert q * (factor - 1) >= 0;
    }
  }

  /** The shrink simulation: `size` pushed through one Step per factor, in order. Every
      block removes at least two positions until the length drops below zero. */
  function Shrink(size: int, factors: seq<int>): (r: int)
    requires AllPositive(factors)
    ensures r <= size - 2 * |factors| || r <= -1
    decreases |factors|
  {
    if factors == [] then size
    else
      StepShrinks(Shrink(size, factors[..|factors| - 1]), factors[|factors| - 1]);
      Step(Shrink(size, factors[..|factors| - 1]), factors[|factors| - 1])
  }

  /** The eight factors the search starts from: `[1] * 8`. */
  function Ones(): (s: seq<int>)
    ensures |s| == PoolingBlocks
  {
    seq(PoolingBlocks, _ => 1)
  }

  /** The factors as they stand at the n-th check of the search. After `n / 8` full
      rounds and `n % 8` increments into the current round, the first `n % 8`
      factors are one larger than the rest. */
  function Schedule(n: nat): (s: seq<int>)
    ensures |s| == PoolingBlocks && AllPositive(s)
  {
    seq(PoolingBlocks, k requires 0 <= k < PoolingBlocks => n / 8 + (if k < n % 8 then 2 else 1))
  }

  /** The n-th check succeeds: the simulated final length is small enough. */
  predicate Succeeds(inputLength: int, n: nat)
  {
    Shrink(inputLength, Schedule(n)) <= MaxDenseFinalLayerFeatures
  }

  /** A check index at which success is certain: every factor equals max(inputLength, 1),
      so the first step already yields zero or less. */
  function Bound(inputLength: int): nat
  {
    8 * ((if inputLength > 1 then inputLength else 1) - 1)
  }

  /** The first successful check at or after `from` (or `from` itself past the bound). */
  function FirstHit(inputLength: int, from: nat): (n: nat)
    ensures from <= n
    ensures from <= Bound(inputLength) ==> n <= Bound(inputLength) && Succeeds(inputLength, n)
    ensures forall m :: from <= m < n ==> !Succeeds(inputLength, m)
    decreases Bound(inputLength) - from
  {
    BoundSucceeds(inputLength);
    if Succeeds(inputLength, from) || from >= Bound(inputLength) then from
    else FirstHit(inputLength, from + 1)
  }

  /** Reference definition of the planner: the factors at the first successful
      check, and the length they simulate to. */
  function Plan(inputLength: int): PoolingPlan
  {
    var factors := Schedule(FirstHit(inputLength, 0));
    PoolingPlan(factors, Shrink(inputLength, factors))
  }

  // ---------------------------------------------------------------------------
  // Facts about the shrink simulation

  /** A length of at most ten stays at most ten through any further block. */
  lemma StepStaysSmall(size: int, factor: int)
    requires factor >= 1 && size <= MaxDenseFinalLayerFeatures
    ensures Step(size, factor) <= MaxDenseFinalLayerFeatures
  {
  }

  /** Extending a prefix of the factors by one more factor adds one more block. */
  lemma ShrinkPrefix(size: int, factors: seq<int>, j: nat)
    requires AllPositive(factors) && j < |factors|
    ensures Shrink(size, factors[..j + 1]) == Step(Shrink(size, factors[..j]), factors[j])
  {
    assert factors[..j + 1][..j] == factors[..j];
  }

  /** Once a prefix of the simulation is at most ten, the whole simulation is. */
  lemma {:induction false} ShrinkStaysSmall(size: int, factors: seq<int>, j: nat)
    requires AllPositive(factors) && j <= |factors|
    requires Shrink(size, factors[..j]) <= MaxDenseFinalLayerFeatures
    ensures Shrink(size, factors) <= MaxDenseFinalLayerFeatures
    decreases |factors| - j
  {
    if j < |factors| {
      ShrinkPrefix(size, factors, j);
      StepStaysSmall(Shrink(size, factors[..j]), factors[j]);
      ShrinkStaysSmall(size, factors, j + 1);
    } else {
      assert factors[..j] == factors;
    }
  }

  /** With every factor 1 each block removes exactly two positions. */
  lemma {:induction false} ShrinkOfOnes(size: int, factors: seq<int>)
    requires forall k :: 0 <= k < |factors| ==> factors[k] == 1
    ensures Shrink(size, factors) == size - 2 * |factors|
    decreases |factors|
  {
    if factors != [] {
      ShrinkOfOnes(size, factors[..|factors| - 1]);
    }
  }

  // ---------------------------------------------------------------------------
  // Facts about the order in which the search visits configurations

  /** The search starts from all ones. */
  lemma ScheduleStart()
    ensures Schedule(0) == Ones()
  {
  }

  /** Between two checks exactly one factor grows by one: within round `round`, the
      check at position `index` is followed by the one with factor `index` grown. */
  lemma ScheduleNext(round: nat, index: nat)
    requires index < PoolingBlocks
    ensures Schedule(8 * round + index + 1) ==
      Schedule(8 * round + index)[index := Schedule(8 * round + index)[index] + 1]
  {
    var n := 8 * round + index;
    assert n / 8 == round && n % 8 == index;
    if index < 7 {
      assert (n + 1) / 8 == round && (n + 1) % 8 == index + 1;
    } else {
      assert (n + 1) / 8 == round + 1 && (n + 1) % 8 == 0;
    }
  }

  /** Check `8 * round + index` grows the first `index` factors once more than the
      `round + 1` every factor has at the start of round `round`. */
  lemma ScheduleAt(round: nat, index: nat, n: nat)
    requires index < PoolingBlocks && n == 8 * round + index
    ensures forall k :: 0 <= k < PoolingBlocks ==>
      Schedule(n)[k] == round + (if k < index then 2 else 1)
  {
    assert n / 8 == round && n % 8 == index;
  }

  /** Every configuration the search checks has eight positive factors, is
      non-increasing, and its largest and smallest factor differ by at most one. */
  lemma ScheduleShape(n: nat)
    ensures |Schedule(n)| == PoolingBlocks && AllPositive(Schedule(n))
    ensures forall j, k :: 0 <= j <= k < PoolingBlocks ==>
      Schedule(n)[k] <= Schedule(n)[j] <= Schedule(n)[k] + 1
    ensures forall k :: 0 <= k < PoolingBlocks ==> Schedule(n)[k] == n / 8 + (if k < n % 8 then 2 else 1)
  {
  }

  /** Once every factor is at least the input length, the first block leaves at most
      zero positions, so the check succeeds: the search cannot run past Bound. */
  lemma BoundSucceeds(inputLength: int)
    ensures Succeeds(inputLength, Bound(inputLength))
  {
    var s := Schedule(Bound(inputLength));
    var m := if inputLength > 1 then inputLength else 1;
    assert forall k :: 0 <= k < PoolingBlocks ==> s[k] == m;
    assert s[..1][..0] == [];
    var first := Step(inputLength, s[0]);
    assert Shrink(inputLength, s[..1]) == first;
    assert first <= 0;
    ShrinkStaysSmall(inputLength, s, 1);
  }

  /** A successful check preceded only by failing ones is the first hit. */
  lemma {:induction false} FirstHitLeast(inputLength: int, from: nat, n: nat)
    requires from <= n && from <= Bound(inputLength) && Succeeds(inputLength, n)
    requires forall m :: from <= m < n ==> !Succeeds(inputLength, m)
    ensures FirstHit(inputLength, from) == n
    decreases n - from
  {
    if from < n {
      assert !Succeeds(inputLength, from);
      BoundSucceeds(inputLength);
      FirstHitLeast(inputLength, from + 1, n);
    }
  }

  // ---------------------------------------------------------------------------
  // What the planner promises

  /** The plan has eight positive factors and a dense size of at most ten that is
      exactly what the shrink simulation gives with those factors. */
  lemma PlanCorrect(inputLength: int)
    ensures |Plan(inputLength).poolingSizes| == PoolingBlocks
    ensures AllPositive(Plan(inputLength).poolingSizes)
    ensures Plan(inputLength).denseSize <= MaxDenseFinalLayerFeatures
    ensures Plan(inputLength).denseSize == Shrink(inputLength, Plan(inputLength).poolingSizes)
  {
    BoundSucceeds(inputLength);
  }

  /** The plan is the first configuration, in round-robin order, that is small enough:
      every configuration checked before it was too large, and the search stops within
      Bound(inputLength) increments. */
  lemma PlanIsFirstHit(inputLength: int)
    ensures var n := FirstHit(inputLength, 0);
      Plan(inputLength).poolingSizes == Schedule(n) &&
      n <= Bound(inputLength) &&
      forall m :: 0 <= m < n ==> Shrink(inputLength, Schedule(m)) > MaxDenseFinalLayerFeatures
  {
    var n := FirstHit(inputLength, 0);
    forall m | 0 <= m < n
      ensures Shrink(inputLength, Schedule(m)) > MaxDenseFinalLayerFeatures
    {
      assert !Succeeds(inputLength, m);
    }
  }

  /** The factors are balanced round robin: non-increasing, and the largest exceeds the
      smallest by at most one. */
  lemma PlanBalanced(inputLength: int)
    ensures forall j, k :: 0 <= j <= k < PoolingBlocks ==>
      Plan(inputLength).poolingSizes[k] <= Plan(inputLength).poolingSizes[j] <= Plan(inputLength).poolingSizes[k] + 1
  {
    ScheduleShape(FirstHit(inputLength, 0));
  }

  /** Up to 26 positions the very first check succeeds: all factors stay 1 and the
      dense size is inputLength - 16. Beyond 26 the first check fails. */
  lemma PlanSmallInput(inputLength: int)
    ensures inputLength <= 26 <==> Plan(inputLength) == PoolingPlan(Ones(), inputLength - 16)
  {
    ShrinkOfOnes(inputLength, Schedule(0));
    if inputLength <= 26 {
      FirstHitLeast(inputLength, 0, 0);
    } else if Plan(inputLength) == PoolingPlan(Ones(), inputLength - 16) {
      PlanCorrect(inputLength);
      assert false;
    }
  }

  /** No guard rejects tiny inputs: up to 16 positions the dense size is zero or less. */
  lemma PlanTinyInputDegenerate(inputLength: int)
    requires inputLength <= 16
    ensures Plan(inputLength).denseSize <= 0
  {
    PlanSmallInput(inputLength);
  }

  // ---------------------------------------------------------------------------
  // Growing factors never lengthens the simulation

  /** One block with a larger factor on a shorter (but not degenerate) input never
      yields more positions. */
  lemma StepAntitone(s: int, t: int, f: int, g: int)
    requires 2 <= s <= t && 1 <= f <= g
    ensures Step(s, g) <= Step(t, f)
  {
    var a := FloorDiv(s - 2, g);
    FloorDivIsFloor(s - 2, g, a);
    assert 0 <= a;
    assert a * f <= a * g;
    FloorDivIsFloor(t - 2, f, a);
  }

  /** Pointwise larger factors give a final length no larger, as long as that final
      length is not negative. */
  lemma {:induction false} ShrinkAntitone(size: int, f: seq<int>, g: seq<int>)
    requires |f| == |g| && AllPositive(f)
    requires forall k :: 0 <= k < |f| ==> f[k] <= g[k]
    requires AllPositive(g) && Shrink(size, g) >= 0
    ensures Shrink(size, f) >= Shrink(size, g)
    decreases |f|
  {
    if f != [] {
      var n := |f| - 1;
      var b := Shrink(size, g[..n]);
      FloorDivIsFloor(b - 2, g[n], Shrink(size, g));
      assert b >= 2;
      ShrinkAntitone(size, f[..n], g[..n]);
      StepAntitone(b, Shrink(size, f[..n]), f[n], g[n]);
    }
  }

  /** The search only ever grows factors: a later configuration is pointwise larger. */
  lemma ScheduleGrows(m: nat, n: nat)
    requires m <= n
    ensures forall k :: 0 <= k < PoolingBlocks ==> Schedule(m)[k] <= Schedule(n)[k]
  {
    assert m / 8 <= n / 8;
    assert m / 8 == n / 8 ==> m % 8 <= n % 8;
  }

  /** A configuration checked before a non-degenerate one simulates to at least as much. */
  lemma ScheduleAntitone(inputLength: int, m: nat, n: nat)
    requires m <= n && Shrink(inputLength, Schedule(n)) >= 0
    ensures Shrink(inputLength, Schedule(m)) >= Shrink(inputLength, Schedule(n))
  {
    ScheduleGrows(m, n);
    ShrinkAntitone(inputLength, Schedule(m), Schedule(n));
  }

  /** Once a check succeeds every later check would succeed too, so the successful
      checks form an upward-closed set and the plan sits at its threshold. */
  lemma SuccessPersists(inputLength: int, m: nat, n: nat)
    requires m <= n && Succeeds(inputLength, m)
    ensures Succeeds(inputLength, n)
  {
    if Shrink(inputLength, Schedule(n)) >= 0 {
      ScheduleAntitone(inputLength, m, n);
    }
  }

  // ---------------------------------------------------------------------------
  // Concrete plans

  /** The eight-block simulation written out, one Step per factor. */
  lemma ShrinkUnrolled(size: int, f: seq<int>)
    requires |f| == PoolingBlocks && AllPositive(f)
    ensures Shrink(size, f) ==
      Step(Step(Step(Step(Step(Step(Step(Step(size, f[0]), f[1]), f[2]), f[3]), f[4]), f[5]), f[6]), f[7])
  {
    assert f[..0] == [] && f[..8] == f;
    ShrinkPrefix(size, f, 0); ShrinkPrefix(size, f, 1); ShrinkPrefix(size, f, 2); ShrinkPrefix(size, f, 3);
    ShrinkPrefix(size, f, 4); ShrinkPrefix(size, f, 5); ShrinkPrefix(size, f, 6); ShrinkPrefix(size, f, 7);
  }

  /** The simulation of the n-th configuration, written out. */
  lemma ShrinkOfSchedule(size: int, n: nat)
    ensures Shrink(size, Schedule(n)) ==
      Step(Step(Step(Step(Step(Step(Step(Step(size, n / 8 + (if 0 < n % 8 then 2 else 1)),
        n / 8 + (if 1 < n % 8 then 2 else 1)), n / 8 + (if 2 < n % 8 then 2 else 1)),
        n / 8 + (if 3 < n % 8 then 2 else 1)), n / 8 + (if 4 < n % 8 then 2 else 1)),
        n / 8 + (if 5 < n % 8 then 2 else 1)), n / 8 + (if 6 < n % 8 then 2 else 1)),
        n / 8 + (if 7 < n % 8 then 2 else 1))
  {
    ScheduleShape(n);
    ShrinkUnrolled(size, Schedule(n));
  }

  /** A check whose predecessor simulates to exactly eleven is the first hit. */
  lemma FirstHitAfterEleven(inputLength: int, n: nat)
    requires 1 <= n && Shrink(inputLength, Schedule(n - 1)) == MaxDenseFinalLayerFeatures + 1
    requires Succeeds(inputLength, n)
    ensures FirstHit(inputLength, 0) == n
  {
    forall m | 0 <= m < n
      ensures !Succeeds(inputLength, m)
    {
      ScheduleAntitone(inputLength, m, n - 1);
    }
    FirstHitLeast(inputLength, 0, n);
  }

  // The concrete lemmas below take the input length as a parameter pinned by `requires`
  // rather than a literal: with a literal argument Dafny unfolds Plan, FirstHit and Shrink
  // eagerly and the proof runs out of resource.

  /** For 3500 the last check of the first round simulates to 11, the next one to 7. */
  lemma DefaultLengthLastChecks(inputLength: int)
    requires inputLength == 3500
    ensures Shrink(inputLength, Schedule(8)) == 11 && Shrink(inputLength, Schedule(9)) == 7
  {
    ShrinkOfSchedule(inputLength, 8);
    ShrinkOfSchedule(inputLength, 9);
  }

  /** The default input length of 3500: check 8 (all factors 2) still simulates to 11, and check 9 succeeds with factor 0 at 3, every
      other factor at 2 and a dense size of 7. */
  lemma PlanDefaultLength(inputLength: int)
    requires inputLength == 3500
    ensures Plan(inputLength) == PoolingPlan([3, 2, 2, 2, 2, 2, 2, 2], 7)
  {
    DefaultLengthLastChecks(inputLength);
    FirstHitAfterEleven(inputLength, 9);
    assert Schedule(9) == [3, 2, 2, 2, 2, 2, 2, 2];
  }

  /** An input just above the all-ones threshold: 27 simulates to 11 with all ones, so
      factor 0 is grown, and the next check lands on -2, which is returned as the dense
      size. */
  lemma PlanOvershootAt27(inputLength: int)
    requires inputLength == 27
    ensures Plan(inputLength) == PoolingPlan([2, 1, 1, 1, 1, 1, 1, 1], -2)
  {
    assert Shrink(inputLength, Schedule(0)) == 11 by { ShrinkOfSchedule(inputLength, 0); }
    assert Shrink(inputLength, Schedule(1)) == -2 by { ShrinkOfSchedule(inputLength, 1); }
    FirstHitAfterEleven(inputLength, 1);
    assert Schedule(1) == [2, 1, 1, 1, 1, 1, 1, 1];
  }

  /** For an input length of 100 the third increment jumps from 11 straight to 0: the
      planner returns a dense size of 0. */
  lemma PlanDegenerateAt100(inputLength: int)
    requires inputLength == 100
    ensures Plan(inputLength) == PoolingPlan([2, 2, 2, 1, 1, 1, 1, 1], 0)
  {
    assert Shrink(inputLength, Schedule(2)) == 11 by { ShrinkOfSchedule(inputLength, 2); }
    assert Shrink(inputLength, Schedule(3)) == 0 by { ShrinkOfSchedule(inputLength, 3); }
    FirstHitAfterEleven(inputLength, 3);
    assert Schedule(3) == [2, 2, 2, 1, 1, 1, 1, 1];
  }

  // ---------------------------------------------------------------------------
  // The search as the source runs it

  /** The inner loop of the search: push `inputLength` through one block per factor. */
  method SimulateShrink(inputLength: int, poolingSizes: array<int>) returns (currentSize: int)
    requires AllPositive(poolingSizes[..])
    ensures currentSize == Shrink(inputLength, poolingSizes[..])
  {
    currentSize := inputLength;
    for j := 0 to poolingSizes.Length
      invariant currentSize == Shrink(inputLength, poolingSizes[..j])
    {
      assert poolingSizes[..j + 1][..j] == poolingSizes[..j];
      currentSize := currentSize - 2;
      currentSize := FloorDiv(currentSize, poolingSizes[j]);
    }
    assert poolingSizes[..poolingSizes.Length] == poolingSizes[..];
  }

  /** `determine_block_pooling_sizes_and_dense_size`: start from eight factors of 1; in
      round-robin order, simulate the current factors and stop if the final length is at
      most ten, otherwise grow the factor at the current index by one. It returns exactly
      the reference plan, and so terminates for every input length. */
  method DetermineBlockPoolingSizesAndDenseSize(inputLength: int)
    returns (poolingSizes: seq<int>, denseSize: int)
    ensures |poolingSizes| == PoolingBlocks && AllPositive(poolingSizes)
    ensures denseSize <= MaxDenseFinalLayerFeatures
    ensures denseSize == Shrink(inputLength, poolingSizes)
    ensures PoolingPlan(poolingSizes, denseSize) == Plan(inputLength)
  {
    var sizes := new int[PoolingBlocks](_ => 1);
    ghost var round: nat := 0;
    // The search ends at check `hit`; the number of checks left is the termination measure.
    ghost var hit := FirstHit(inputLength, 0);
    while true
      invariant 8 * round <= hit
      invariant forall k :: 0 <= k < PoolingBlocks ==> sizes[k] == round + 1
      decreases hit - 8 * round
    {
      for index := 0 to PoolingBlocks
        invariant 8 * round + index <= hit
        invariant forall k :: 0 <= k < PoolingBlocks ==> sizes[k] == round + (if k < index then 2 else 1)
      {
        ghost var check := 8 * round + index;
        assert sizes[..] == Schedule(check) by {
          ScheduleAt(round, index, check);
        }
        var currentSize := SimulateShrink(inputLength, sizes);
        if currentSize <= MaxDenseFinalLayerFeatures {
          assert Succeeds(inputLength, check);
          return sizes[..], currentSize;
        }
        assert !Succeeds(inputLength, check);
        sizes[index] := sizes[index] + 1;
      }
      round := round + 1;
    }
  }
}
