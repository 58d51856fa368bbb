# Hadryss length planner and block wiring

The Hadryss network is a 1D convolutional network for light curves. It sizes itself to the
input length it is built for. Eight of its ten blocks each apply an unpadded convolution
with kernel 3, then pool by a factor. When it is built, `HadryssNew` searches for the
eight pooling factors. Starting from all ones, it runs a shrink simulation. The
simulation repeats "subtract 2, divide by the factor, floor" once per block. If the
result is at most ten, the search returns the factors and that result, the *dense
size*. If not, it grows one factor by one, going round robin over the eight positions,
and tries again. The constructor then wires ten block descriptors from the plan. The
network's `new` supplies an input length of 3500 and the sigmoid end module when the
caller gives none.

The project has two modules:

- `Planner` (`planner.dfy`) covers the search and the simulation.
  - `DetermineBlockPoolingSizesAndDenseSize` is a method. It mutates an array of
    factors inside an unbounded outer loop and a round-robin inner loop, as the source
    does. It calls `SimulateShrink`, a loop over the array.
  - Both methods are proved against pure definitions:
    - `Shrink` is the simulation, by recursion over the factors.
    - `Schedule(n)` is the configuration the search checks at its n-th check.
    - `FirstHit` is the first successful check.
    - `Plan` is the reference result.
  - The lemmas state what the planner promises. The plan has eight positive factors,
    and its dense size is at most ten and is what the simulation gives. The factors
    are round-robin balanced. The plan is the first hit, the search terminates, and
    success persists once reached. The module also covers small and concrete inputs.
- `Network` (`network.dfy`) covers construction.
  - `Blocks` is the ten-entry block table. `Construct` is `__init__` and `New` is `new`.
  - The lemmas state the channel chain and where the plan lands in the table. A
    further lemma follows the sequence length through the blocks.
  - `CheckedConstruct` is a corrected construction that refuses a dense size below
    one. See "## Findings".

Python's `math.floor(x / f)` always has a positive divisor here. It is modelled by
Dafny's `/` on integers, which is floor division for a positive divisor. Float rounding
is not modelled.

The dense size becomes the kernel size of block 8, and a kernel size below one is not
a valid convolution. A working network therefore needs a dense size of at least one,
and a construction that meets a smaller one should fail at once. `HadryssNew` has no
such guard, and the search can stop on a dense size of 0 or below (at 27 and at 100, for
example). The model follows the code (`Planner.Plan`, `Network.Construct`), and the
guarded variant is modelled separately as `Network.CheckedConstruct`. The dense size is
not the smallest positive size reachable: it is the simulated size of the first
configuration, in round-robin order, that is at most ten (`Planner.PlanIsFirstHit`).

## Model

| member | source | states |
|---|---|---|
| Planner.FloorDivIsFloor | Hadryss_new2.py:137-138 | for a positive divisor, the modelled division is the floor of the true quotient: the unique q with q*b <= a < q*b + b |
| Planner.SimulateShrink | Hadryss_new2.py:134-138 | the inner loop over the array of factors (subtract 2, divide, floor, per factor) returns exactly Shrink of the input length over those factors |
| Planner.DetermineBlockPoolingSizesAndDenseSize | Hadryss_new2.py:128-141 | the search always returns. The result is eight positive factors with a dense size of at most ten. Re-simulating with the returned factors gives exactly that dense size. The result equals Plan, the first successful check in round-robin order |
| Planner.FirstHit | Hadryss_new2.py:132-141 | from any starting check up to Bound, the first successful check exists and lies within Bound, and every check between the start and it fails |
| Planner.Schedule | Hadryss_new2.py:130-141 | each checked configuration has eight factors, all positive |
| Planner.StepShrinks | Hadryss_new2.py:136-138 | one simulated block (subtract 2, divide by the factor, floor) leaves between 0 and size - 2 positions from a size of at least 2, and a negative length from a size of at most 1 |
| Planner.Shrink | Hadryss_new2.py:134-138 | the simulation pushes the input length through one step per factor, in order. Each block removes at least two positions until the length goes negative: the result is at most size - 2 * (number of factors), or negative |
| Planner.StepStaysSmall | Hadryss_new2.py:136-138 | one more block never takes a length of at most ten above ten |
| Planner.ShrinkPrefix | Hadryss_new2.py:135-138 | the simulation over one more factor is one more step applied to the simulation over the prefix |
| Planner.ShrinkStaysSmall | Hadryss_new2.py:135-139 | if the simulation is at most ten after some prefix of the blocks, it is at most ten at the end |
| Planner.ShrinkOfOnes | Hadryss_new2.py:130-138 | with all factors 1, each block removes exactly two positions |
| Planner.ScheduleStart | Hadryss_new2.py:129-130 | the first configuration checked is eight ones |
| Planner.ScheduleNext | Hadryss_new2.py:133-141 | between consecutive checks exactly one factor, the one at the current round-robin index, grows by one and nothing else changes |
| Planner.ScheduleAt | Hadryss_new2.py:132-133 | at position index of round r, factors before index are r+2 and the rest are r+1 |
| Planner.ScheduleShape | Hadryss_new2.py:130-141 | every checked configuration is eight positive factors, non-increasing, with max minus min at most one |
| Planner.ScheduleGrows | Hadryss_new2.py:141 | factors are only ever incremented: a later configuration is pointwise at least an earlier one |
| Planner.BoundSucceeds | Hadryss_new2.py:132-141 | termination: once every factor reaches max(inputLength, 1), the first block leaves at most 0 positions, so the check at Bound succeeds for every integer input length |
| Planner.FirstHitLeast | Hadryss_new2.py:139-141 | a successful check preceded only by failing ones is the one the search returns |
| Planner.PlanCorrect | Hadryss_new2.py:129-140 | the plan has eight positive factors and a dense size of at most ten, and simulating the plan's factors gives exactly its dense size |
| Planner.PlanIsFirstHit | Hadryss_new2.py:139-141 | first-hit minimality: the plan is the configuration at check FirstHit, which is at most Bound, and every configuration checked before it simulates to more than ten |
| Planner.PlanBalanced | Hadryss_new2.py:133-141 | the returned factors are non-increasing and their max exceeds their min by at most one |
| Planner.PlanSmallInput | Hadryss_new2.py:130-140 | the plan is all ones with dense size inputLength - 16 if and only if inputLength <= 26 |
| Planner.PlanTinyInputDegenerate | Hadryss_new2.py:139-140 | up to 16 positions the returned dense size is zero or less, and nothing rejects it |
| Planner.StepAntitone | Hadryss_new2.py:136-138 | one block with a larger factor on a shorter input of at least 2 never yields more positions |
| Planner.ShrinkAntitone | Hadryss_new2.py:135-138 | pointwise larger factors give a final length no larger, when that final length is non-negative |
| Planner.ScheduleAntitone | Hadryss_new2.py:133-141 | a configuration checked earlier simulates to at least as much as a later one that is non-negative |
| Planner.SuccessPersists | Hadryss_new2.py:139-141 | once a check succeeds, every later check would succeed too |
| Planner.ShrinkUnrolled | Hadryss_new2.py:135-138 | the eight-factor simulation is eight steps in order, one per factor |
| Planner.ShrinkOfSchedule | Hadryss_new2.py:133-138 | the simulation of the n-th configuration written out in terms of n / 8 and n % 8 |
| Planner.FirstHitAfterEleven | Hadryss_new2.py:139-141 | a check whose predecessor simulates to exactly eleven and which itself succeeds is the first hit |
| Planner.DefaultLengthLastChecks | Hadryss_new2.py:115 | for 3500, all factors 2 still simulate to 11, and the next configuration simulates to 7 |
| Planner.PlanDefaultLength | Hadryss_new2.py:115 | for the default input length 3500 the plan is factors [3,2,2,2,2,2,2,2] with dense size 7 |
| Planner.PlanOvershootAt27 | Hadryss_new2.py:136-140 | for 27 the plan is [2,1,1,1,1,1,1,1] with dense size -2 |
| Planner.PlanDegenerateAt100 | Hadryss_new2.py:136-140 | for 100 the plan is [2,2,2,1,1,1,1,1] with dense size 0 |
| Network.Construct | Hadryss_new2.py:23-97 | `__init__` plans the pooling sizes for the input length and wires the ten blocks from the plan. The network keeps its input length and end module, has ten blocks, and block 8's kernel is the planned dense size, at most ten |
| Network.New | Hadryss_new2.py:114-126 | `new` builds the network for the given input length, 3500 when none is given. Without an end module it uses the sigmoid end module, otherwise the one given |
| Network.Blocks | Hadryss_new2.py:27-96 | the block table has ten descriptors |
| Network.WiringChannels | Hadryss_new2.py:27-96 | input channel 1. Outputs are 8, 8, 16, 32, 64, 64, 48, 20, 20, 20. Each block's output channels equal the next block's input channels |
| Network.WiringSizes | Hadryss_new2.py:27-96 | blocks 0-7 pool by the planned factor i with kernel 3. Only block 7 is non-spatial, with length denseSize + 2. Block 8 has kernel denseSize and pooling 1. Block 9 has kernel 1 and pooling 1 |
| Network.ConstructUsesPlan | Hadryss_new2.py:23-97 | the constructed network keeps its input length and end module. Blocks 0-7 pool by the plan's factors. Block 8's kernel is the planned dense size, which is at most ten and equal to re-simulating those factors |
| Network.NewDefault | Hadryss_new2.py:114-126 | `new` without arguments is construction at 3500 with the sigmoid end module: factors [3,2,2,2,2,2,2,2], block 7 length 9, block 8 kernel 7 |
| Network.LengthThroughPoolingBlocks | Hadryss_new2.py:27-86 | applying the blocks' length rule (kernel 3, then pool) through the first j blocks is the planner's simulation over the first j factors |
| Network.ConstructEndsAtOnePosition | Hadryss_new2.py:26-96 | when the planned dense size is a valid kernel (at least one), the length after block 7 through the constructed blocks is exactly block 8's kernel, and the whole pipeline ends at one position |
| Network.ConstructDegenerateAt100 | Hadryss_new2.py:26-93 | for input length 100 the network is built with kernel size 0 in block 8 and length 2 for block 7 |
| Network.CheckedConstruct | Hadryss_new2.py:23-97 | checked construction succeeds if and only if the planned dense size is at least one. On success it gives exactly the constructed network. On failure it reports the offending dense size |
| Network.CheckedConstructValid | Hadryss_new2.py:27-96 | every network checked construction accepts has ten blocks with all kernel and pooling sizes positive, and a dense size between 1 and 10 |
| Network.CheckedConstructExamples | Hadryss_new2.py:114-126 | checked construction accepts 3500, and refuses 100 (dense size 0) and 27 (dense size -2) |

## Left out

- `forward` (Hadryss_new2.py:99-112): it is tensor computation in a fixed call order, with nothing to prove beyond the order.
- `LightCurveNetworkBlock` is not part of this model. Each block is only its constructor arguments. Its defaults are assumed to be batch normalisation on, no dropout, spatial mode and no fixed length.
- Network.ConstructEndsAtOnePosition: block 7 runs in non-spatial mode with a fixed length, and its real output length is not visible. The lemma assumes it shrinks by the same "kernel 3, then pool" rule as the other blocks, which is what the planner's simulation assumes. The lemma speaks only of networks whose dense size is at least one, because for a smaller dense size block 8 would have no valid kernel and its length rule has no meaning.
- The three end modules (Hadryss_new2.py:144-204) are thin wrappers over `Conv1d`, `Sigmoid` and `Softmax`, so they are floating-point computation in a foreign library. Only which module was chosen (and its class count) is kept, as `Network.EndModule`.
- Dropout rates and batch normalisation are training and floating-point behaviour. They are kept as tags (`DropoutRate`, a boolean) and never computed with.
- Python's `/` is float division. For very large lengths its rounding could differ from exact floor division. The model uses exact floor division.
- The mutable `self.input_length` field and the module attributes are not modelled as a class. They are written once in the constructor and never updated, so the network is a datatype value.

## Findings

| source | as written | input that shows it | evidently intended | confidence | as-written member | corrected member |
|---|---|---|---|---|---|---|
| Hadryss_new2.py:87-93 | the planner's dense size becomes block 8's kernel size with no check, though the search can stop on a configuration that simulates to 0 or below | input length 100: the plan is [2,2,2,1,1,1,1,1] with dense size 0, so block 8 gets kernel 0 (27 gives -2) | construction fails fast unless 1 <= dense size <= 10, so every kernel and pooling size is positive | not executed | Network.ConstructDegenerateAt100 | Network.CheckedConstruct |
