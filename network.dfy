/** The ten-block wiring of the Hadryss network, built once from the input length and
    the pooling plan. Each block is only a descriptor: its own computation, and that of
    the end module, lie outside the model. */
module Network {
  import opened Planner

  /** The input length `HadryssNew.new` uses when the caller gives none. */
  const DefaultInputLength: int := 3500

  /** Dropout rate of a block, kept as a tag: the model never computes with it. */
  datatype DropoutRate = NoDropout | TenthDropout

  /** The constructor arguments of one block, with the block's own defaults
      (batch normalisation on, no dropout, spatial mode, no fixed length). */
  datatype BlockDescriptor = BlockDescriptor(
    inputChannels: int,
    outputChannels: int,
    kernelSize: int,
    poolingSize: int,
    batchNormalization: bool := true,
    dropoutRate: DropoutRate := NoDropout,
    spatial: bool := true,
    length: Option<int> := None)

  datatype Option<T> = None | Some(value: T)

  /** The three interchangeable end modules; only which one was chosen is modelled. */
  datatype EndModule =
    | MultiClassEnd
    | MultiClassProbabilityEnd(numberOfClasses: int)
    | MultiClassScoreEnd(numberOfClasses: int)

  /** A constructed network: its input length, its ten blocks in order, its end module. */
  datatype HadryssNew = HadryssNew(inputLength: int, blocks: seq<BlockDescriptor>, endModule: EndModule)

  /** The block table of `HadryssNew.__init__` for given pooling sizes and dense size. */
  function Blocks(poolingSizes: seq<int>, denseSize: int): (blocks: seq<BlockDescriptor>)
    requires |poolingSizes| == PoolingBlocks
    ensures |blocks| == 10
  {
    [ BlockDescriptor(1, 8, 3, poolingSizes[0]),
      BlockDescriptor(8, 8, 3, poolingSizes[1]),
      BlockDescriptor(8, 16, 3, poolingSizes[2], batchNormalization := false, dropoutRate := TenthDropout),
      BlockDescriptor(16, 32, 3, poolingSizes[3], batchNormalization := false, dropoutRate := TenthDropout),
      BlockDescriptor(32, 64, 3, poolingSizes[4], batchNormalization := false, dropoutRate := TenthDropout),
      BlockDescriptor(64, 64, 3, poolingSizes[5], batchNormalization := false, dropoutRate := TenthDropout),
      BlockDescriptor(64, 48, 3, poolingSizes[6], dropoutRate := TenthDropout),
      BlockDescriptor(48, 20, 3, poolingSizes[7], dropoutRate := TenthDropout, spatial := false,
                      length := Some(denseSize + 2)),
      BlockDescriptor(20, 20, denseSize, 1, dropoutRate := TenthDropout),
      BlockDescriptor(20, 20, 1, 1) ]
  }

  /** `HadryssNew.__init__`: plan the pooling sizes for the input length, then wire
      the blocks with them. Nothing rejects a non-positive dense size. */
  function Construct(inputLength: int, endModule: EndModule): (network: HadryssNew)
    ensures network.inputLength == inputLength && network.endModule == endModule
    ensures |network.blocks| == 10
    ensures network.blocks[8].kernelSize == Plan(inputLength).denseSize <= MaxDenseFinalLayerFeatures
  {
    PlanCorrect(inputLength);
    var plan := Plan(inputLength);
    HadryssNew(inputLength, Blocks(plan.poolingSizes, plan.denseSize), endModule)
  }

  /** `HadryssNew.new`: input length 3500 and the sigmoid end module unless given. */
  function New(inputLength: int := DefaultInputLength, endModule: Option<EndModule> := None): (network: HadryssNew)
    ensures network.inputLength == inputLength
    ensures endModule.None? ==> network.endModule == MultiClassEnd
    ensures endModule.Some? ==> network.endModule == endModule.value
  {
    Construct(inputLength, if endModule.None? then MultiClassEnd else endModule.value)
  }

  // ---------------------------------------------------------------------------
  // The wiring

  /** Channels chain from one input channel through 8, 8, 16, 32, 64, 64, 48 to 20,
      and every block's output width is the next block's input width. */
  lemma WiringChannels(poolingSizes: seq<int>, denseSize: int)
    requires |poolingSizes| == PoolingBlocks
    ensures var blocks := Blocks(poolingSizes, denseSize);
      blocks[0].inputChannels == 1 &&
      (forall i :: 0 <= i < 9 ==> blocks[i].outputChannels == blocks[i + 1].inputChannels) &&
      seq(10, i requires 0 <= i < 10 => blocks[i].outputChannels) == [8, 8, 16, 32, 64, 64, 48, 20, 20, 20]
  {
  }

  /** The planned factors go to blocks 0 to 7, each with a kernel of 3; block 7 is the
      non-spatial one, told a length of denseSize + 2; block 8 has a kernel of denseSize
      and blocks 8 and 9 do not pool. */
  lemma WiringSizes(poolingSizes: seq<int>, denseSize: int)
    requires |poolingSizes| == PoolingBlocks
    ensures var blocks := Blocks(poolingSizes, denseSize);
      (forall i :: 0 <= i < PoolingBlocks ==>
        blocks[i].poolingSize == poolingSizes[i] && blocks[i].kernelSize == 3) &&
      (forall i :: 0 <= i < 10 ==> (blocks[i].spatial <==> i != 7)) &&
      blocks[7].length == Some(denseSize + 2) &&
      (forall i :: 0 <= i < 10 && i != 7 ==> blocks[i].length == None) &&
      blocks[8].kernelSize == denseSize && blocks[8].poolingSize == 1 &&
      blocks[9].kernelSize == 1 && blocks[9].poolingSize == 1
  {
  }

  /** The network built for an input length carries the plan for that length: blocks 0
      to 7 pool by the planned factors, and block 8's kernel is the planned dense size,
      which the simulation over those factors reproduces and which is at most ten. */
  lemma ConstructUsesPlan(inputLength: int, endModule: EndModule)
    ensures var network := Construct(inputLength, endModule);
      network.inputLength == inputLength && network.endModule == endModule &&
      |network.blocks| == 10 &&
      seq(PoolingBlocks, i requires 0 <= i < PoolingBlocks => network.blocks[i].poolingSize) == Plan(inputLength).poolingSizes &&
      network.blocks[8].kernelSize == Plan(inputLength).denseSize &&
      network.blocks[8].kernelSize == Shrink(inputLength, Plan(inputLength).poolingSizes) &&
      network.blocks[8].kernelSize <= MaxDenseFinalLayerFeatures
  {
    PlanCorrect(inputLength);
  }

  /** Without arguments `new` builds the 3500-position network with the sigmoid end
      module: factors 3, 2, 2, 2, 2, 2, 2, 2 and a final kernel of 7. */
  lemma NewDefault()
    ensures New() == Construct(DefaultInputLength, MultiClassEnd)
    ensures New().inputLength == 3500
    ensures seq(PoolingBlocks, i requires 0 <= i < PoolingBlocks => New().blocks[i].poolingSize) == [3, 2, 2, 2, 2, 2, 2, 2]
    ensures New().blocks[7].length == Some(9) && New().blocks[8].kernelSize == 7
  {
    PlanDefaultLength(DefaultInputLength);
  }

  // ---------------------------------------------------------------------------
  // Sequence length through the blocks

  predicate PoolingPositive(blocks: seq<BlockDescriptor>)
  {
    forall i :: 0 <= i < |blocks| ==> blocks[i].poolingSize >= 1
  }

  /** The block's length rule in spatial mode: an unpadded convolution removes
      kernelSize - 1 positions, then pooling floor-divides. */
  function BlockOutputLength(block: BlockDescriptor, length: int): int
    requires block.poolingSize >= 1
  {
    FloorDiv(length - (block.kernelSize - 1), block.poolingSize)
  }

  /** The length after a run of blocks, applied in order. */
  function LengthThrough(blocks: seq<BlockDescriptor>, length: int): int
    requires PoolingPositive(blocks)
    decreases |blocks|
  {
    if blocks == [] then length
    else BlockOutputLength(blocks[|blocks| - 1], LengthThrough(blocks[..|blocks| - 1], length))
  }

  /** Over the first j pooling blocks, the block length rule is the planner's shrink
      simulation over the first j factors. */
  lemma {:induction false} LengthThroughPoolingBlocks(poolingSizes: seq<int>, denseSize: int, length: int, j: nat)
    requires |poolingSizes| == PoolingBlocks && AllPositive(poolingSizes) && j <= PoolingBlocks
    ensures PoolingPositive(Blocks(poolingSizes, denseSize)[..j])
    ensures LengthThrough(Blocks(poolingSizes, denseSize)[..j], length) == Shrink(length, poolingSizes[..j])
  {
    var blocks := Blocks(poolingSizes, denseSize);
    if j > 0 {
      LengthThroughPoolingBlocks(poolingSizes, denseSize, length, j - 1);
      assert blocks[..j][..j - 1] == blocks[..j - 1];
      assert poolingSizes[..j][..j - 1] == poolingSizes[..j - 1];
    }
  }

  /** With every block applying its length rule (block 7 shrinking as the planner
      simulates it), the eight pooling blocks leave exactly the dense size, and when that
      size is a valid kernel (at least one), block 8 leaves a single position, which block
      9 keeps. */
  lemma ConstructEndsAtOnePosition(inputLength: int, endModule: EndModule)
    requires Plan(inputLength).denseSize >= 1
    ensures var blocks := Construct(inputLength, endModule).blocks;
      PoolingPositive(blocks) &&
      LengthThrough(blocks[..PoolingBlocks], inputLength) == blocks[8].kernelSize &&
      LengthThrough(blocks, inputLength) == 1
  {
    PlanCorrect(inputLength);
    var plan := Plan(inputLength);
    var blocks := Blocks(plan.poolingSizes, plan.denseSize);
    LengthThroughPoolingBlocks(plan.poolingSizes, plan.denseSize, inputLength, PoolingBlocks);
    assert plan.poolingSizes[..PoolingBlocks] == plan.poolingSizes;
    assert blocks[..10][..9] == blocks[..9] && blocks[..9][..8] == blocks[..8] && blocks[..10] == blocks;
  }

  // ---------------------------------------------------------------------------
  // Degenerate dense sizes

  /** Nothing in construction guards the dense size: for an input length of 100 the
      network is built with a kernel of 0 in block 8 (and a length of 2 for block 7). */
  lemma ConstructDegenerateAt100(endModule: EndModule)
    ensures Construct(100, endModule).blocks[8].kernelSize == 0
    ensures Construct(100, endModule).blocks[7].length == Some(2)
  {
    PlanDegenerateAt100(100);
  }

  /** Why construction may be refused. */
  datatype ConfigurationError = NonPositiveDenseSize(denseSize: int)

  datatype Result<T> = Success(value: T) | Failure(error: ConfigurationError)

  /** Construction that fails fast on a dense size below one, so a kernel size below
      one never reaches a block. */
  function CheckedConstruct(inputLength: int, endModule: EndModule): (r: Result<HadryssNew>)
    ensures r.Success? <==> Plan(inputLength).denseSize >= 1
    ensures r.Success? ==> r.value == Construct(inputLength, endModule)
    ensures r.Failure? ==> r.error == NonPositiveDenseSize(Plan(inputLength).denseSize)
  {
    var denseSize := Plan(inputLength).denseSize;
    if denseSize < 1 then Failure(NonPositiveDenseSize(denseSize))
    else Success(Construct(inputLength, endModule))
  }

  /** Every network that checked construction accepts is structurally valid: all ten
      kernel sizes and pooling sizes are positive and the dense size lies in 1..10. */
  lemma CheckedConstructValid(inputLength: int, endModule: EndModule)
    requires CheckedConstruct(inputLength, endModule).Success?
    ensures var blocks := CheckedConstruct(inputLength, endModule).value.blocks;
      |blocks| == 10 &&
      (forall i :: 0 <= i < 10 ==> blocks[i].kernelSize >= 1 && blocks[i].poolingSize >= 1) &&
      1 <= blocks[8].kernelSize <= MaxDenseFinalLayerFeatures
  {
    PlanCorrect(inputLength);
  }

  /** Checked construction accepts the default length and refuses 100 and 27. */
  lemma CheckedConstructExamples(endModule: EndModule)
    ensures CheckedConstruct(DefaultInputLength, endModule).Success?
    ensures CheckedConstruct(100, endModule) == Failure(NonPositiveDenseSize(0))
    ensures CheckedConstruct(27, endModule) == Failure(NonPositiveDenseSize(-2))
  {
    PlanDefaultLength(DefaultInputLength);
    PlanDegenerateAt100(100);
    PlanOvershootAt27(27);
  }
}
