/** The layer-list builders of `Conv2d` in ssd/core/layers.py: `relu_block`,
    `block`, `relu_one` and `one`. Each returns the `(name, module)` pairs that
    the network hands to an `OrderedDict`. A torch module is reduced to its kind
    and channel counts; kernel sizes, strides, padding and the other keyword
    arguments only pass through to torch and are not modelled. */
module ConvBuilders {
  import opened Errors
  import opened Arith
  import opened Seqs
  import opened Text

  /** A torch layer, reduced to its kind and its channel counts. */
  datatype Module =
    | Conv2d(inChannels: int, outChannels: int)
    | BatchNorm2d(numFeatures: int)
    | ReLU
    | MaxPool2d

  /** One `(name, module)` pair. */
  datatype NamedLayer = NamedLayer(name: string, layer: Module)

  /** `'{0}_{1}'.format(order, k)`; `order` is already text. */
  function Postfix(order: string, k: nat): string
  {
    order + "_" + Decimal(k)
  }

  // ---------------------------------------------------------------------------
  // one and relu_one
  // ---------------------------------------------------------------------------

  /** `Conv2d.one`: a convolution, followed by a batch norm when `batchNorm` holds. */
  function One(postfix: string, inChannels: int, outChannels: int, batchNorm: bool): (r: seq<NamedLayer>)
    ensures |r| == GroupSize(batchNorm, false)
    ensures r[0] == NamedLayer("conv" + postfix, Conv2d(inChannels, outChannels))
    ensures batchNorm ==> r[1] == NamedLayer("bn" + postfix, BatchNorm2d(outChannels))
    ensures forall k :: 0 <= k < |r| ==> (r[k].layer.BatchNorm2d? <==> batchNorm && k == 1)
  {
    if !batchNorm then
      [NamedLayer("conv" + postfix, Conv2d(inChannels, outChannels))]
    else
      [NamedLayer("conv" + postfix, Conv2d(inChannels, outChannels)),
       NamedLayer("bn" + postfix, BatchNorm2d(outChannels))]
  }

  /** `Conv2d.relu_one`: as `one`, then a ReLU. */
  function ReluOne(postfix: string, inChannels: int, outChannels: int, batchNorm: bool): (r: seq<NamedLayer>)
    ensures r == One(postfix, inChannels, outChannels, batchNorm) + [NamedLayer("relu" + postfix, ReLU)]
    ensures |r| == GroupSize(batchNorm, true)
  {
    if !batchNorm then
      [NamedLayer("conv" + postfix, Conv2d(inChannels, outChannels)),
       NamedLayer("relu" + postfix, ReLU)]
    else
      [NamedLayer("conv" + postfix, Conv2d(inChannels, outChannels)),
       NamedLayer("bn" + postfix, BatchNorm2d(outChannels)),
       NamedLayer("relu" + postfix, ReLU)]
  }

  /** How many layers one convolution group holds. */
  function GroupSize(batchNorm: bool, relu: bool): nat
  {
    (if batchNorm then 2 else 1) + (if relu then 1 else 0)
  }

  // ---------------------------------------------------------------------------
  // Channel chaining
  // ---------------------------------------------------------------------------

  /** The (in, out) channel pair of every convolution, in list order. */
  function ConvChannels(layers: seq<NamedLayer>): seq<(int, int)>
  {
    if layers == [] then []
    else
      var last := layers[|layers| - 1].layer;
      ConvChannels(layers[..|layers| - 1]) + (if last.Conv2d? then [(last.inChannels, last.outChannels)] else [])
  }

  lemma {:induction false} ConvChannelsAppend(a: seq<NamedLayer>, b: seq<NamedLayer>)
    ensures ConvChannels(a + b) == ConvChannels(a) + ConvChannels(b)
  {
    if b == [] {
      assert a + b == a;
    } else {
      var n := |b| - 1;
      assert (a + b)[..|a + b| - 1] == a + b[..n];
      ConvChannelsAppend(a, b[..n]);
    }
  }

  /** The convolutions of a concatenation of groups, group by group. */
  lemma {:induction false} ConvChannelsConcat(gs: seq<seq<NamedLayer>>)
    ensures ConvChannels(Concat(gs)) == Concat(seq(|gs|, i requires 0 <= i < |gs| => ConvChannels(gs[i])))
  {
    if gs != [] {
      var n := |gs| - 1;
      ConvChannelsConcat(gs[..n]);
      ConvChannelsAppend(Concat(gs[..n]), gs[n]);
      assert seq(|gs|, i requires 0 <= i < |gs| => ConvChannels(gs[i]))[..n]
          == seq(n, i requires 0 <= i < n => ConvChannels(gs[..n][i]));
    }
  }

  lemma ConvChannelsOfGroup(postfix: string, inChannels: int, outChannels: int, batchNorm: bool)
    ensures ConvChannels(One(postfix, inChannels, outChannels, batchNorm)) == [(inChannels, outChannels)]
    ensures ConvChannels(ReluOne(postfix, inChannels, outChannels, batchNorm)) == [(inChannels, outChannels)]
  {
    var one := One(postfix, inChannels, outChannels, batchNorm);
    var relu := [NamedLayer("relu" + postfix, ReLU)];
    ConvChannelsAppend(one, relu);
    assert ConvChannels(relu) == [] by {
      assert relu[..0] == [];
    }
    assert one[..1][..0] == [];
    if batchNorm {
      assert one[..1] == [one[0]];
    } else {
      assert one == [one[0]];
    }
  }

  /** Concatenating one-element pieces lists the elements. */
  lemma {:induction false} ConcatSingletons<T>(xs: seq<T>)
    ensures Concat(seq(|xs|, i requires 0 <= i < |xs| => [xs[i]])) == xs
  {
    if xs != [] {
      var n := |xs| - 1;
      ConcatSingletons(xs[..n]);
      assert seq(|xs|, i requires 0 <= i < |xs| => [xs[i]])[..n]
          == seq(n, i requires 0 <= i < n => [xs[..n][i]]);
    }
  }

  /** Groups holding one convolution each contribute their convolutions in group order. */
  lemma ConvChannelsOfGroups(gs: seq<seq<NamedLayer>>, pairs: seq<(int, int)>)
    requires |gs| == |pairs| && forall k :: 0 <= k < |gs| ==> ConvChannels(gs[k]) == [pairs[k]]
    ensures ConvChannels(Concat(gs)) == pairs
  {
    hide Concat, ConvChannels;
    ConvChannelsConcat(gs);
    assert seq(|gs|, i requires 0 <= i < |gs| => ConvChannels(gs[i]))
        == seq(|pairs|, i requires 0 <= i < |pairs| => [pairs[i]]);
    ConcatSingletons(pairs);
  }

  /** Every convolution reads the channels the convolution before it writes. */
  predicate Chained(convs: seq<(int, int)>)
  {
    forall k :: 0 <= k < |convs| - 1 ==> convs[k + 1].0 == convs[k].1
  }

  // ---------------------------------------------------------------------------
  // relu_block
  // ---------------------------------------------------------------------------

  /** Group `k` (0-based) of `relu_block`: the first convolution reads `inChannels`, every
      later one `outChannels`. */
  function ReluGroups(order: string, n: nat, inChannels: int, outChannels: int, batchNorm: bool)
    : (r: seq<seq<NamedLayer>>)
    ensures |r| == n
  {
    seq(n, k requires 0 <= k < n =>
      ReluOne(Postfix(order, k + 1), if k == 0 then inChannels else outChannels, outChannels, batchNorm))
  }

  /** The pooling layer that closes a `relu_block`. */
  function Pool(order: string): NamedLayer
  {
    NamedLayer("pool" + order, MaxPool2d)
  }

  /** `range(blockNum)` is empty for a negative `blockNum`. */
  function RangeLength(blockNum: int): nat
  {
    if blockNum < 0 then 0 else blockNum
  }

  /** What `relu_block` returns. */
  function ReluBlockLayers(order: string, blockNum: int, inChannels: int, outChannels: int, batchNorm: bool)
    : seq<NamedLayer>
  {
    Concat(ReluGroups(order, RangeLength(blockNum), inChannels, outChannels, batchNorm)) + [Pool(order)]
  }

  /** `Conv2d.relu_block`: `blockNum` conv/[bn]/relu groups named `{kind}{order}_{k+1}`,
      then `pool{order}`. */
  method ReluBlock(order: string, blockNum: int, inChannels: int, outChannels: int, batchNorm: bool)
    returns (layers: seq<NamedLayer>)
    ensures layers == ReluBlockLayers(order, blockNum, inChannels, outChannels, batchNorm)
  {
    var inC := inChannels;
    layers := [];
    var bnum := 0;
    while bnum < blockNum
      invariant 0 <= bnum <= RangeLength(blockNum)
      invariant inC == if bnum == 0 then inChannels else outChannels
      invariant layers == Concat(ReluGroups(order, bnum, inChannels, outChannels, batchNorm))
    {
      var postfix := Postfix(order, bnum + 1);
      if !batchNorm {
        layers := layers + [NamedLayer("conv" + postfix, Conv2d(inC, outChannels)),
                            NamedLayer("relu" + postfix, ReLU)];
      } else {
        layers := layers + [NamedLayer("conv" + postfix, Conv2d(inC, outChannels)),
                            NamedLayer("bn" + postfix, BatchNorm2d(outChannels)),
                            NamedLayer("relu" + postfix, ReLU)];
      }
      assert ReluGroups(order, bnum + 1, inChannels, outChannels, batchNorm)[..bnum]
          == ReluGroups(order, bnum, inChannels, outChannels, batchNorm);
      inC := outChannels;
      bnum := bnum + 1;
    }
    assert bnum == RangeLength(blockNum);
    layers := layers + [Pool(order)];
  }

  /** For every `blockNum`, zero included, a `relu_block` has `blockNum` groups of 2 (3 with
      batch norm) layers and ends with its single pooling layer. */
  lemma ReluBlockLength(order: string, blockNum: nat, inChannels: int, outChannels: int, batchNorm: bool)
    ensures var layers := ReluBlockLayers(order, blockNum, inChannels, outChannels, batchNorm);
      |layers| == Mul(blockNum, GroupSize(batchNorm, true)) + 1
      && layers[|layers| - 1] == Pool(order)
  {
    hide ReluOne, One, Postfix;
    var gs := ReluGroups(order, blockNum, inChannels, outChannels, batchNorm);
    ConcatUniformLength(gs, GroupSize(batchNorm, true));
  }

  /** `relu_block` returns `blockNum` groups of 2 layers (3 with batch norm), group `k`
      being `relu_one` with postfix `{order}_{k+1}`, then exactly one `pool{order}`. */
  lemma ReluBlockShape(order: string, blockNum: nat, inChannels: int, outChannels: int, batchNorm: bool,
                       k: nat, j: nat)
    requires k < blockNum && j < GroupSize(batchNorm, true)
    ensures var layers := ReluBlockLayers(order, blockNum, inChannels, outChannels, batchNorm);
      |layers| == Mul(blockNum, GroupSize(batchNorm, true)) + 1
      && layers[|layers| - 1] == Pool(order)
      && Flat(k, GroupSize(batchNorm, true), j) < |layers| - 1
      && layers[Flat(k, GroupSize(batchNorm, true), j)]
         == ReluOne(Postfix(order, k + 1), if k == 0 then inChannels else outChannels, outChannels, batchNorm)[j]
  {
    hide ReluOne, One, Postfix;
    var gs := ReluGroups(order, blockNum, inChannels, outChannels, batchNorm);
    ConcatUniformAt(gs, GroupSize(batchNorm, true), k, j);
  }

  /** The convolutions of a `relu_block`: `blockNum` of them, the first from `inChannels`,
      each later one from `outChannels`, all to `outChannels`, so they are chained. */
  lemma ReluBlockChannels(order: string, blockNum: nat, inChannels: int, outChannels: int, batchNorm: bool)
    ensures var convs := ConvChannels(ReluBlockLayers(order, blockNum, inChannels, outChannels, batchNorm));
      |convs| == blockNum
      && (forall k :: 0 <= k < blockNum ==> convs[k] == (if k == 0 then inChannels else outChannels, outChannels))
      && Chained(convs)
  {
    var gs := ReluGroups(order, blockNum, inChannels, outChannels, batchNorm);
    var pairs := seq(blockNum, k requires 0 <= k < blockNum =>
      (if k == 0 then inChannels else outChannels, outChannels));
    forall k | 0 <= k < blockNum
      ensures ConvChannels(gs[k]) == [pairs[k]]
    {
      ConvChannelsOfGroup(Postfix(order, k + 1), if k == 0 then inChannels else outChannels, outChannels, batchNorm);
    }
    ConvChannelsOfGroups(gs, pairs);
    ConvChannelsAppend(Concat(gs), [Pool(order)]);
    assert ConvChannels([Pool(order)]) == [] by {
      assert [Pool(order)][..0] == [];
    }
  }

  // ---------------------------------------------------------------------------
  // block
  // ---------------------------------------------------------------------------

  /** A channel argument of `block`: one int, or a tuple with one entry per convolution. */
  datatype Channels = Single(c: int) | PerLayer(cs: seq<int>)

  /** `out_channels` after expansion: an int becomes `blockNum` copies of itself. */
  function OutList(outChannels: Channels, blockNum: int): (r: seq<int>)
    ensures outChannels.Single? ==> |r| == RangeLength(blockNum) && forall k :: 0 <= k < |r| ==> r[k] == outChannels.c
  {
    match outChannels
    case Single(c) => seq(RangeLength(blockNum), _ => c)
    case PerLayer(cs) => cs
  }

  /** `[first]` followed by every expanded output channel but the last. */
  method ChainInChannels(first: int, outs: seq<int>) returns (ins: seq<int>)
    ensures |ins| == if |outs| == 0 then 1 else |outs|
    ensures ins[0] == first
    ensures forall k :: 0 <= k < |outs| - 1 ==> ins[k + 1] == outs[k]
  {
    ins := [first];
    var rest := if |outs| == 0 then [] else outs[..|outs| - 1];
    var i := 0;
    while i < |rest|
      invariant 0 <= i <= |rest|
      invariant |ins| == i + 1 && ins[0] == first
      invariant forall k :: 0 <= k < i ==> ins[k + 1] == outs[k]
    {
      ins := ins + [rest[i]];
      i := i + 1;
    }
  }

  /** `in_channels` after expansion, as `ChainInChannels` computes it. */
  function InList(inChannels: Channels, outs: seq<int>): (r: seq<int>)
  {
    match inChannels
    case Single(c) => [c] + (if |outs| == 0 then [] else outs[..|outs| - 1])
    case PerLayer(cs) => cs
  }

  /** The message of the `ValueError` raised by `block`. */
  const BlockLengthMessage := "block_nums and length of out_channels and in_channels must be same"

  /** Whether `block` accepts its expanded channel lists. */
  predicate BlockLengthsAgree(blockNum: int, ins: seq<int>, outs: seq<int>)
  {
    |outs| == blockNum && |ins| == |outs|
  }

  /** Convolution `k` (0-based) of `block`, from `ins[k]` to `outs[k]`. */
  function BlockGroups(order: string, ins: seq<int>, outs: seq<int>, batchNorm: bool): (r: seq<seq<NamedLayer>>)
    requires |ins| == |outs|
    ensures |r| == |outs|
  {
    seq(|outs|, k requires 0 <= k < |outs| => One(Postfix(order, k + 1), ins[k], outs[k], batchNorm))
  }

  /** The loop of `Conv2d.block` over the (in, out) pairs, once the lengths agree. */
  method EmitGroups(order: string, ins: seq<int>, outs: seq<int>, batchNorm: bool)
    returns (layers: seq<NamedLayer>)
    requires |ins| == |outs|
    ensures layers == Concat(BlockGroups(order, ins, outs, batchNorm))
  {
    layers := [];
    var bnum := 0;
    assert layers == Concat(BlockGroups(order, ins[..0], outs[..0], batchNorm));
    hide Concat, BlockGroups, Postfix;
    while bnum < |outs|
      invariant 0 <= bnum <= |outs|
      invariant layers == Concat(BlockGroups(order, ins[..bnum], outs[..bnum], batchNorm))
    {
      BlockGroupsLast(order, ins, outs, batchNorm, bnum);
      var postfix := Postfix(order, bnum + 1);
      if !batchNorm {
        layers := layers + [NamedLayer("conv" + postfix, Conv2d(ins[bnum], outs[bnum]))];
      } else {
        layers := layers + [NamedLayer("conv" + postfix, Conv2d(ins[bnum], outs[bnum])),
                            NamedLayer("bn" + postfix, BatchNorm2d(outs[bnum]))];
      }
      bnum := bnum + 1;
    }
    assert ins[..bnum] == ins && outs[..bnum] == outs;
  }

  /** `Conv2d.block`: expands the channel arguments, raises `ValueError` unless there are
      `blockNum` output channels and as many input channels, then emits one conv[/bn] group
      per (in, out) pair. */
  method Block(order: string, blockNum: int, inChannels: Channels, outChannels: Channels, batchNorm: bool)
    returns (r: Result<seq<NamedLayer>>)
    ensures var outs := OutList(outChannels, blockNum);
      var ins := InList(inChannels, outs);
      && (r.Err? <==> !BlockLengthsAgree(blockNum, ins, outs))
      && (r.Err? ==> r.error == ValueError(BlockLengthMessage))
      && (r.Ok? ==> r.value == Concat(BlockGroups(order, ins, outs, batchNorm)))
  {
    var outs := OutList(outChannels, blockNum);
    var ins: seq<int>;
    match inChannels {
      case Single(c) =>
        ins := ChainInChannels(c, outs);
        assert ins == InList(inChannels, outs);
      case PerLayer(cs) =>
        ins := cs;
    }
    if !(|outs| == blockNum && |ins| == |outs|) {
      return Err(ValueError(BlockLengthMessage));
    }
    var layers := EmitGroups(order, ins, outs, batchNorm);
    return Ok(layers);
  }

  /** One more (in, out) pair adds its conv[/bn] group at the end. */
  lemma BlockGroupsLast(order: string, ins: seq<int>, outs: seq<int>, batchNorm: bool, k: nat)
    requires |ins| == |outs| && k < |outs|
    ensures Concat(BlockGroups(order, ins[..k + 1], outs[..k + 1], batchNorm))
      == Concat(BlockGroups(order, ins[..k], outs[..k], batchNorm)) + One(Postfix(order, k + 1), ins[k], outs[k], batchNorm)
  {
    assert BlockGroups(order, ins[..k + 1], outs[..k + 1], batchNorm)[..k]
        == BlockGroups(order, ins[..k], outs[..k], batchNorm);
  }

  /** With an int `in_channels`, input channel `k + 1` is output channel `k`; with an int
      `out_channels` every one of the `blockNum` outputs is that int. */
  lemma BlockExpansion(inChannels: Channels, outChannels: Channels, blockNum: int)
    ensures var outs := OutList(outChannels, blockNum);
      var ins := InList(inChannels, outs);
      (outChannels.Single? ==> outs == seq(RangeLength(blockNum), _ => outChannels.c))
      && (inChannels.Single? ==>
            |ins| == (if |outs| == 0 then 1 else |outs|) && ins[0] == inChannels.c
            && forall k :: 0 <= k < |outs| - 1 ==> ins[k + 1] == outs[k])
  {
  }

  /** `block` raises exactly when the expanded lengths disagree; with two ints it succeeds
      exactly when `blockNum >= 1` (for `blockNum == 0` the single input channel has no
      output to pair with). */
  lemma BlockFailsExactly(blockNum: int, inC: int, outC: int)
    ensures var outs := OutList(Single(outC), blockNum);
      BlockLengthsAgree(blockNum, InList(Single(inC), outs), outs) <==> blockNum >= 1
  {
  }

  /** The convolutions `block` emits are the zipped channel lists; with an int
      `in_channels` they are chained. */
  lemma BlockChannels(order: string, ins: seq<int>, outs: seq<int>, batchNorm: bool)
    requires |ins| == |outs|
    ensures var convs := ConvChannels(Concat(BlockGroups(order, ins, outs, batchNorm)));
      |convs| == |outs|
      && (forall k :: 0 <= k < |outs| ==> convs[k] == (ins[k], outs[k]))
      && ((forall k :: 0 <= k < |outs| - 1 ==> ins[k + 1] == outs[k]) ==> Chained(convs))
  {
    hide Concat, ConvChannels;
    var gs := BlockGroups(order, ins, outs, batchNorm);
    var pairs := seq(|outs|, k requires 0 <= k < |outs| => (ins[k], outs[k]));
    forall k | 0 <= k < |outs|
      ensures ConvChannels(gs[k]) == [pairs[k]]
    {
      ConvChannelsOfGroup(Postfix(order, k + 1), ins[k], outs[k], batchNorm);
    }
    ConvChannelsOfGroups(gs, pairs);
    if forall k :: 0 <= k < |outs| - 1 ==> ins[k + 1] == outs[k] {
      forall k | 0 <= k < |pairs| - 1 ensures pairs[k + 1].0 == pairs[k].1 { }
    }
  }

  /** For every pair of equally long channel lists, empty ones included, `block` has one
      group of 1 (2 with batch norm) layers per pair. */
  lemma BlockLength(order: string, ins: seq<int>, outs: seq<int>, batchNorm: bool)
    requires |ins| == |outs|
    ensures |Concat(BlockGroups(order, ins, outs, batchNorm))| == Mul(|outs|, GroupSize(batchNorm, false))
  {
    ConcatUniformLength(BlockGroups(order, ins, outs, batchNorm), GroupSize(batchNorm, false));
  }

  /** `block` returns one `one` group per convolution: the layer count is `blockNum` times
      1 (2 with batch norm), and group `k` is `one` with postfix `{order}_{k+1}`. */
  lemma BlockShape(order: string, ins: seq<int>, outs: seq<int>, batchNorm: bool, k: nat, j: nat)
    requires |ins| == |outs| && k < |outs| && j < GroupSize(batchNorm, false)
    ensures var layers := Concat(BlockGroups(order, ins, outs, batchNorm));
      |layers| == Mul(|outs|, GroupSize(batchNorm, false))
      && Flat(k, GroupSize(batchNorm, false), j) < |layers|
      && layers[Flat(k, GroupSize(batchNorm, false), j)] == One(Postfix(order, k + 1), ins[k], outs[k], batchNorm)[j]
  {
    ConcatUniformAt(BlockGroups(order, ins, outs, batchNorm), GroupSize(batchNorm, false), k, j);
  }
}
