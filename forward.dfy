/** The sharding wiring of the forward passes of `RingAttention` and
    `RingTransformer`: optionally shard the sequence across the ranks, run the
    layers, then gather every rank's batch back and cut it to the sequence
    length taken on entry. The layers themselves (embedding, attention,
    feed-forward, logits) are taken as the identity on every position, so
    what is left is exactly the data movement around them. */
module Forward {
  import opened Common
  import opened Tensors
  import opened Padding
  import opened Collectives
  import opened Sharding
  import opened Config

  /** `RingTransformer.forward` for rank `rank`, with the sharding as it is
      evidently meant (`ShardBatchToSeq`, the mask kept a tensor): the token
      ids are `[batch, sequence]`, so the length kept on entry is the
      sequence length. */
  function TransformerForward<T>(cfg: TransformerConfig, distributed: bool, world: seq<Input<T>>, rank: nat, padValue: T)
    : (r: Result<Tensor<T>, ShardError>)
    requires rank < |world| && ValidWorld(world)
  {
    if cfg.autoShardSeq && distributed then
      ReshardRoundTrip(world, cfg.ringSeqSize, padValue, rank, world[rank].x.width)
    else
      Ok(world[rank].x)
  }

  /** Auto-sharding is invisible to the caller: the pass fails only when it
      shards and sharding fails, and otherwise returns every rank its own
      batch, unpadded. */
  lemma TransformerForwardTransparent<T>(cfg: TransformerConfig, distributed: bool, world: seq<Input<T>>, rank: nat, padValue: T)
    requires rank < |world| && ValidWorld(world)
    ensures var r := TransformerForward(cfg, distributed, world, rank, padValue);
            && (r.Ok? <==> !(cfg.autoShardSeq && distributed) || ShardingSucceeds(world, cfg.ringSeqSize))
            && (r.Ok? ==> r.value == world[rank].x)
  {
    RoundTrip(world, cfg.ringSeqSize, padValue, rank);
  }

  /** `RingTransformer.forward` as written: the sharding is
      `ShardBatchToSeqAsWritten`, which fails as soon as the ranks hold a
      mask after padding. When it succeeds its shard is the one
      `ShardBatchToSeq` gives, so the rest of the pass is the intended one. */
  function TransformerForwardAsWritten<T>(cfg: TransformerConfig, distributed: bool, world: seq<Input<T>>, rank: nat, padValue: T)
    : (r: Result<Tensor<T>, ShardError>)
    requires rank < |world| && ValidWorld(world)
  {
    if cfg.autoShardSeq && distributed then
      match ShardBatchToSeqAsWritten(world, rank, cfg.ringSeqSize, padValue)
      case Err(e) => Err(e)
      case Ok(_) => ReshardRoundTrip(world, cfg.ringSeqSize, padValue, rank, world[rank].x.width)
    else
      Ok(world[rank].x)
  }

  /** As written, an auto-sharding transformer returns only when no rank
      holds a mask after padding, so never for a sequence that needs
      padding; when it returns, every rank gets its own batch back. */
  lemma TransformerForwardAsWrittenMasks<T>(cfg: TransformerConfig, distributed: bool, world: seq<Input<T>>, rank: nat, padValue: T)
    requires rank < |world| && ValidWorld(world) && cfg.autoShardSeq && distributed
    ensures var r := TransformerForwardAsWritten(cfg, distributed, world, rank, padValue);
            && (r.Ok? <==> ShardingSucceeds(world, cfg.ringSeqSize) && !HasPaddedMask(world[0], cfg.ringSeqSize))
            && (r.Ok? ==> r.value == world[rank].x && PadLength(world[rank].x.width, cfg.ringSeqSize) == 0)
  {
    AsWrittenRejectsMasks(world, rank, cfg.ringSeqSize, padValue);
    RoundTrip(world, cfg.ringSeqSize, padValue, rank);
  }

  /** `RingAttention.forward` as written. The layer's input is `[batch,
      sequence, dim]`, but the sharding helpers work on the last axis, so the
      layer pads and splits its feature axis, of extent `cfg.dim`, and later
      cuts the sequence at that same extent. Positions here carry their
      feature vectors as values, so only the outcome of each step is stated,
      in the order the steps run:
      - the remainder by a zero shard size raises;
      - the gather along the batch needs every rank's sequence length;
      - padding the features builds a mask and binds it to a pair, which the
        mask gather is then handed;
      - the feature split must give one chunk per rank;
      - a passed mask is bound to the gather's pair, which cannot be split;
        when only some ranks pass one, those wait in a mask gather the others
        skip, and which error such a world reports is not modelled (only
        that it fails);
      - with more than one rank each holds a slice of the features narrower
        than `dim`, which the projections do not take;
      - otherwise the one rank holds its whole input, the layers leave its
        positions in place, and the cut keeps the first `dim` of them. */
  function AttentionForwardAsWritten<T>(cfg: AttentionConfig, distributed: bool, world: seq<Input<T>>, rank: nat)
    : (r: Result<Tensor<T>, ShardError>)
    requires rank < |world| && ValidWorld(world)
  {
    var s := cfg.ringSeqSize;
    if !ShardsInput(cfg, distributed) then Ok(world[rank].x)
    else if s == 0 then Err(ZeroShardSize)
    else if !SameSequenceLength(world) then Err(ShapeMismatch)
    else if PadLength(cfg.dim, s) > 0 then Err(MaskNotTensor)
    else if NumChunks(cfg.dim, s) != |world| then Err(ChunkCountMismatch)
    else if world[rank].mask.Some? then Err(MaskNotTensor)
    else if !NoMasks(world) then Err(ShapeMismatch)
    else if |world| > 1 then Err(FeatureWidthMismatch)
    else Ok(Truncate(world[rank].x, cfg.dim))
  }

  /** Every rank holds sequences of the same length. */
  predicate SameSequenceLength<T>(world: seq<Input<T>>)
  {
    forall q | 0 <= q < |world| :: world[q].x.width == world[0].x.width
  }

  /** No rank passed a mask. */
  predicate NoMasks<T>(world: seq<Input<T>>)
  {
    forall q | 0 <= q < |world| :: world[q].mask.None?
  }

  /** A feature axis of `d` splits into one unpadded chunk of `s` exactly
      when it is one chunk wide or empty. */
  lemma OneWholeChunk(d: nat, s: nat)
    requires s > 0
    ensures PadLength(d, s) == 0 && NumChunks(d, s) == 1 <==> d == s || d == 0
  {
    ChunkCountCondition(d, s, 1);
    PadLengthFits(d, s);
    if d == s {
      assert d % s == 0;
    }
  }

  /** When the layer shards, it returns only for a single rank without a mask
      whose model dimension is the shard size (or zero), and then hands back
      the first `dim` positions of its input, whatever its sequence length. */
  lemma AttentionForwardAsWrittenCuts<T>(cfg: AttentionConfig, distributed: bool, world: seq<Input<T>>, rank: nat)
    requires rank < |world| && ValidWorld(world) && ShardsInput(cfg, distributed)
    ensures var r := AttentionForwardAsWritten(cfg, distributed, world, rank);
            && (r.Ok? <==>
                  && |world| == 1 && world[0].mask.None?
                  && cfg.ringSeqSize > 0 && (cfg.dim == cfg.ringSeqSize || cfg.dim == 0))
            && (r.Ok? ==> r.value == Truncate(world[rank].x, cfg.dim) && r.value.width == Min(cfg.dim, world[rank].x.width))
  {
    if cfg.ringSeqSize > 0 {
      OneWholeChunk(cfg.dim, cfg.ringSeqSize);
    }
  }

  /** Two ranks, each with one four-position sequence of dimension four,
      sharded by two: the layer as written splits the features into two
      slices of width two, which the projections refuse. */
  lemma AttentionForwardSplitsFeatures(v: int)
    ensures var x := Tensor([[v, v, v, v]], 4);
            AttentionForwardAsWritten(AttentionConfig(4, false, 2, 2, true, 2, true), true, [Input(x, None), Input(x, None)], 0)
              == Err(FeatureWidthMismatch)
  {
    var x := Tensor([[v, v, v, v]], 4);
    TwoChunksOfTwo();
    TwoPlainRanks(x);
    AsWrittenRefusesSlices(AttentionConfig(4, false, 2, 2, true, 2, true), true, [Input(x, None), Input(x, None)], 0);
  }

  /** As written, whenever the feature split does give one chunk per rank
      and there is more than one rank, each rank's slice of the features is
      narrower than `dim` and the layer refuses it. */
  lemma AsWrittenRefusesSlices<T>(cfg: AttentionConfig, distributed: bool, world: seq<Input<T>>, rank: nat)
    requires rank < |world| && ValidWorld(world) && ShardsInput(cfg, distributed)
    requires cfg.ringSeqSize > 0 && PadLength(cfg.dim, cfg.ringSeqSize) == 0 && NumChunks(cfg.dim, cfg.ringSeqSize) == |world|
    requires SameSequenceLength(world) && NoMasks(world) && |world| > 1
    ensures AttentionForwardAsWritten(cfg, distributed, world, rank) == Err(FeatureWidthMismatch)
  {
  }

  /** The same two ranks, sharded along the sequence: each gets its own four
      positions back. */
  lemma AttentionForwardKeepsPositions(v: int)
    ensures var x := Tensor([[v, v, v, v]], 4);
            AttentionForward(AttentionConfig(4, false, 2, 2, true, 2, true), true, [Input(x, None), Input(x, None)], 0, 0)
              == Ok(x)
  {
    var x := Tensor([[v, v, v, v]], 4);
    assert NumChunks(PaddedWidth(x.width, 2), 2) == 2 by {
      TwoChunksOfTwo();
    }
    TwoRanksKeep(AttentionConfig(4, false, 2, 2, true, 2, true), x, 0);
  }

  /** Two ranks holding the same batch and no mask, whose padded sequence
      makes two chunks, each get their batch back from a sharding layer. */
  lemma TwoRanksKeep<T>(cfg: AttentionConfig, x: Tensor<T>, padValue: T)
    requires WellFormed(x) && ShardsInput(cfg, true) && cfg.ringSeqSize > 0
    requires NumChunks(PaddedWidth(x.width, cfg.ringSeqSize), cfg.ringSeqSize) == 2
    ensures AttentionForward(cfg, true, [Input(x, None), Input(x, None)], 0, padValue) == Ok(x)
  {
    TwoRanksSucceed(x, cfg.ringSeqSize);
    AttentionForwardTransparent(cfg, true, [Input(x, None), Input(x, None)], 0, padValue);
  }

  /** Two ranks holding the same batch and no mask shard by `s` when the
      padded sequence makes two chunks. */
  lemma TwoRanksSucceed<T>(x: Tensor<T>, s: nat)
    requires WellFormed(x) && s > 0 && NumChunks(PaddedWidth(x.width, s), s) == 2
    ensures ShardingSucceeds([Input(x, None), Input(x, None)], s)
  {
  }

  /** Four positions split by two: nothing to pad, two chunks. */
  lemma TwoChunksOfTwo()
    ensures PadLength(4, 2) == 0 && PaddedWidth(4, 2) == 4 && NumChunks(4, 2) == 2
  {
    assert Rem(4, 2) == 0 by {
      assert Rem(2, 2) == 0;
    }
  }

  /** Two ranks holding the same batch and no mask form a valid world, agree
      on the sequence length and hold no mask. */
  lemma TwoPlainRanks<T>(x: Tensor<T>)
    requires WellFormed(x)
    ensures ValidWorld([Input(x, None), Input(x, None)])
    ensures SameSequenceLength([Input(x, None), Input(x, None)]) && NoMasks([Input(x, None), Input(x, None)])
  {
  }

  /** A single rank with an eight-position sequence of dimension four,
      sharded by four: the layer as written returns only the first four
      positions. */
  lemma AttentionForwardDropsPositions()
    ensures var x := Tensor([[7, 7, 7, 7, 7, 7, 7, 7]], 8);
            var r := AttentionForwardAsWritten(AttentionConfig(4, false, 4, 4, true, 4, true), true, [Input(x, None)], 0);
            r.Ok? && r.value.width == 4 && x.width == 8
  {
    var x := Tensor([[7, 7, 7, 7, 7, 7, 7, 7]], 8);
    AttentionForwardAsWrittenCuts(AttentionConfig(4, false, 4, 4, true, 4, true), true, [Input(x, None)], 0);
  }

  /** `RingAttention.forward` as evidently meant, and as `RingTransformer`
      does it: the sequence axis is sharded and the cut is taken at the
      sequence length of the layer's input. */
  function AttentionForward<T>(cfg: AttentionConfig, distributed: bool, world: seq<Input<T>>, rank: nat, padValue: T)
    : (r: Result<Tensor<T>, ShardError>)
    requires rank < |world| && ValidWorld(world)
  {
    if ShardsInput(cfg, distributed) then
      ReshardRoundTrip(world, cfg.ringSeqSize, padValue, rank, world[rank].x.width)
    else
      Ok(world[rank].x)
  }

  /** With the cut at the sequence length, a sharding layer is invisible to
      its caller, as the transformer is. */
  lemma AttentionForwardTransparent<T>(cfg: AttentionConfig, distributed: bool, world: seq<Input<T>>, rank: nat, padValue: T)
    requires rank < |world| && ValidWorld(world)
    ensures var r := AttentionForward(cfg, distributed, world, rank, padValue);
            && (r.Ok? <==> !ShardsInput(cfg, distributed) || ShardingSucceeds(world, cfg.ringSeqSize))
            && (r.Ok? ==> r.value == world[rank].x)
  {
    RoundTrip(world, cfg.ringSeqSize, padValue, rank);
  }
}
