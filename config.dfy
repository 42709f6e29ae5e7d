/** Construction-time validation of `RingAttention` and `RingTransformer`
    settings, and the choice of execution path a forward pass makes from
    those settings and from whether a process group is running. */
module Config {
  import opened Common

  /** Why construction is refused. A zero bucket size makes the divisibility
      test itself fail (division by zero) before it can assert anything. */
  datatype ConfigError =
    | ZeroBucketSize
    | QueryBucketDoesNotDivide
    | KeyBucketDoesNotDivide
    | AutoShardWithoutRing

  /** The settings of one `RingAttention` layer that the sharding and the
      dispatch depend on. `dim` is the model dimension: the extent of the
      last axis of the layer's input. */
  datatype AttentionConfig = AttentionConfig(
    dim: nat,
    causal: bool,
    qBucketSize: int,
    kBucketSize: int,
    ringAttn: bool,
    ringSeqSize: nat,
    autoShardSeq: bool)

  /** The settings of a `RingTransformer`: its own sharding flags and one
      attention layer per unit of depth. */
  datatype TransformerConfig = TransformerConfig(
    ringAttn: bool,
    ringSeqSize: nat,
    autoShardSeq: bool,
    layers: seq<AttentionConfig>)

  /** `default(v, d)`: the given value, or `d` when none is given. */
  function Default<T>(v: Option<T>, d: T): (r: T)
    ensures v.Some? ==> r == v.value
    ensures v.None? ==> r == d
  {
    if v.Some? then v.value else d
  }

  /** The remainder of the host language's `%`, which takes the sign of the
      divisor (Dafny's `%` never goes negative). */
  function FloorMod(a: int, b: int): (r: int)
    requires b != 0
    ensures b > 0 ==> 0 <= r < b
    ensures b < 0 ==> b < r <= 0
  {
    var m := a % b;
    if b < 0 && m != 0 then m + b else m
  }

  /** The zero test of `divisible_by` does not depend on the sign convention
      of the remainder: it holds exactly when `den` divides `num`. */
  lemma FloorModZero(num: int, den: int)
    requires den != 0
    ensures FloorMod(num, den) == 0 <==> num % den == 0
    ensures FloorMod(num, den) == 0 <==> num == (num / den) * den
  {
  }

  /** `divisible_by(num, den)`; the caller rules out `den == 0`, where the
      source raises instead of answering. */
  predicate DivisibleBy(num: int, den: int)
    requires den != 0
  {
    FloorMod(num, den) == 0
  }

  /** `RingAttention.__init__`: the shard size must be a multiple of both
      bucket sizes (checked query bucket first), and sequence auto-sharding,
      which defaults to the ring setting, may only be on when ring attention
      is. */
  function NewRingAttention(dim: nat, causal: bool, qBucketSize: int, kBucketSize: int,
                            ringAttn: bool, ringSeqSize: nat, autoShardSeq: Option<bool>)
    : (r: Result<AttentionConfig, ConfigError>)
    ensures r.Ok? <==>
              && qBucketSize != 0 && kBucketSize != 0
              && ringSeqSize % qBucketSize == 0 && ringSeqSize % kBucketSize == 0
              && (autoShardSeq == Some(true) ==> ringAttn)
    ensures qBucketSize == 0 ==> r == Err(ZeroBucketSize)
    ensures qBucketSize != 0 && ringSeqSize % qBucketSize != 0 ==> r == Err(QueryBucketDoesNotDivide)
    ensures qBucketSize != 0 && ringSeqSize % qBucketSize == 0 && kBucketSize == 0 ==> r == Err(ZeroBucketSize)
    ensures && qBucketSize != 0 && ringSeqSize % qBucketSize == 0
            && kBucketSize != 0 && ringSeqSize % kBucketSize != 0
            ==> r == Err(KeyBucketDoesNotDivide)
    ensures r == Err(AutoShardWithoutRing) <==>
              && qBucketSize != 0 && kBucketSize != 0
              && ringSeqSize % qBucketSize == 0 && ringSeqSize % kBucketSize == 0
              && autoShardSeq == Some(true) && !ringAttn
    ensures r.Ok? ==> r.value == AttentionConfig(dim, causal, qBucketSize, kBucketSize, ringAttn, ringSeqSize,
                                                 if autoShardSeq.Some? then autoShardSeq.value else ringAttn)
  {
    if qBucketSize == 0 then Err(ZeroBucketSize)
    else if !DivisibleBy(ringSeqSize, qBucketSize) then (FloorModZero(ringSeqSize, qBucketSize); Err(QueryBucketDoesNotDivide))
    else if kBucketSize == 0 then Err(ZeroBucketSize)
    else if !DivisibleBy(ringSeqSize, kBucketSize) then (FloorModZero(ringSeqSize, kBucketSize); Err(KeyBucketDoesNotDivide))
    else
      FloorModZero(ringSeqSize, qBucketSize);
      FloorModZero(ringSeqSize, kBucketSize);
      var auto := Default(autoShardSeq, ringAttn);
      if !ringAttn && auto then Err(AutoShardWithoutRing)
      else Ok(AttentionConfig(dim, causal, qBucketSize, kBucketSize, ringAttn, ringSeqSize, auto))
  }

  /** A layer that was built never auto-shards without ring attention. */
  predicate ValidAttention(cfg: AttentionConfig)
  {
    && cfg.qBucketSize != 0 && cfg.kBucketSize != 0
    && cfg.ringSeqSize % cfg.qBucketSize == 0 && cfg.ringSeqSize % cfg.kBucketSize == 0
    && (cfg.autoShardSeq ==> cfg.ringAttn)
  }

  /** Every layer `NewRingAttention` accepts is valid, and every valid layer
      is what `NewRingAttention` builds from its own settings. */
  lemma NewRingAttentionValid(dim: nat, causal: bool, qBucketSize: int, kBucketSize: int,
                              ringAttn: bool, ringSeqSize: nat, autoShardSeq: Option<bool>)
    ensures var r := NewRingAttention(dim, causal, qBucketSize, kBucketSize, ringAttn, ringSeqSize, autoShardSeq);
            r.Ok? ==> ValidAttention(r.value)
    ensures forall cfg: AttentionConfig | ValidAttention(cfg) ::
              NewRingAttention(cfg.dim, cfg.causal, cfg.qBucketSize, cfg.kBucketSize, cfg.ringAttn,
                               cfg.ringSeqSize, Some(cfg.autoShardSeq)) == Ok(cfg)
  {
  }

  /** Leaving auto-sharding unset never trips its check: it then follows the
      ring setting, so only the bucket sizes can refuse the layer. */
  lemma DefaultAutoShardAccepted(dim: nat, causal: bool, qBucketSize: int, kBucketSize: int,
                                 ringAttn: bool, ringSeqSize: nat)
    ensures var r := NewRingAttention(dim, causal, qBucketSize, kBucketSize, ringAttn, ringSeqSize, None);
            && r != Err(AutoShardWithoutRing)
            && (r.Ok? ==> r.value.autoShardSeq == ringAttn)
  {
  }

  /** `RingTransformer.__init__`: the auto-sharding check comes first; then
      `depth` identical layers are built with auto-sharding off, so the
      bucket sizes are only checked when there is at least one layer. */
  function NewRingTransformer(dim: nat, depth: nat, causal: bool, qBucketSize: int, kBucketSize: int,
                              ringAttn: bool, ringSeqSize: nat, autoShardSeq: Option<bool>)
    : (r: Result<TransformerConfig, ConfigError>)
  {
    var auto := Default(autoShardSeq, ringAttn);
    if !ringAttn && auto then Err(AutoShardWithoutRing)
    else if depth == 0 then Ok(TransformerConfig(ringAttn, ringSeqSize, auto, []))
    else
      match NewRingAttention(dim, causal, qBucketSize, kBucketSize, ringAttn, ringSeqSize, Some(false))
      case Err(e) => Err(e)
      case Ok(layer) => Ok(TransformerConfig(ringAttn, ringSeqSize, auto, seq(depth, _ => layer)))
  }

  /** The transformer is refused exactly when its own auto-sharding check
      fails or, with at least one layer, the bucket sizes do not divide the
      shard size; an accepted transformer has `depth` valid layers, none of
      which auto-shards, so a sequence is sharded at most once, at the top. */
  lemma NewRingTransformerLayers(dim: nat, depth: nat, causal: bool, qBucketSize: int, kBucketSize: int,
                                 ringAttn: bool, ringSeqSize: nat, autoShardSeq: Option<bool>)
    ensures var r := NewRingTransformer(dim, depth, causal, qBucketSize, kBucketSize, ringAttn, ringSeqSize, autoShardSeq);
            && (r.Ok? <==>
                  && (autoShardSeq == Some(true) ==> ringAttn)
                  && (depth > 0 ==>
                        && qBucketSize != 0 && kBucketSize != 0
                        && ringSeqSize % qBucketSize == 0 && ringSeqSize % kBucketSize == 0))
            && (r.Ok? ==>
                  && |r.value.layers| == depth
                  && r.value.autoShardSeq == Default(autoShardSeq, ringAttn)
                  && (r.value.autoShardSeq ==> r.value.ringAttn)
                  && forall l | 0 <= l < depth ::
                       ValidAttention(r.value.layers[l]) && !r.value.layers[l].autoShardSeq
                       && r.value.layers[l].ringAttn == ringAttn && r.value.layers[l].ringSeqSize == ringSeqSize)
  {
    var r := NewRingTransformer(dim, depth, causal, qBucketSize, kBucketSize, ringAttn, ringSeqSize, autoShardSeq);
    if depth > 0 && r.Ok? {
      NewRingAttentionValid(dim, causal, qBucketSize, kBucketSize, ringAttn, ringSeqSize, Some(false));
    }
  }

  /** Which attention a forward pass runs: plain attention over the local
      sequence when no process group is running, otherwise the ring kernel,
      with or without passing keys and values around the ring. */
  datatype AttentionPath = Local | RingKernel(ringPasses: bool)

  /** `ring_attn & is_distributed()` and the `is_distributed()` branch. */
  function Path(cfg: AttentionConfig, distributed: bool): (p: AttentionPath)
    ensures p.Local? <==> !distributed
    ensures p.RingKernel? ==> (p.ringPasses <==> cfg.ringAttn)
  {
    if !distributed then Local else RingKernel(cfg.ringAttn && distributed)
  }

  /** `auto_shard_seq & is_distributed()`: whether the layer shards its input
      itself. */
  predicate ShardsInput(cfg: AttentionConfig, distributed: bool)
  {
    cfg.autoShardSeq && distributed
  }

  /** A valid layer only shards its input when it also passes keys and values
      around the ring, and a single process never shards. */
  lemma ShardingImpliesRing(cfg: AttentionConfig, distributed: bool)
    requires ValidAttention(cfg)
    ensures ShardsInput(cfg, distributed) ==> Path(cfg, distributed) == RingKernel(true)
    ensures !distributed ==> !ShardsInput(cfg, distributed) && Path(cfg, distributed) == Local
  {
  }
}
