# Ring attention sequence sharding, modelled in Dafny

This project models the data movement at the core of `ring_attention_pytorch`:
- **Sharding.** Each rank holds whole sequences for its own batch rows. The model moves that batch-sharded input to a sequence-sharded one, where every rank holds one `ring_seq_size` run of positions of every batch row in the world.
- **Padding and masks.** On the way it pads each sequence to a multiple of the shard size and builds or pads the key mask, so that padded positions are never valid.
- **Unsharding.** It covers the reverse move, and the cut back to the original sequence length in the forward passes of `RingAttention` and `RingTransformer`.
- **Construction checks.** It covers the checks that `RingAttention` and `RingTransformer` make when built.
- **Masking.** It covers the causal and key-padding masking of the plain, single-process attention.

The code is pure, so the model is pure: datatypes, functions and lemmas.

- A tensor is `Tensor(rows, width)`. The rows are the batch and `width` is the sequence axis. The element type stands for whatever one position holds: a token id, or a whole feature vector.
- A distributed run is simulated as a `world`: one `Input(x, mask)` per rank, in rank order. The rank whose result is computed is an explicit argument.
- The collectives are functions over that sequence of tensors:
  - all-gather along the batch, which returns the gathered tensor and each rank's batch size;
  - all-gather along the sequence;
  - `split` by a chunk size or by a list of sizes;
  - taking a rank's piece.
- Every step that can raise returns a `Result`. The error names the cause: a zero shard size, a collective over disagreeing shapes, a chunk count that is not the world size, and so on.

Modules, one file each:
- `common.dfy`: `Option`, `Result`, `Min`.
- `tensors.dfy`: tensors, truncation, sums and offsets, flattening.
- `padding.dfy`: `pad_to_multiple`.
- `collectives.dfy`: gathers, splits and pieces.
- `sharding.dfy`: `sharded_batch_to_sharded_seq`, `sharded_seq_to_sharded_batch` and their round trip.
- `config.dfy`: construction-time validation and the choice of attention path.
- `causal.dfy`: the masking in `default_attention`.
- `forward.dfy`: the sharding wiring of both forward passes.

## Model

| member | source | states |
|---|---|---|
| Tensors.Truncate | ring_attention_pytorch/ring_attention.py:237 | `out[:, :n]` keeps every batch row and the first `min(n, width)` positions of each |
| Padding.RemIsMod | ring_attention_pytorch/ring_attention.py:79 | the remainder the model computes is the remainder of `seq_len % length` on naturals |
| Padding.PadToMultiple | ring_attention_pytorch/ring_attention.py:73-85 | returns the pad length `(length - seq_len % length)` or 0 when the remainder is 0, and then the input unchanged; the result keeps the batch, is that much longer, keeps every original position and fills the rest with the pad value |
| Padding.PadLength | ring_attention_pytorch/ring_attention.py:79-84 | the pad length `pad_to_multiple` computes is less than `length`; that it is the least that reaches a multiple is `Padding.PadLengthFits` with `Padding.PadLengthIsLeast` |
| Padding.PadLengthFits | ring_attention_pytorch/ring_attention.py:79-84 | the padded length is a multiple of `length`, and nothing is padded exactly when the length already is one |
| Padding.PadLengthIsLeast | ring_attention_pytorch/ring_attention.py:79-84 | no shorter padding reaches a multiple of `length` |
| Padding.TruncatePadded | ring_attention_pytorch/ring_attention.py:73-85 | cutting a padded tensor back to its original length gives back the original |
| Collectives.GatherBatch | ring_attention_pytorch/ring_attention.py:108-110 | gathering along the batch succeeds exactly when all ranks share a sequence length; the result has that length, the batch sizes are the ranks' own, and they add up to the gathered batch |
| Collectives.GatheredRow | ring_attention_pytorch/ring_attention.py:108-110 | row `i` of rank `q` sits at the offset of `q`'s batch plus `i` in the gathered tensor |
| Collectives.PieceOfGather | ring_attention_pytorch/ring_attention.py:108-110 | cutting the gathered batch by the returned sizes gives every rank back exactly its own tensor |
| Collectives.GatherSeq | ring_attention_pytorch/ring_attention.py:133-135 | gathering along the sequence succeeds exactly when all ranks hold the same batch extent; the width is the sum of the ranks' widths |
| Collectives.GatheredPosition | ring_attention_pytorch/ring_attention.py:133-135 | position `j` of rank `q` sits at `q`'s width offset plus `j` in every gathered row |
| Collectives.NumChunks | ring_attention_pytorch/ring_attention.py:117 | the number of chunks `split(s, dim=-1)` makes is at least one; `Collectives.NumChunksBounds` fixes it as `max(ceil(n/s), 1)` |
| Collectives.NumChunksBounds | ring_attention_pytorch/ring_attention.py:117 | `split(s)` makes just enough chunks to cover the sequence, and a single chunk of an empty one |
| Collectives.ChunkBounds | ring_attention_pytorch/ring_attention.py:117 | every chunk starts inside the sequence, and every chunk but the last ends inside it |
| Collectives.Chunk | ring_attention_pytorch/ring_attention.py:117 | chunk `c` keeps the batch and holds positions `c*s` up to `(c+1)*s`, the last one what remains |
| Collectives.ChunkAt | ring_attention_pytorch/ring_attention.py:117 | position `j` of chunk `c` is position `c*s + j` of the sequence |
| Collectives.GatheredChunkAt | ring_attention_pytorch/ring_attention.py:108-121 | in chunk `c` of a batch gather, row `i` of rank `q` at position `j` is rank `q`'s row `i` at position `c*s + j` |
| Collectives.SplitSeq | ring_attention_pytorch/ring_attention.py:117 | the split is the full list of chunks, all with the same batch extent |
| Collectives.GatherSplitSeq | ring_attention_pytorch/ring_attention.py:133-135 | gathering the chunks of a split along the sequence gives back the split tensor |
| Collectives.ChunkWidthsSum | ring_attention_pytorch/ring_attention.py:117 | the chunk widths add up to the sequence length |
| Collectives.JoinChunks | ring_attention_pytorch/ring_attention.py:117 | the chunks of each row, joined in order, are that row |
| Collectives.Piece | ring_attention_pytorch/ring_attention.py:137-139 | rank `q`'s piece holds exactly the `sizes[q]` rows starting at the sum of the earlier sizes |
| Collectives.SplitBatch | ring_attention_pytorch/ring_attention.py:137 | splitting by sizes succeeds exactly when they add up to the batch, and gives one piece per size |
| Collectives.SplitByRank | ring_attention_pytorch/ring_attention.py:121 | a rank gets the piece at its own index, and fails when there is none |
| Sharding.AllValid | ring_attention_pytorch/ring_attention.py:101-102 | the default mask has the batch's shape and marks every position valid |
| Sharding.PadMask | ring_attention_pytorch/ring_attention.py:100-104 | a rank holds a mask after padding exactly when it passed one or padding happened; the padded mask is true exactly at original positions the passed mask (if any) allows, and it is the passed mask when nothing was padded |
| Sharding.GatherMasks | ring_attention_pytorch/ring_attention.py:112-113 | the mask gather succeeds exactly when the ranks agree on holding a mask and on its width, and then it is the batch gather of the masks |
| Sharding.GatherPadded | ring_attention_pytorch/ring_attention.py:98-113 | padding and gathering succeed exactly when the ranks agree on the padded length and on holding a mask, and the data part is the batch gather of the padded batches |
| Sharding.GatheredShape | ring_attention_pytorch/ring_attention.py:98-113 | the gathered batch has the padded length, one size per rank equal to that rank's batch, and a mask of the same shape exactly when the ranks hold one |
| Sharding.PaddedWidthsAgree | ring_attention_pytorch/ring_attention.py:96-98 | the padded batches share a shape exactly when the ranks' sequences pad to the same length |
| Sharding.PaddedMasksAgree | ring_attention_pytorch/ring_attention.py:100-113 | the padded masks gather exactly when the ranks agree on holding one, and the gathered mask covers the gathered batch |
| Sharding.ShardBatchToSeq | ring_attention_pytorch/ring_attention.py:87-127 | sharding succeeds exactly when the shard size is positive, the ranks agree on padded length and on holding a mask, and the padded sequence makes one chunk per rank; the sizes are the ranks' batch sizes and the shard spans the whole gathered batch |
| Sharding.MaskShard | ring_attention_pytorch/ring_attention.py:123-125 | a rank gets a mask shard exactly when there is a gathered mask |
| Sharding.ChunkCountCondition | ring_attention_pytorch/ring_attention.py:117-119 | the padded sequence splits into `w` chunks exactly when it is `w` shards long, or is empty and `w` is 1 |
| Sharding.ShardWidth | ring_attention_pytorch/ring_attention.py:117-121 | every shard is exactly `seq_size` positions wide, or empty when the sequence is |
| Sharding.PaddedChunkWidth | ring_attention_pytorch/ring_attention.py:117 | a chunk of a padded sequence is a full shard wide, or empty when the sequence is |
| Sharding.ChunkSpan | ring_attention_pytorch/ring_attention.py:117 | a chunk of a sequence whose length is a multiple of `s` is `s` wide, or empty when the sequence is |
| Sharding.MaskChunkShape | ring_attention_pytorch/ring_attention.py:117-125 | a mask and a batch of the same shape split into chunks of the same shape |
| Sharding.ShardMaskShape | ring_attention_pytorch/ring_attention.py:123-125 | a rank gets a mask shard exactly when the ranks hold a mask after padding, and it has the shape of the data shard |
| Sharding.ShardIsChunk | ring_attention_pytorch/ring_attention.py:108-121 | the shard is this rank's chunk of the gathered padded batch, and the sizes are the gather's |
| Sharding.ShardMaskIsChunk | ring_attention_pytorch/ring_attention.py:112-125 | the mask shard is this rank's chunk of the gathered mask |
| Sharding.ShardContents | ring_attention_pytorch/ring_attention.py:87-127 | row `i` of rank `q` sits at `q`'s batch offset in the shard, and shard position `j` holds position `rank*seq_size + j` of that row, or the pad value beyond its end |
| Sharding.ShardAtPadded | ring_attention_pytorch/ring_attention.py:108-121 | shard position `j` of rank `q`'s row `i` is the padded row's position `rank*seq_size + j` |
| Sharding.PaddedBatchAt | ring_attention_pytorch/ring_attention.py:98 | a padded batch holds the original value inside the sequence and the pad value after it |
| Sharding.PaddedAt | ring_attention_pytorch/ring_attention.py:84-85 | `pad_to_multiple` keeps every original value and pads with the pad value |
| Sharding.ShardMaskContents | ring_attention_pytorch/ring_attention.py:100-125 | the mask shard bit for rank `q`'s row `i` at shard position `j` is true exactly when `rank*seq_size + j` is an original position that `q`'s own mask (if any) allows |
| Sharding.MasksPresent | ring_attention_pytorch/ring_attention.py:112-113 | when a rank gets a mask shard, every rank held a mask after padding |
| Sharding.MaskShardIsChunk | ring_attention_pytorch/ring_attention.py:112-125 | the mask shard is this rank's chunk of the batch gather of the padded masks |
| Sharding.GatheredMask | ring_attention_pytorch/ring_attention.py:112-113 | the gathered mask is the batch gather of the ranks' padded masks, with the ranks' batch sizes |
| Sharding.MaskValueAt | ring_attention_pytorch/ring_attention.py:100-104 | the mask rank `q` contributes to the gather is its own padded mask |
| Sharding.MaskShardAt | ring_attention_pytorch/ring_attention.py:100-125 | a chunk of the gathered padded masks holds, for rank `q`'s row `i`, the padded mask bit at `rank*seq_size + j` |
| Sharding.ShardBatchToSeqAsWritten | ring_attention_pytorch/ring_attention.py:100-125 | the sharding with the mask bound to pairs at lines 104 and 113 |
| Sharding.AsWrittenRejectsMasks | ring_attention_pytorch/ring_attention.py:100-125 | as written, sharding succeeds exactly when the intended sharding does and no rank holds a mask, so never when anything had to be padded |
| Sharding.AsWrittenFailsOnPadding | ring_attention_pytorch/ring_attention.py:98-113 | two ranks each with three positions and no mask, sharded by two: the intended sharding succeeds, the one as written fails |
| Sharding.TwoPaddedRanks | ring_attention_pytorch/ring_attention.py:98-104 | two ranks with three positions and no mask form a valid world that shards by two, and padding gives them a mask |
| Sharding.ShardSeqToBatch | ring_attention_pytorch/ring_attention.py:129-141 | unsharding succeeds exactly when the shards share a batch, the sizes add up to it and the rank has a size; the result has `sizes[rank]` rows and is as wide as all shards together |
| Sharding.UnshardContents | ring_attention_pytorch/ring_attention.py:133-139 | row `i` of the result at shard `q`'s offset plus `j` is shard `q`'s position `j` of row `rank`'s offset plus `i` |
| Sharding.UnshardIsPiece | ring_attention_pytorch/ring_attention.py:133-139 | unsharding is the rank's piece of the sequence gather of the shards |
| Sharding.UnshardPiece | ring_attention_pytorch/ring_attention.py:137-139 | with matching sizes, unsharding gives exactly the rank's piece of the gathered sequence |
| Sharding.ShardsReassemble | ring_attention_pytorch/ring_attention.py:117-135 | gathering every rank's shard along the sequence rebuilds the gathered padded batch |
| Sharding.GatheredChunkCount | ring_attention_pytorch/ring_attention.py:117-119 | when sharding succeeds, the gathered batch makes one chunk per rank |
| Sharding.ShardsAreChunks | ring_attention_pytorch/ring_attention.py:117-121 | the ranks' shards, in rank order, are the split of the gathered padded batch |
| Sharding.ShardedIsChunk | ring_attention_pytorch/ring_attention.py:117-121 | rank `q`'s shard is chunk `q` of the gathered padded batch |
| Sharding.UnshardShards | ring_attention_pytorch/ring_attention.py:129-141 | unsharding the ranks' shards with the returned sizes gives every rank its own padded batch |
| Sharding.ReshardRoundTrip | ring_attention_pytorch/ring_attention.py:317-330 | the auto-sharded part of a forward pass: shard, leave every shard as it is, unshard and cut to `n` positions; any rank's failure to shard is the pass's failure (its properties are `Sharding.ReshardPadded` and `Sharding.RoundTrip`) |
| Sharding.ReshardPadded | ring_attention_pytorch/ring_attention.py:87-141 | shard, unshard and cut to `n` succeed exactly when sharding does, and give the padded batch cut to `n` |
| Sharding.RoundTrip | ring_attention_pytorch/ring_attention.py:314-330 | shard, unshard and cut to the sequence length give every rank exactly its own batch back, and fail only when sharding does |
| Config.Default | ring_attention_pytorch/ring_attention.py:32-33 | the given value, or the default when none is given |
| Config.FloorMod | ring_attention_pytorch/ring_attention.py:35-36 | the host `%` takes the sign of the divisor and stays below it in size |
| Config.FloorModZero | ring_attention_pytorch/ring_attention.py:35-36 | `divisible_by` holds exactly when the divisor divides the number, whatever the signs |
| Config.DivisibleBy | ring_attention_pytorch/ring_attention.py:35-36 | `divisible_by` with Python's `%`; its meaning, divisibility whatever the signs, is `Config.FloorModZero` |
| Config.NewRingAttention | ring_attention_pytorch/ring_attention.py:168-174 | the checks at lines 168-174 pass exactly when both bucket sizes are nonzero and divide the shard size, and auto-sharding is not forced on without ring attention; each failure is reported in the order the checks run; auto-sharding defaults to the ring setting |
| Config.NewRingAttentionValid | ring_attention_pytorch/ring_attention.py:168-174 | every accepted layer is valid, and every valid layer is accepted from its own settings |
| Config.DefaultAutoShardAccepted | ring_attention_pytorch/ring_attention.py:172-174 | leaving auto-sharding unset never trips its check, and it then follows the ring setting |
| Config.NewRingTransformerLayers | ring_attention_pytorch/ring_attention.py:278-302 | the checks the transformer and its layers make at lines 280-282 and 168-174 refuse it exactly when its own auto-sharding check fails or, with at least one layer, the bucket sizes do not divide the shard size; an accepted one has `depth` valid layers that never auto-shard |
| Config.NewRingTransformer | ring_attention_pytorch/ring_attention.py:278-302 | `RingTransformer.__init__`: its own auto-sharding check, then `depth` layers built with auto-sharding off (its property is `Config.NewRingTransformerLayers`) |
| Config.Path | ring_attention_pytorch/ring_attention.py:203-228 | plain attention exactly when no process group runs, otherwise the ring kernel, which passes keys and values around the ring exactly when ring attention is on |
| Config.ShardingImpliesRing | ring_attention_pytorch/ring_attention.py:203-204 | a valid layer shards only when it runs the ring kernel with ring passing, and a single process never shards |
| Config.ShardsInput | ring_attention_pytorch/ring_attention.py:204 | `auto_shard_seq & is_distributed()`, also at line 315; a valid layer shards only on the ring path with ring passing (`Config.ShardingImpliesRing`) |
| Forward.TransformerForward | ring_attention_pytorch/ring_attention.py:309-332 | `RingTransformer.forward` with the corrected sharding `Sharding.ShardBatchToSeq`: auto-shard when distributed, run the layers as the identity, unshard and cut to the sequence length taken on entry (its property is `Forward.TransformerForwardTransparent`) |
| Forward.TransformerForwardAsWritten | ring_attention_pytorch/ring_attention.py:309-332 | `RingTransformer.forward` with the sharding as written, `Sharding.ShardBatchToSeqAsWritten` |
| Forward.TransformerForwardAsWrittenMasks | ring_attention_pytorch/ring_attention.py:314-330 | as written, an auto-sharding transformer returns exactly when sharding succeeds and no rank holds a mask after padding, so never when the sequence needs padding; when it returns, every rank gets its own batch back |
| Forward.AttentionForwardAsWritten | ring_attention_pytorch/ring_attention.py:203-237 | `RingAttention.forward` as written: the outcome of each step of the layer's own auto-sharding of a `[batch, sequence, dim]` input, in source order (its properties are `Forward.AttentionForwardAsWrittenCuts` and `Forward.AsWrittenRefusesSlices`) |
| Forward.AttentionForward | ring_attention_pytorch/ring_attention.py:203-237 | `RingAttention.forward` as evidently meant: the sequence axis is sharded and the cut is at the sequence length (its property is `Forward.AttentionForwardTransparent`) |
| Causal.Triu | ring_attention_pytorch/ring_attention.py:55 | an `i` by `j` boolean matrix, true on and above diagonal `d` (which entries that makes true for the causal mask is `Causal.CausalHidesLater`) |
| Causal.CausalMask | ring_attention_pytorch/ring_attention.py:54-55 | the causal mask has one row per query and one column per key (its entries are stated by `Causal.CausalHidesLater`) |
| Causal.CausalHidesLater | ring_attention_pytorch/ring_attention.py:53-56 | key `b` is hidden from query `a` exactly when it comes after the query's own position `a + (j - i)` |
| Causal.SquareCausal | ring_attention_pytorch/ring_attention.py:53-56 | with as many queries as keys, query `a` sees exactly the keys up to `a` |
| Causal.CausalVisibleMonotone | ring_attention_pytorch/ring_attention.py:53-56 | each query sees a prefix of the keys, and later queries see at least as much |
| Causal.CausalSeesOwnPosition | ring_attention_pytorch/ring_attention.py:53-56 | with at least as many keys as queries, every query sees its own position and the first key |
| Causal.Visible | ring_attention_pytorch/ring_attention.py:53-59 | under `causal` only the causal mask decides, and otherwise the key mask, when given, does |
| Causal.CausalCoversRightPadding | ring_attention_pytorch/ring_attention.py:53-59 | for a square, right-padded sequence, a real query never sees a padding key under the causal mask alone, so skipping the key mask there loses nothing |
| Forward.TransformerForwardTransparent | ring_attention_pytorch/ring_attention.py:314-330 | with the sharding as evidently meant (`Sharding.ShardBatchToSeq`), the transformer's auto-sharding is invisible: every rank gets its own batch back, and the pass fails only when it shards and sharding fails |
| Forward.OneWholeChunk | ring_attention_pytorch/ring_attention.py:94-119 | a feature axis of `d` pads to nothing and splits into one chunk of `s` exactly when `d` is `s` or zero |
| Forward.AttentionForwardAsWrittenCuts | ring_attention_pytorch/ring_attention.py:203-237 | as written, a sharding layer returns only for one rank without a mask whose model dimension is the shard size (or zero), and then returns its input cut to `dim` positions |
| Forward.AttentionForwardSplitsFeatures | ring_attention_pytorch/ring_attention.py:206-237 | two ranks with a four-position sequence of dimension four, sharded by two: as written the layer refuses the feature slices it made |
| Forward.AsWrittenRefusesSlices | ring_attention_pytorch/ring_attention.py:203-237 | as written, when the feature split does give one chunk per rank and there is more than one rank, the layer refuses the slices it made |
| Forward.AttentionForwardDropsPositions | ring_attention_pytorch/ring_attention.py:206-237 | one rank with eight positions of dimension four, sharded by four: as written the layer returns four positions |
| Forward.AttentionForwardKeepsPositions | ring_attention_pytorch/ring_attention.py:203-237 | the same two ranks, sharded along the sequence: each gets its own batch back |
| Forward.AttentionForwardTransparent | ring_attention_pytorch/ring_attention.py:203-237 | sharded along the sequence and cut at the sequence length, a layer's auto-sharding is invisible, as the transformer's is |

## Left out

- The numerical parts are not modelled: projections, RMSNorm, feed-forward, embedding, logits, softmax and the similarity/aggregation einsums. They are floating point and do not move data between ranks. Every layer is the identity on each position, so what remains is the data movement around the layers.
- `ring_flash_attn` and the ring passing of keys and values are not part of this model. Only the choice of path is modelled (`Config.Path`).
- The transport and distributed state are not modelled. The process group, `is_distributed()`, `get_world_size()` and `get_rank()` become the `distributed` flag, the length of `world` and the `rank` argument. `assert is_distributed()` at line 92 holds by construction.
- The internals of `AllGather` and `split_by_rank` are not part of this model. They are modelled by their effect on the simulated world: `AllGather` gathers along an axis and returns the sizes; `split_by_rank` takes the rank's piece.
- The source unpacks `split_by_rank` two ways: as a pair at line 121, and at lines 236 and 329 through `sharded_seq_to_sharded_batch`, which returns it untouched at line 139; and as a single value at line 125. The model takes the rank's piece in every case.
- Ranks that disagree on holding a mask, or call a collective the others skip, would wait forever. The model reports `ShapeMismatch` instead.
- `pad_to_multiple` and sharding are modelled on the last axis of a two-axis tensor. In `RingAttention` the input has three axes, so the layer's own auto-sharding is modelled by the outcome of each step (`Forward.AttentionForwardAsWritten`) rather than by running the helpers on a three-axis tensor.
- Forward.AttentionForwardAsWritten: with a shard size of 1 and exactly `dim` ranks, RMSNorm's scale would broadcast each width-1 feature slice to `dim` features and the projections would accept it. The model reports the slice as refused there too, because the values that follow are floating point.
- Config.FloorMod: states the range of Python's `%` (the sign of the divisor) and, with `Config.FloorModZero`, its zero test, but not the full quotient identity. Only the zero test is used.
- Config.NewRingAttention: only the checks at lines 168-174 are modelled. `RingAttention.__init__` also raises before them when `dim_head` is 0 (`dim_head ** -0.5` at line 164 divides by zero), and after them when `dim`, `dim_head` or `heads` is negative (the `RMSNorm` and `nn.Linear` constructors at lines 181-187). None of these is a parameter of the model.
- Config.NewRingTransformerLayers: the same construction failures of the layers (line 290) are not modelled, nor those of the embedding and logits at lines 284 and 304-307.
- Forward.AttentionForwardDropsPositions: the `distributed` flag is taken independently of the number of ranks in `world`, so this one-rank world with `distributed` set stands for a process group of one, which `is_distributed()` (not part of this model) may or may not report as distributed.
- Sharding.ValidInput: a passed mask must have exactly the batch's shape. `sharded_batch_to_sharded_seq` checks nothing of the kind; a mask of another shape is a caller error whose outcome is not modelled.
- A negative `ring_seq_size` is not modelled: shard sizes are naturals. Negative bucket sizes are kept (`int`), and `divisible_by` is modelled with Python's sign convention.
- Sharding.ShardBatchToSeqAsWritten: when several failures apply at once, which one is reported first is not modelled.

## Findings

| source | as written | input that shows it | evidently intended | confidence | as-written member | corrected member |
|---|---|---|---|---|---|---|
| ring_attention_pytorch/ring_attention.py:104 | `mask` is rebound to the pair `(mask, pad_length)` that `pad_to_multiple` returns. Line 113 rebinds it to the pair the batch gather returns. So whenever a mask exists after padding, the gather at line 113 or the split at line 124 is handed a pair. | two ranks, each with batch `[[7, 7, 7]]` (sequence 3) and no mask, `seq_size` 2: padding builds a mask and sharding fails | pad and gather the mask tensor, so sharding succeeds and padded positions are masked out | not executed | Sharding.ShardBatchToSeqAsWritten, Sharding.AsWrittenFailsOnPadding, Forward.TransformerForwardAsWrittenMasks | Sharding.ShardBatchToSeq, Sharding.ShardMaskContents |
| ring_attention_pytorch/ring_attention.py:206 | `RingAttention.forward` passes its `[batch, sequence, dim]` input to helpers that pad and split the last axis, which here is the features. It then cuts the sequence at `x.shape[-1]`, which is `dim`. | two ranks, each one sequence of 4 positions of dimension 4, `ring_seq_size` 2, no mask: the features are split into slices of width 2 that the projections refuse. Also one rank with 8 positions, dimension 4, `ring_seq_size` 4: only 4 positions come back | shard the sequence axis and cut at the sequence length, as `RingTransformer` does | not executed | Forward.AttentionForwardAsWritten, Forward.AttentionForwardSplitsFeatures | Forward.AttentionForward, Forward.AttentionForwardKeepsPositions |
