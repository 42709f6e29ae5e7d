/** `sharded_batch_to_sharded_seq` and `sharded_seq_to_sharded_batch`: moving
    a batch-sharded input (each rank holds whole sequences for its own batch
    rows) to a sequence-sharded one (each rank holds one run of positions of
    every batch row in the world) and back. The world is simulated: every rank's
    input is an entry of `world`, and `rank` names the rank whose result is
    computed. */
module Sharding {
  import opened Common
  import opened Tensors
  import opened Padding
  import opened Collectives

  /** What one rank passes in: its batch (token ids, `[b, n]`) and its optional
      mask (`true` marks a valid position). */
  datatype Input<T> = Input(x: Tensor<T>, mask: Option<Tensor<bool>>)

  /** A mask, when given, has the batch's shape. */
  predicate ValidInput<T>(inp: Input<T>)
  {
    && WellFormed(inp.x)
    && (inp.mask.Some? ==>
          WellFormed(inp.mask.value) && inp.mask.value.width == inp.x.width && |inp.mask.value.rows| == |inp.x.rows|)
  }

  predicate ValidWorld<T>(world: seq<Input<T>>)
  {
    forall q | 0 <= q < |world| :: ValidInput(world[q])
  }

  /** What one rank gets back: its sequence shard, the matching mask shard and
      the batch extent each rank contributed. */
  datatype Shard<T> = Shard(x: Tensor<T>, mask: Option<Tensor<bool>>, sizes: seq<nat>)

  /** `torch.ones_like(x).bool()`: a mask that marks every position valid. */
  function AllValid<T>(x: Tensor<T>): (m: Tensor<bool>)
    requires WellFormed(x)
    ensures WellFormed(m) && m.width == x.width && |m.rows| == |x.rows|
    ensures forall i, k | 0 <= i < |m.rows| && 0 <= k < m.width :: m.rows[i][k]
  {
    Tensor(seq(|x.rows|, _ => seq(x.width, _ => true)), x.width)
  }

  /** Whether a rank holds a mask once padded: it passed one, or padding made
      one necessary. */
  predicate HasPaddedMask<T>(inp: Input<T>, seqSize: nat)
    requires seqSize > 0
  {
    inp.mask.Some? || PadLength(inp.x.width, seqSize) > 0
  }

  /** One rank's local padding of its mask, beside the padding of its batch
      with `PadToMultiple`. When anything was padded, the mask (or an
      all-valid mask if none was passed) is padded with `false`, so a padded
      position is never valid; an original position keeps its mask bit. When
      nothing was padded the mask is passed on as it is, absent or not.
      (The source binds the mask to the pair that `pad_to_multiple` returns;
      the padded tensor is what is evidently meant and what is modelled.) */
  function PadMask<T>(inp: Input<T>, seqSize: nat): (r: Option<Tensor<bool>>)
    requires ValidInput(inp) && seqSize > 0
    ensures r.Some? <==> HasPaddedMask(inp, seqSize)
    ensures PadLength(inp.x.width, seqSize) == 0 ==> r == inp.mask
    ensures r.Some? ==>
              WellFormed(r.value) && r.value.width == PaddedWidth(inp.x.width, seqSize) && |r.value.rows| == |inp.x.rows|
    ensures r.Some? ==>
              forall i, k | 0 <= i < |inp.x.rows| && 0 <= k < r.value.width ::
                r.value.rows[i][k] == (k < inp.x.width && (inp.mask.None? || inp.mask.value.rows[i][k]))
  {
    if PadLength(inp.x.width, seqSize) > 0 then
      var mask := if inp.mask.Some? then inp.mask.value else AllValid(inp.x);
      var padded := PadToMultiple(mask, seqSize, false).0;
      assert forall i, k | 0 <= i < |mask.rows| && 0 <= k < inp.x.width :: padded.rows[i][k] == padded.rows[i][..inp.x.width][k];
      Some(padded)
    else
      inp.mask
  }

  /** Every rank's padded batch, in rank order. */
  function PaddedBatches<T>(world: seq<Input<T>>, seqSize: nat, padValue: T): (xs: seq<Tensor<T>>)
    requires ValidWorld(world) && seqSize > 0
    ensures |xs| == |world| && AllWellFormed(xs)
    ensures forall q | 0 <= q < |world| :: xs[q] == PadToMultiple(world[q].x, seqSize, padValue).0
  {
    seq(|world|, q requires 0 <= q < |world| => PadToMultiple(world[q].x, seqSize, padValue).0)
  }

  /** Every rank's padded mask, in rank order. */
  function PaddedMasks<T>(world: seq<Input<T>>, seqSize: nat): (ms: seq<Option<Tensor<bool>>>)
    requires ValidWorld(world) && seqSize > 0
    ensures |ms| == |world|
    ensures forall q | 0 <= q < |world| :: ms[q] == PadMask(world[q], seqSize)
  {
    seq(|world|, q requires 0 <= q < |world| => PadMask(world[q], seqSize))
  }

  /** The masks of ranks that all hold one. */
  function MaskValues(ms: seq<Option<Tensor<bool>>>): (vs: seq<Tensor<bool>>)
    requires forall q | 0 <= q < |ms| :: ms[q].Some?
    ensures |vs| == |ms| && forall q | 0 <= q < |ms| :: vs[q] == ms[q].value
  {
    seq(|ms|, q requires 0 <= q < |ms| => ms[q].value)
  }

  /** The all-gather of the masks (line 113; the source binds the mask to the
      pair the gather returns, the gathered mask is what is modelled). A rank
      gathers a mask only if it holds one, so the collective fails unless
      every rank does or none does. */
  function GatherMasks(ms: seq<Option<Tensor<bool>>>): (r: Result<Option<Tensor<bool>>, ShardError>)
    requires |ms| > 0 && forall q | 0 <= q < |ms| :: ms[q].Some? ==> WellFormed(ms[q].value)
    ensures r.Ok? <==>
              && (forall q | 0 <= q < |ms| :: ms[q].Some? == ms[0].Some?)
              && (ms[0].Some? ==> forall q | 0 <= q < |ms| :: ms[q].value.width == ms[0].value.width)
    ensures r.Ok? ==> (r.value.Some? <==> ms[0].Some?)
    ensures r.Ok? && r.value.Some? ==> WellFormed(r.value.value) && r.value.value.width == ms[0].value.width
    ensures r.Ok? && r.value.Some? ==>
              (forall q | 0 <= q < |ms| :: ms[q].Some?) && r.value.value == GatherBatch(MaskValues(ms)).value.0
  {
    if forall q | 0 <= q < |ms| :: ms[q].None? then
      Ok(None)
    else if forall q | 0 <= q < |ms| :: ms[q].Some? then
      var values := MaskValues(ms);
      match GatherBatch(values)
      case Ok((m, _)) => Ok(Some(m))
      case Err(e) => Err(e)
    else
      Err(ShapeMismatch)
  }

  /** Lines 108-113: the padded batches and masks of every rank, gathered
      along the batch axis, with the batch extent of each rank. It fails
      unless the ranks agree on the padded sequence length and on holding a
      mask. */
  function GatherPadded<T>(world: seq<Input<T>>, seqSize: nat, padValue: T)
    : (r: Result<(Tensor<T>, seq<nat>, Option<Tensor<bool>>), ShardError>)
    requires |world| > 0 && ValidWorld(world) && seqSize > 0
    ensures r.Ok? <==>
              && (forall q | 0 <= q < |world| ::
                    PaddedWidth(world[q].x.width, seqSize) == PaddedWidth(world[0].x.width, seqSize))
              && (forall q | 0 <= q < |world| :: HasPaddedMask(world[q], seqSize) == HasPaddedMask(world[0], seqSize))
    ensures r.Ok? ==>
              && GatherBatch(PaddedBatches(world, seqSize, padValue)).Ok?
              && (r.value.0, r.value.1) == GatherBatch(PaddedBatches(world, seqSize, padValue)).value
  {
    var xs := PaddedBatches(world, seqSize, padValue);
    PaddedWidthsAgree(world, seqSize, padValue);
    match GatherBatch(xs)
    case Err(e) => Err(e)
    case Ok((x, sizes)) =>
      PaddedMasksAgree(world, seqSize, padValue);
      match GatherMasks(PaddedMasks(world, seqSize))
      case Err(e) => Err(e)
      case Ok(mask) => Ok((x, sizes, mask))
  }

  /** The gathered padded batch has the padded sequence length, one batch
      extent per rank adding up to its batch, and a mask of its shape exactly
      when the ranks hold masks. */
  lemma GatheredShape<T>(world: seq<Input<T>>, seqSize: nat, padValue: T)
    requires |world| > 0 && ValidWorld(world) && seqSize > 0 && GatherPadded(world, seqSize, padValue).Ok?
    ensures var g := GatherPadded(world, seqSize, padValue).value;
            && WellFormed(g.0) && g.0.width == PaddedWidth(world[0].x.width, seqSize)
            && |g.1| == |world| && Sum(g.1) == |g.0.rows|
            && (forall q | 0 <= q < |world| :: g.1[q] == |world[q].x.rows|)
            && (g.2.Some? <==> HasPaddedMask(world[0], seqSize))
            && (g.2.Some? ==> WellFormed(g.2.value) && g.2.value.width == g.0.width && |g.2.value.rows| == |g.0.rows|)
  {
    PaddedWidthsAgree(world, seqSize, padValue);
    PaddedMasksAgree(world, seqSize, padValue);
  }

  /** The padded batches can be gathered exactly when the ranks agree on the
      padded sequence length. */
  lemma PaddedWidthsAgree<T>(world: seq<Input<T>>, seqSize: nat, padValue: T)
    requires |world| > 0 && ValidWorld(world) && seqSize > 0
    ensures forall q | 0 <= q < |world| ::
              PaddedBatches(world, seqSize, padValue)[q].width == PaddedWidth(world[q].x.width, seqSize)
    ensures SameWidth(PaddedBatches(world, seqSize, padValue)) <==>
              forall q | 0 <= q < |world| ::
                PaddedWidth(world[q].x.width, seqSize) == PaddedWidth(world[0].x.width, seqSize)
  {
  }

  /** Once the batches gather, the masks gather exactly when the ranks agree
      on holding one; the gathered mask then has the gathered batch's shape. */
  lemma PaddedMasksAgree<T>(world: seq<Input<T>>, seqSize: nat, padValue: T)
    requires |world| > 0 && ValidWorld(world) && seqSize > 0
    requires SameWidth(PaddedBatches(world, seqSize, padValue))
    ensures var g := GatherMasks(PaddedMasks(world, seqSize));
            && (g.Ok? <==> forall q | 0 <= q < |world| :: HasPaddedMask(world[q], seqSize) == HasPaddedMask(world[0], seqSize))
            && (g.Ok? ==> (g.value.Some? <==> HasPaddedMask(world[0], seqSize)))
            && (g.Ok? && g.value.Some? ==>
                  && WellFormed(g.value.value)
                  && g.value.value.width == PaddedWidth(world[0].x.width, seqSize)
                  && |g.value.value.rows| == Sum(Lengths(Batches(PaddedBatches(world, seqSize, padValue)))))
  {
    var xs := PaddedBatches(world, seqSize, padValue);
    var ms := PaddedMasks(world, seqSize);
    PaddedWidthsAgree(world, seqSize, padValue);
    if forall q | 0 <= q < |ms| :: ms[q].Some? {
      assert Lengths(Batches(MaskValues(ms))) == Lengths(Batches(xs));
    }
  }

  /** The condition under which `sharded_batch_to_sharded_seq` returns: a
      positive shard size, ranks that agree on the padded sequence length and
      on holding a mask, and exactly one chunk per rank (see
      ChunkCountCondition for what that asks of the sequence length). */
  predicate ShardingSucceeds<T>(world: seq<Input<T>>, seqSize: nat)
    requires |world| > 0
  {
    && seqSize > 0
    && (forall q | 0 <= q < |world| ::
          PaddedWidth(world[q].x.width, seqSize) == PaddedWidth(world[0].x.width, seqSize))
    && (forall q | 0 <= q < |world| :: HasPaddedMask(world[q], seqSize) == HasPaddedMask(world[0], seqSize))
    && NumChunks(PaddedWidth(world[0].x.width, seqSize), seqSize) == |world|
  }

  /** `sharded_batch_to_sharded_seq(x, mask, seq_size)` as run by `rank`: pad
      locally, all-gather batches and masks along the batch axis, split the
      sequence into `seq_size` chunks, check there is one per rank and keep
      this rank's. */
  function ShardBatchToSeq<T>(world: seq<Input<T>>, rank: nat, seqSize: nat, padValue: T): (r: Result<Shard<T>, ShardError>)
    requires rank < |world| && ValidWorld(world)
    ensures r.Ok? <==> ShardingSucceeds(world, seqSize)
    ensures r.Ok? ==> |r.value.sizes| == |world| && forall q | 0 <= q < |world| :: r.value.sizes[q] == |world[q].x.rows|
    ensures r.Ok? ==> WellFormed(r.value.x) && |r.value.x.rows| == Sum(r.value.sizes)
  {
    if seqSize == 0 then
      Err(ZeroShardSize)
    else
      match GatherPadded(world, seqSize, padValue)
      case Err(e) => Err(e)
      case Ok((x, sizes, mask)) =>
        GatheredShape(world, seqSize, padValue);
        // `SplitSeq(x, seqSize)` has `NumChunks(x.width, seqSize)` chunks, and
        // its entry `rank` is `Chunk(x, seqSize, rank)`.
        if NumChunks(x.width, seqSize) != |world| then
          Err(ChunkCountMismatch)
        else
          // The source unpacks `split_by_rank`'s result for the batch (line
          // 121) but not for the mask (line 125); both are taken to be the
          // rank's chunk.
          Ok(Shard(Chunk(x, seqSize, rank), MaskShard(mask, seqSize, rank), sizes))
  }

  /** Chunk `rank` of the gathered mask, when there is one. */
  function MaskShard(mask: Option<Tensor<bool>>, seqSize: nat, rank: nat): (r: Option<Tensor<bool>>)
    requires seqSize > 0 && (mask.Some? ==> WellFormed(mask.value) && rank < NumChunks(mask.value.width, seqSize))
    ensures r.Some? <==> mask.Some?
  {
    if mask.Some? then Some(Chunk(mask.value, seqSize, rank)) else None
  }

  /** `sharded_batch_to_sharded_seq` as written: line 104 binds `mask` to the
      pair that `pad_to_multiple` returns and line 113 to the pair that the
      gather returns, so whenever the ranks hold a mask (one was passed, or
      padding made one) the gather at line 113 or the split at line 124 is
      handed a pair and raises. Otherwise it is `ShardBatchToSeq`; which
      failure is reported first when several apply is not modelled. */
  function ShardBatchToSeqAsWritten<T>(world: seq<Input<T>>, rank: nat, seqSize: nat, padValue: T): (r: Result<Shard<T>, ShardError>)
    requires rank < |world| && ValidWorld(world)
  {
    match ShardBatchToSeq(world, rank, seqSize, padValue)
    case Err(e) => Err(e)
    case Ok(sh) => if sh.mask.Some? then Err(MaskNotTensor) else Ok(sh)
  }

  /** As written, sharding only succeeds when no rank holds a mask, and so
      never when the sequence needs padding: the very case the padding mask
      exists for. */
  lemma AsWrittenRejectsMasks<T>(world: seq<Input<T>>, rank: nat, seqSize: nat, padValue: T)
    requires rank < |world| && ValidWorld(world)
    ensures ShardBatchToSeqAsWritten(world, rank, seqSize, padValue).Ok? <==>
              ShardingSucceeds(world, seqSize) && !HasPaddedMask(world[0], seqSize)
    ensures ShardBatchToSeqAsWritten(world, rank, seqSize, padValue).Ok? ==>
              PadLength(world[rank].x.width, seqSize) == 0
  {
    var r := ShardBatchToSeq(world, rank, seqSize, padValue);
    if r.Ok? {
      ShardMaskShape(world, rank, seqSize, padValue, r.value);
    }
  }

  /** Two ranks, each holding a three-position sequence without a mask,
      sharded by two: the intended sharding succeeds, the one as written
      fails. */
  lemma AsWrittenFailsOnPadding()
    ensures var world := [Input(Tensor([[7, 7, 7]], 3), None), Input(Tensor([[7, 7, 7]], 3), None)];
            && ShardBatchToSeq(world, 0, 2, 0).Ok?
            && ShardBatchToSeqAsWritten(world, 0, 2, 0) == Err(MaskNotTensor)
  {
    var x := Tensor([[7, 7, 7]], 3);
    TwoPaddedRanks(x);
    AsWrittenRejectsMasks([Input(x, None), Input(x, None)], 0, 2, 0);
  }

  /** Two ranks holding the same three-position batch and no mask form a
      valid world that shards by two, and padding gives them a mask. */
  lemma TwoPaddedRanks<T>(x: Tensor<T>)
    requires WellFormed(x) && x.width == 3
    ensures ValidWorld([Input(x, None), Input(x, None)])
    ensures ShardingSucceeds([Input(x, None), Input(x, None)], 2)
    ensures HasPaddedMask(Input(x, None), 2)
  {
    assert PadLength(3, 2) == 1 && PaddedWidth(3, 2) == 4 by {
      assert Rem(3, 2) == 1 by {
        assert Rem(1, 2) == 1;
      }
    }
    assert NumChunks(4, 2) == 2;
  }

  /** Sharding succeeds on one rank exactly when the padded sequence is one
      `seqSize` chunk per rank, or is empty in a world of one rank (splitting
      an empty axis gives one empty chunk). */
  lemma ChunkCountCondition(n: nat, s: nat, w: nat)
    requires s > 0 && w >= 1
    ensures NumChunks(PaddedWidth(n, s), s) == w <==> PaddedWidth(n, s) == w * s || (n == 0 && w == 1)
  {
    var m := PaddedWidth(n, s);
    PadLengthFits(n, s);
    if NumChunks(m, s) == w {
      ShardSpan(m, s, w);
    }
    if m == w * s {
      MulAtLeast(w, s);
      assert m + s - 1 == w * s + (s - 1);
      DivModUnique(m + s - 1, s, w, s - 1);
    }
  }

  /** Every rank's shard holds `seqSize` positions of every gathered row, or
      none when the sequence is empty. */
  lemma ShardWidth<T>(world: seq<Input<T>>, rank: nat, seqSize: nat, padValue: T, sh: Shard<T>)
    requires rank < |world| && ValidWorld(world) && ShardBatchToSeq(world, rank, seqSize, padValue) == Ok(sh)
    ensures sh.x.width == if PaddedWidth(world[0].x.width, seqSize) == 0 then 0 else seqSize
  {
    ShardIsChunk(world, rank, seqSize, padValue, sh);
    GatheredShape(world, seqSize, padValue);
    PaddedChunkWidth(GatherBatch(PaddedBatches(world, seqSize, padValue)).value.0, world[0].x.width, seqSize, rank);
  }

  /** Every chunk of a row padded to a multiple of `s` holds `s` positions, or
      none when the row is empty. */
  lemma PaddedChunkWidth<T>(x: Tensor<T>, n: nat, s: nat, c: nat)
    requires WellFormed(x) && s > 0 && x.width == PaddedWidth(n, s) && c < NumChunks(x.width, s)
    ensures Chunk(x, s, c).width == if PaddedWidth(n, s) == 0 then 0 else s
  {
    PadLengthFits(n, s);
    ChunkSpan(x, s, c);
  }

  /** A rank receives a mask shard exactly when the ranks hold masks once
      padded, and it has the shape of the rank's shard. */
  lemma ShardMaskShape<T>(world: seq<Input<T>>, rank: nat, seqSize: nat, padValue: T, sh: Shard<T>)
    requires rank < |world| && ValidWorld(world) && ShardBatchToSeq(world, rank, seqSize, padValue) == Ok(sh)
    ensures sh.mask.Some? <==> HasPaddedMask(world[0], seqSize)
    ensures sh.mask.Some? ==>
              WellFormed(sh.mask.value) && sh.mask.value.width == sh.x.width && |sh.mask.value.rows| == |sh.x.rows|
  {
    ShardIsChunk(world, rank, seqSize, padValue, sh);
    ShardMaskIsChunk(world, rank, seqSize, padValue, sh);
    GatheredShape(world, seqSize, padValue);
    var g := GatherPadded(world, seqSize, padValue).value;
    if g.2.Some? {
      MaskChunkShape(g.0, g.2.value, seqSize, rank);
    }
  }

  /** The same chunk of a tensor and of a mask of its shape have the same
      shape. */
  lemma MaskChunkShape<T>(x: Tensor<T>, mask: Tensor<bool>, s: nat, c: nat)
    requires WellFormed(x) && WellFormed(mask) && mask.width == x.width && |mask.rows| == |x.rows|
    requires s > 0 && c < NumChunks(x.width, s)
    ensures Chunk(mask, s, c).width == Chunk(x, s, c).width && |Chunk(mask, s, c).rows| == |Chunk(x, s, c).rows|
  {
  }

  /** What rank `rank` receives is chunk `rank` of the gathered padded batch,
      with the gathered extents. */
  lemma ShardIsChunk<T>(world: seq<Input<T>>, rank: nat, seqSize: nat, padValue: T, sh: Shard<T>)
    requires rank < |world| && ValidWorld(world) && ShardBatchToSeq(world, rank, seqSize, padValue) == Ok(sh)
    ensures seqSize > 0
    ensures var g := GatherBatch(PaddedBatches(world, seqSize, padValue));
            && g.Ok?
            && rank < NumChunks(g.value.0.width, seqSize)
            && sh.x == Chunk(g.value.0, seqSize, rank)
            && sh.sizes == g.value.1
  {
  }

  /** What rank `rank` receives is chunk `rank` of the gathered padded batch
      and of the gathered mask. */
  lemma ShardMaskIsChunk<T>(world: seq<Input<T>>, rank: nat, seqSize: nat, padValue: T, sh: Shard<T>)
    requires rank < |world| && ValidWorld(world) && ShardBatchToSeq(world, rank, seqSize, padValue) == Ok(sh)
    ensures seqSize > 0 && GatherPadded(world, seqSize, padValue).Ok?
    ensures var m := GatherPadded(world, seqSize, padValue).value.2;
            && (sh.mask.Some? <==> m.Some?)
            && (m.Some? ==> WellFormed(m.value) && rank < NumChunks(m.value.width, seqSize)
                            && sh.mask.value == Chunk(m.value, seqSize, rank))
  {
  }

  /** Rank `rank` receives positions `ChunkStart(rank, seqSize)` (that is,
      `rank * seqSize`) up to
      `(rank + 1) * seqSize` of every gathered row: the token a rank passed
      at that position, or the pad value past the end of its sequence. */
  lemma ShardContents<T>(world: seq<Input<T>>, rank: nat, seqSize: nat, padValue: T, sh: Shard<T>, q: nat, i: nat, j: nat)
    requires rank < |world| && ValidWorld(world) && ShardBatchToSeq(world, rank, seqSize, padValue) == Ok(sh)
    requires q < |world| && i < |world[q].x.rows| && j < sh.x.width
    ensures Offset(sh.sizes, q) + i < |sh.x.rows|
    ensures sh.x.rows[Offset(sh.sizes, q) + i][j] ==
              if ChunkStart(rank, seqSize) + j < world[q].x.width then world[q].x.rows[i][ChunkStart(rank, seqSize) + j]
              else padValue
  {
    var xs := PaddedBatches(world, seqSize, padValue);
    ShardIsChunk(world, rank, seqSize, padValue, sh);
    ShardAtPadded(world, xs, rank, seqSize, padValue, sh, q, i, j);
    PaddedBatchAt(world, seqSize, padValue, q, i, ChunkStart(rank, seqSize) + j);
  }

  /** Chunk `rank` of the gathered padded batches `xs`, at the row that rank
      `q`'s row `i` became, holds positions `ChunkStart(rank, seqSize)`
      onwards of rank `q`'s padded row. */
  lemma ShardAtPadded<T>(world: seq<Input<T>>, xs: seq<Tensor<T>>, rank: nat, seqSize: nat, padValue: T, sh: Shard<T>, q: nat, i: nat, j: nat)
    requires ValidWorld(world) && seqSize > 0 && xs == PaddedBatches(world, seqSize, padValue)
    requires |xs| > 0 && AllWellFormed(xs)
    requires var g := GatherBatch(xs);
             && g.Ok?
             && rank < NumChunks(g.value.0.width, seqSize)
             && sh.x == Chunk(g.value.0, seqSize, rank)
             && sh.sizes == g.value.1
    requires q < |xs| && i < |xs[q].rows| && j < sh.x.width
    ensures Offset(sh.sizes, q) + i < |sh.x.rows|
    ensures ChunkStart(rank, seqSize) + j < xs[q].width
    ensures sh.x.rows[Offset(sh.sizes, q) + i][j] == xs[q].rows[i][ChunkStart(rank, seqSize) + j]
  {
    GatheredChunkAt(xs, sh.x, sh.sizes, seqSize, rank, q, i, j);
  }

  /** Rank `q`'s padded batch holds its token where it had one and the pad
      value past the end of its sequence. */
  lemma PaddedBatchAt<T>(world: seq<Input<T>>, seqSize: nat, padValue: T, q: nat, i: nat, k: nat)
    requires ValidWorld(world) && seqSize > 0 && q < |world| && i < |world[q].x.rows|
    requires k < PaddedBatches(world, seqSize, padValue)[q].width
    ensures PaddedBatches(world, seqSize, padValue)[q].rows[i][k]
              == if k < world[q].x.width then world[q].x.rows[i][k] else padValue
  {
    PaddedAt(world[q], seqSize, padValue, i, k);
  }

  /** A padded batch holds the rank's token where it had one and the pad value
      past the end of its sequence. */
  lemma PaddedAt<T>(inp: Input<T>, seqSize: nat, padValue: T, i: nat, k: nat)
    requires ValidInput(inp) && seqSize > 0 && i < |inp.x.rows| && k < PaddedWidth(inp.x.width, seqSize)
    ensures PadToMultiple(inp.x, seqSize, padValue).0.rows[i][k] == if k < inp.x.width then inp.x.rows[i][k] else padValue
  {
    var row := PadToMultiple(inp.x, seqSize, padValue).0.rows[i];
    assert k < inp.x.width ==> row[k] == row[..inp.x.width][k];
  }

  /** The mask rank `rank` receives, at the row that rank `q`'s row `i`
      became, marks shard position `j` valid exactly when rank `q` had a
      token at that position of the sequence (it is not padding) and the mask
      rank `q` passed, if any, marks it valid. */
  lemma ShardMaskContents<T>(world: seq<Input<T>>, rank: nat, seqSize: nat, padValue: T, sh: Shard<T>, m: Tensor<bool>, q: nat, i: nat, j: nat)
    requires rank < |world| && ValidWorld(world) && ShardBatchToSeq(world, rank, seqSize, padValue) == Ok(sh)
    requires sh.mask == Some(m) && q < |world| && i < |world[q].x.rows| && j < m.width
    ensures WellFormed(m) && Offset(sh.sizes, q) + i < |m.rows|
    ensures var k := ChunkStart(rank, seqSize) + j;
            m.rows[Offset(sh.sizes, q) + i][j] ==
              (k < world[q].x.width && (world[q].mask.None? || world[q].mask.value.rows[i][k]))
  {
    var mvals := GatheredMasks(world, rank, seqSize, padValue, sh, m, q);
    MaskShardAt(world, mvals, rank, seqSize, m, sh.sizes, q, i, j);
  }

  /** The padded masks `mvals` whose gather the mask shard `m` is chunk
      `rank` of, gathered with the batch extents of the batch. */
  lemma GatheredMasks<T>(world: seq<Input<T>>, rank: nat, seqSize: nat, padValue: T, sh: Shard<T>, m: Tensor<bool>, q: nat)
    returns (mvals: seq<Tensor<bool>>)
    requires rank < |world| && ValidWorld(world) && ShardBatchToSeq(world, rank, seqSize, padValue) == Ok(sh)
    requires sh.mask == Some(m) && q < |world|
    ensures IsMaskChunk(world, mvals, rank, seqSize, m, sh.sizes, q)
  {
    MasksPresent(world, rank, seqSize, padValue, sh);
    var ms := PaddedMasks(world, seqSize);
    mvals := MaskValues(ms);
    MaskShardIsChunk(world, ms, mvals, rank, seqSize, padValue, sh);
    MaskValueAt(world, ms, mvals, seqSize, q);
  }

  /** A rank that receives a mask shard was sent padded masks by every rank. */
  lemma MasksPresent<T>(world: seq<Input<T>>, rank: nat, seqSize: nat, padValue: T, sh: Shard<T>)
    requires rank < |world| && ValidWorld(world) && ShardBatchToSeq(world, rank, seqSize, padValue) == Ok(sh)
    requires sh.mask.Some?
    ensures seqSize > 0 && forall p | 0 <= p < |world| :: PaddedMasks(world, seqSize)[p].Some?
  {
    ShardMaskIsChunk(world, rank, seqSize, padValue, sh);
    GatheredMask(world, PaddedMasks(world, seqSize), seqSize, padValue);
  }

  /** The mask shard is chunk `rank` of the gathered padded masks `mvals`,
      gathered with the same batch extents as the batch. */
  lemma MaskShardIsChunk<T>(world: seq<Input<T>>, ms: seq<Option<Tensor<bool>>>, mvals: seq<Tensor<bool>>,
                            rank: nat, seqSize: nat, padValue: T, sh: Shard<T>)
    requires rank < |world| && ValidWorld(world) && ShardBatchToSeq(world, rank, seqSize, padValue) == Ok(sh)
    requires sh.mask.Some? && seqSize > 0 && ms == PaddedMasks(world, seqSize)
    requires forall p | 0 <= p < |world| :: ms[p].Some?
    requires mvals == MaskValues(ms)
    ensures |mvals| == |world| && AllWellFormed(mvals)
    ensures var g := GatherBatch(mvals);
            && g.Ok?
            && rank < NumChunks(g.value.0.width, seqSize)
            && sh.mask.value == Chunk(g.value.0, seqSize, rank)
            && sh.sizes == g.value.1
  {
    ShardMaskIsChunk(world, rank, seqSize, padValue, sh);
    GatheredMask(world, ms, seqSize, padValue);
    ShardIsChunk(world, rank, seqSize, padValue, sh);
  }

  /** A gathered mask is the gather of every rank's padded mask. */
  lemma GatheredMask<T>(world: seq<Input<T>>, ms: seq<Option<Tensor<bool>>>, seqSize: nat, padValue: T)
    requires |world| > 0 && ValidWorld(world) && seqSize > 0 && ms == PaddedMasks(world, seqSize)
    requires GatherPadded(world, seqSize, padValue).Ok? && GatherPadded(world, seqSize, padValue).value.2.Some?
    ensures forall q | 0 <= q < |ms| :: ms[q].Some?
    ensures GatherBatch(MaskValues(ms)).Ok?
    ensures GatherPadded(world, seqSize, padValue).value.2.value == GatherBatch(MaskValues(ms)).value.0
    ensures forall q | 0 <= q < |world| :: GatherBatch(MaskValues(ms)).value.1[q] == |world[q].x.rows|
  {
  }

  /** Entry `q` of the padded masks is rank `q`'s padded mask. */
  lemma MaskValueAt<T>(world: seq<Input<T>>, ms: seq<Option<Tensor<bool>>>, mvals: seq<Tensor<bool>>, seqSize: nat, q: nat)
    requires ValidWorld(world) && seqSize > 0 && ms == PaddedMasks(world, seqSize)
    requires (forall p | 0 <= p < |world| :: ms[p].Some?) && mvals == MaskValues(ms)
    requires q < |world|
    ensures q < |mvals| && PadMask(world[q], seqSize) == Some(mvals[q])
  {
  }

  /** `m` is chunk `rank` of the gather of the masks `mvals`, gathered with
      the extents `sizes`, and entry `q` of `mvals` is rank `q`'s padded
      mask. */
  predicate IsMaskChunk<T>(world: seq<Input<T>>, mvals: seq<Tensor<bool>>, rank: nat, seqSize: nat, m: Tensor<bool>, sizes: seq<nat>, q: nat)
  {
    && |world| > 0 && ValidWorld(world) && seqSize > 0 && q < |world|
    && |mvals| == |world| && AllWellFormed(mvals)
    && GatherBatch(mvals).Ok?
    && rank < NumChunks(GatherBatch(mvals).value.0.width, seqSize)
    && m == Chunk(GatherBatch(mvals).value.0, seqSize, rank)
    && sizes == GatherBatch(mvals).value.1
    && PadMask(world[q], seqSize) == Some(mvals[q])
  }

  /** Chunk `rank` of the gathered padded masks `mvals`, at the row that
      rank `q`'s row `i` became, is rank `q`'s padded mask bit. */
  lemma MaskShardAt<T>(world: seq<Input<T>>, mvals: seq<Tensor<bool>>, rank: nat, seqSize: nat, m: Tensor<bool>, sizes: seq<nat>, q: nat, i: nat, j: nat)
    requires IsMaskChunk(world, mvals, rank, seqSize, m, sizes, q)
    requires i < |world[q].x.rows| && j < m.width
    ensures Offset(sizes, q) + i < |m.rows|
    ensures var k := ChunkStart(rank, seqSize) + j;
            m.rows[Offset(sizes, q) + i][j] == (k < world[q].x.width && (world[q].mask.None? || world[q].mask.value.rows[i][k]))
  {
    GatheredChunkAt(mvals, m, sizes, seqSize, rank, q, i, j);
  }

  /** `sharded_seq_to_sharded_batch(logits, sizes)` as run by `rank`:
      all-gather every rank's shard along the sequence axis, split the batch by
      `sizes` and keep this rank's piece. It fails unless the shards agree on
      the batch, the sizes add up to it and there is a size for this rank.
      (The source returns what `split_by_rank` returns and its callers unpack
      a pair from it; the piece itself is what is modelled.) */
  function ShardSeqToBatch<T>(shards: seq<Tensor<T>>, sizes: seq<nat>, rank: nat): (r: Result<Tensor<T>, ShardError>)
    requires rank < |shards| && AllWellFormed(shards)
    ensures r.Ok? <==> SameBatch(shards) && Sum(sizes) == |shards[0].rows| && rank < |sizes|
    ensures r.Ok? ==> WellFormed(r.value) && |r.value.rows| == sizes[rank] && r.value.width == Sum(Widths(shards))
  {
    match GatherSeq(shards)
    case Err(e) => Err(e)
    case Ok(logits) =>
      match SplitBatch(logits, sizes)
      case Err(e) => Err(e)
      case Ok(pieces) => SplitByRank(pieces, rank)
  }

  /** Where a shard's positions land: position `j` of rank `q`'s shard, in the
      rows of rank `rank`'s batch, ends up past the widths of the shards of
      the ranks before `q`. */
  lemma UnshardContents<T>(shards: seq<Tensor<T>>, sizes: seq<nat>, rank: nat, out: Tensor<T>, q: nat, i: nat, j: nat)
    requires rank < |shards| && AllWellFormed(shards) && ShardSeqToBatch(shards, sizes, rank) == Ok(out)
    requires q < |shards| && i < sizes[rank] && j < shards[q].width
    ensures Offset(sizes, rank) + i < |shards[q].rows|
    ensures Offset(Widths(shards), q) + j < out.width
    ensures out.rows[i][Offset(Widths(shards), q) + j] == shards[q].rows[Offset(sizes, rank) + i][j]
  {
    UnshardIsPiece(shards, sizes, rank, out);
    GatheredPosition(shards, Offset(sizes, rank) + i, q, j);
  }

  /** A successful unshard is the rank's piece of the shards gathered along
      the sequence axis. */
  lemma UnshardIsPiece<T>(shards: seq<Tensor<T>>, sizes: seq<nat>, rank: nat, out: Tensor<T>)
    requires rank < |shards| && AllWellFormed(shards) && ShardSeqToBatch(shards, sizes, rank) == Ok(out)
    ensures GatherSeq(shards).Ok? && Sum(sizes) == |GatherSeq(shards).value.rows| && rank < |sizes|
    ensures out == Piece(GatherSeq(shards).value, sizes, rank)
  {
  }

  /** Every rank's shard, in rank order: what the ranks hand to the layers. */
  function ShardedBatches<T>(world: seq<Input<T>>, seqSize: nat, padValue: T): (xs: seq<Tensor<T>>)
    requires |world| > 0 && ValidWorld(world) && ShardingSucceeds(world, seqSize)
    ensures |xs| == |world| && AllWellFormed(xs)
    ensures forall q | 0 <= q < |world| :: xs[q] == ShardBatchToSeq(world, q, seqSize, padValue).value.x
  {
    seq(|world|, q requires 0 <= q < |world| => ShardBatchToSeq(world, q, seqSize, padValue).value.x)
  }

  /** The auto-sharded part of a forward pass (the sharding before the
      layers, the unsharding after them and the cut back to `seqLen`
      positions) with the layers taken as the identity on every rank's shard.
      Any rank's failure to shard is the pass's failure. */
  function ReshardRoundTrip<T>(world: seq<Input<T>>, seqSize: nat, padValue: T, rank: nat, seqLen: nat): (r: Result<Tensor<T>, ShardError>)
    requires rank < |world| && ValidWorld(world)
  {
    match ShardBatchToSeq(world, rank, seqSize, padValue)
    case Err(e) => Err(e)
    case Ok(own) =>
      match ShardSeqToBatch(ShardedBatches(world, seqSize, padValue), own.sizes, rank)
      case Err(e) => Err(e)
      case Ok(out) => Ok(Truncate(out, seqLen))
  }

  /** The rank-ordered shards of all ranks, joined along the sequence axis,
      are the gathered padded batch. */
  lemma ShardsReassemble<T>(world: seq<Input<T>>, seqSize: nat, padValue: T)
    requires |world| > 0 && ValidWorld(world) && ShardingSucceeds(world, seqSize)
    ensures GatherBatch(PaddedBatches(world, seqSize, padValue)).Ok?
    ensures GatherSeq(ShardedBatches(world, seqSize, padValue))
              == Ok(GatherBatch(PaddedBatches(world, seqSize, padValue)).value.0)
  {
    var xs := PaddedBatches(world, seqSize, padValue);
    ShardIsChunk(world, 0, seqSize, padValue, ShardBatchToSeq(world, 0, seqSize, padValue).value);
    var g := GatherBatch(xs).value.0;
    ShardsAreChunks(world, xs, g, seqSize, padValue);
    GatherSplitSeq(g, seqSize);
  }

  /** The rank-ordered shards are the chunks of the gathered padded batch. */
  lemma ShardsAreChunks<T>(world: seq<Input<T>>, xs: seq<Tensor<T>>, g: Tensor<T>, seqSize: nat, padValue: T)
    requires |world| > 0 && ValidWorld(world) && ShardingSucceeds(world, seqSize)
    requires xs == PaddedBatches(world, seqSize, padValue) && GatherBatch(xs).Ok? && g == GatherBatch(xs).value.0
    ensures ShardedBatches(world, seqSize, padValue) == SplitSeq(g, seqSize)
  {
    var shards := ShardedBatches(world, seqSize, padValue);
    GatheredChunkCount(world, xs, g, seqSize, padValue);
    forall q | 0 <= q < |world| ensures shards[q] == SplitSeq(g, seqSize)[q] {
      ShardedIsChunk(world, xs, g, seqSize, padValue, q);
    }
  }

  /** With one chunk per rank, the gathered padded batch splits into one
      chunk per rank. */
  lemma GatheredChunkCount<T>(world: seq<Input<T>>, xs: seq<Tensor<T>>, g: Tensor<T>, seqSize: nat, padValue: T)
    requires |world| > 0 && ValidWorld(world) && ShardingSucceeds(world, seqSize)
    requires xs == PaddedBatches(world, seqSize, padValue) && GatherBatch(xs).Ok? && g == GatherBatch(xs).value.0
    ensures NumChunks(g.width, seqSize) == |world|
  {
    assert g.width == xs[0].width;
  }

  /** Rank `q`'s shard is chunk `q` of the gathered padded batch. */
  lemma ShardedIsChunk<T>(world: seq<Input<T>>, xs: seq<Tensor<T>>, g: Tensor<T>, seqSize: nat, padValue: T, q: nat)
    requires |world| > 0 && ValidWorld(world) && ShardingSucceeds(world, seqSize)
    requires xs == PaddedBatches(world, seqSize, padValue) && GatherBatch(xs).Ok? && g == GatherBatch(xs).value.0
    requires q < |world|
    ensures q < NumChunks(g.width, seqSize)
    ensures ShardedBatches(world, seqSize, padValue)[q] == Chunk(g, seqSize, q)
  {
    ShardIsChunk(world, q, seqSize, padValue, ShardBatchToSeq(world, q, seqSize, padValue).value);
  }

  /** Unsharding the shards untouched gives every rank its padded batch. */
  lemma UnshardShards<T>(world: seq<Input<T>>, seqSize: nat, padValue: T, rank: nat)
    requires rank < |world| && ValidWorld(world) && ShardingSucceeds(world, seqSize)
    ensures var sizes := ShardBatchToSeq(world, rank, seqSize, padValue).value.sizes;
            ShardSeqToBatch(ShardedBatches(world, seqSize, padValue), sizes, rank)
              == Ok(PadToMultiple(world[rank].x, seqSize, padValue).0)
  {
    var xs := PaddedBatches(world, seqSize, padValue);
    var own := ShardBatchToSeq(world, rank, seqSize, padValue).value;
    var shards := ShardedBatches(world, seqSize, padValue);
    assert GatherBatch(xs).Ok? && own.sizes == GatherBatch(xs).value.1 by {
      ShardIsChunk(world, rank, seqSize, padValue, own);
    }
    var g := GatherBatch(xs).value;
    assert GatherSeq(shards) == Ok(g.0) by {
      ShardsReassemble(world, seqSize, padValue);
    }
    UnshardPiece(shards, own.sizes, rank, g.0);
    PieceOfGather(xs, rank);
  }

  /** Once the shards gather into `t`, unsharding hands rank `rank` its piece
      of `t`. */
  lemma UnshardPiece<T>(shards: seq<Tensor<T>>, sizes: seq<nat>, rank: nat, t: Tensor<T>)
    requires rank < |shards| && AllWellFormed(shards) && GatherSeq(shards) == Ok(t)
    requires Sum(sizes) == |t.rows| && rank < |sizes|
    ensures ShardSeqToBatch(shards, sizes, rank) == Ok(Piece(t, sizes, rank))
  {
  }

  /** The pass hands every rank the first `seqLen` positions of its own
      padded batch, and fails exactly when sharding fails. */
  lemma ReshardPadded<T>(world: seq<Input<T>>, seqSize: nat, padValue: T, rank: nat, seqLen: nat)
    requires rank < |world| && ValidWorld(world)
    ensures ReshardRoundTrip(world, seqSize, padValue, rank, seqLen).Ok? <==> ShardingSucceeds(world, seqSize)
    ensures ShardingSucceeds(world, seqSize) ==>
              ReshardRoundTrip(world, seqSize, padValue, rank, seqLen)
                == Ok(Truncate(PadToMultiple(world[rank].x, seqSize, padValue).0, seqLen))
  {
    if ShardingSucceeds(world, seqSize) {
      UnshardShards(world, seqSize, padValue, rank);
    }
  }

  /** Round trip: every rank shards its batch, the shards pass through
      unchanged, and every rank unshards with the recorded sizes and cuts back
      to its own sequence length; each rank gets exactly the batch it started
      with, for any batch extents and any sequence length that shards. When
      sharding fails, so does the pass. */
  lemma RoundTrip<T>(world: seq<Input<T>>, seqSize: nat, padValue: T, rank: nat)
    requires rank < |world| && ValidWorld(world)
    ensures var r := ReshardRoundTrip(world, seqSize, padValue, rank, world[rank].x.width);
            && (r.Ok? <==> ShardingSucceeds(world, seqSize))
            && (r.Ok? ==> r.value == world[rank].x)
  {
    ReshardPadded(world, seqSize, padValue, rank, world[rank].x.width);
    if ShardingSucceeds(world, seqSize) {
      TruncatePadded(world[rank].x, seqSize, padValue);
    }
  }

  /** With one chunk per rank, a padded row is `w` chunks of `s` positions,
      or the single empty chunk of an empty row. */
  lemma ShardSpan(n: nat, s: nat, w: nat)
    requires s > 0 && NumChunks(n, s) == w && n % s == 0
    ensures n == 0 ==> w == 1
    ensures n > 0 ==> n == w * s && n - (w - 1) * s == s
  {
    if n > 0 {
      var m := n / s;
      assert n + s - 1 == m * s + (s - 1);
      DivModUnique(n + s - 1, s, m, s - 1);
      assert (m - 1) * s == m * s - s;
    }
  }

  /** Every chunk of a padded row holds `s` positions, or none when the row
      is empty. */
  lemma ChunkSpan<T>(x: Tensor<T>, s: nat, c: nat)
    requires WellFormed(x) && s > 0 && x.width % s == 0 && c < NumChunks(x.width, s)
    ensures Chunk(x, s, c).width == if x.width == 0 then 0 else s
  {
    ShardSpan(x.width, s, NumChunks(x.width, s));
  }
}
