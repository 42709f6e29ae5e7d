/** The collectives the resharding is built on, simulated over a world whose
    ranks are the entries of a sequence: all-gather along the batch axis and
    along the sequence axis, `split` by a chunk size or by a list of sizes, and
    taking the piece that belongs to a rank. */
module Collectives {
  import opened Common
  import opened Tensors

  /** The ways a resharding step fails. */
  datatype ShardError =
    | ZeroShardSize         // `seq_len % 0` raises ZeroDivisionError
    | ShapeMismatch         // a collective over tensors whose other axes disagree
    | ChunkCountMismatch    // the assertion that there is one sequence chunk per rank
    | BatchSizeMismatch     // split sizes that do not add up to the batch
    | RankOutOfRange        // no piece for this rank
    | MaskNotTensor         // a mask bound to a pair, which the collectives cannot take
    | FeatureWidthMismatch  // a layer's projections handed vectors whose width is not the model dimension

  /** Each rank's batch rows, in rank order. */
  function Batches<T>(ts: seq<Tensor<T>>): (bs: seq<seq<seq<T>>>)
    ensures |bs| == |ts| && forall q | 0 <= q < |ts| :: bs[q] == ts[q].rows
  {
    seq(|ts|, q requires 0 <= q < |ts| => ts[q].rows)
  }

  predicate SameWidth<T>(ts: seq<Tensor<T>>)
  {
    forall q | 0 <= q < |ts| :: ts[q].width == ts[0].width
  }

  predicate SameBatch<T>(ts: seq<Tensor<T>>)
  {
    forall q | 0 <= q < |ts| :: |ts[q].rows| == |ts[0].rows|
  }

  lemma {:induction false} FlattenRowsWidth<T>(xss: seq<seq<seq<T>>>, w: nat)
    requires forall q, i | 0 <= q < |xss| && 0 <= i < |xss[q]| :: |xss[q][i]| == w
    ensures forall i | 0 <= i < |Flatten(xss)| :: |Flatten(xss)[i]| == w
  {
    if xss != [] {
      FlattenRowsWidth(xss[..|xss| - 1], w);
    }
  }

  /** `AllGather(dim = 0)`: the ranks' tensors stacked along the batch axis in
      rank order, with the batch extent each rank contributed (`sizes`). It
      fails unless every rank has the same sequence length. */
  function GatherBatch<T>(ts: seq<Tensor<T>>): (r: Result<(Tensor<T>, seq<nat>), ShardError>)
    requires |ts| > 0 && AllWellFormed(ts)
    ensures r.Ok? <==> SameWidth(ts)
    ensures r.Ok? ==> WellFormed(r.value.0) && r.value.0.width == ts[0].width
    ensures r.Ok? ==> |r.value.1| == |ts| && Sum(r.value.1) == |r.value.0.rows|
    ensures r.Ok? ==> forall q | 0 <= q < |ts| :: r.value.1[q] == |ts[q].rows|
  {
    if SameWidth(ts) then
      FlattenRowsWidth(Batches(ts), ts[0].width);
      Ok((Tensor(Flatten(Batches(ts)), ts[0].width), Lengths(Batches(ts))))
    else
      Err(ShapeMismatch)
  }

  /** The gathered batch is the ranks' batches in rank order: row `i` of rank
      `q` is gathered row `i` past the extents of the ranks before `q`. */
  lemma GatheredRow<T>(ts: seq<Tensor<T>>, q: nat, i: nat)
    requires |ts| > 0 && AllWellFormed(ts) && GatherBatch(ts).Ok?
    requires q < |ts| && i < |ts[q].rows|
    ensures Offset(GatherBatch(ts).value.1, q) + i < |GatherBatch(ts).value.0.rows|
    ensures GatherBatch(ts).value.0.rows[Offset(GatherBatch(ts).value.1, q) + i] == ts[q].rows[i]
  {
    FlattenPiece(Batches(ts), q);
  }

  /** Splitting the gathered batch by the gathered extents gives every rank
      back its own batch. */
  lemma PieceOfGather<T>(ts: seq<Tensor<T>>, q: nat)
    requires |ts| > 0 && AllWellFormed(ts) && GatherBatch(ts).Ok? && q < |ts|
    ensures Piece(GatherBatch(ts).value.0, GatherBatch(ts).value.1, q) == ts[q]
  {
    var g := GatherBatch(ts).value;
    var piece := Piece(g.0, g.1, q);
    forall i | 0 <= i < |ts[q].rows| ensures piece.rows[i] == ts[q].rows[i] {
      GatheredRow(ts, q, i);
    }
  }

  /** Row `i` of every rank, in rank order. */
  function RowAcross<T>(ts: seq<Tensor<T>>, i: nat): (row: seq<seq<T>>)
    requires forall q | 0 <= q < |ts| :: i < |ts[q].rows|
    ensures |row| == |ts| && forall q | 0 <= q < |ts| :: row[q] == ts[q].rows[i]
  {
    seq(|ts|, q requires 0 <= q < |ts| => ts[q].rows[i])
  }

  function Widths<T>(ts: seq<Tensor<T>>): (ws: seq<nat>)
    ensures |ws| == |ts| && forall q | 0 <= q < |ts| :: ws[q] == ts[q].width
  {
    seq(|ts|, q requires 0 <= q < |ts| => ts[q].width)
  }

  /** `AllGather` along the sequence axis: row by row, the ranks' positions
      joined in rank order. It fails unless every rank has the same batch. */
  function GatherSeq<T>(ts: seq<Tensor<T>>): (r: Result<Tensor<T>, ShardError>)
    requires |ts| > 0 && AllWellFormed(ts)
    ensures r.Ok? <==> SameBatch(ts)
    ensures r.Ok? ==> WellFormed(r.value) && |r.value.rows| == |ts[0].rows|
    ensures r.Ok? ==> r.value.width == Sum(Widths(ts))
  {
    if SameBatch(ts) then
      var b := |ts[0].rows|;
      var joined := Tensor(seq(b, i requires 0 <= i < b => Flatten(RowAcross(ts, i))), Sum(Widths(ts)));
      assert forall i | 0 <= i < b :: Lengths(RowAcross(ts, i)) == Widths(ts);
      Ok(joined)
    else
      Err(ShapeMismatch)
  }

  /** Joining along the sequence axis puts position `j` of rank `q`'s row
      past the widths of the ranks before `q`. */
  lemma GatheredPosition<T>(ts: seq<Tensor<T>>, i: nat, q: nat, j: nat)
    requires |ts| > 0 && AllWellFormed(ts) && GatherSeq(ts).Ok?
    requires q < |ts| && i < |ts[q].rows| && j < ts[q].width
    ensures i < |GatherSeq(ts).value.rows| && Offset(Widths(ts), q) + j < GatherSeq(ts).value.width
    ensures GatherSeq(ts).value.rows[i][Offset(Widths(ts), q) + j] == ts[q].rows[i][j]
  {
    var across := RowAcross(ts, i);
    assert Lengths(across) == Widths(ts);
    FlattenPiece(across, q);
  }

  /** How many chunks `split(s, dim = -1)` makes of `n` positions: one per
      started run of `s`, and a single empty chunk when `n` is zero. */
  function NumChunks(n: nat, s: nat): (k: nat)
    requires s > 0
    ensures k >= 1
  {
    var c := (n + s - 1) / s;
    if c >= 1 then c else 1
  }

  /** The chunks cover the row, and all but the last start inside it. */
  lemma NumChunksBounds(n: nat, s: nat)
    requires s > 0
    ensures n <= NumChunks(n, s) * s
    ensures (NumChunks(n, s) - 1) * s < n || (n == 0 && NumChunks(n, s) == 1)
  {
    var c := (n + s - 1) / s;
    assert n + s - 1 == c * s + (n + s - 1) % s;
    if c >= 1 {
      assert (c - 1) * s == c * s - s;
    }
  }

  /** Where chunk `c` of a split by `s` starts. */
  function ChunkStart(c: nat, s: nat): nat
  {
    c * s
  }

  /** A chunk that is not the last starts and ends inside the row; the last
      one starts inside it. */
  lemma ChunkBounds(n: nat, s: nat, c: nat)
    requires s > 0 && c < NumChunks(n, s)
    ensures c * s <= n
    ensures c + 1 < NumChunks(n, s) ==> (c + 1) * s <= n
  {
    var k := NumChunks(n, s);
    NumChunksBounds(n, s);
    MulMono(c, k - 1, s);
    if c + 1 < k {
      MulMono(c + 1, k - 1, s);
    }
  }

  lemma MulMono(a: nat, b: nat, s: nat)
    requires a <= b
    ensures a * s <= b * s
  {
    assert b * s == a * s + (b - a) * s;
  }

  /** Chunk `c` of `split(s, dim = -1)`: `s` positions from `c * s`, fewer in
      the last chunk when `s` does not divide the width. */
  function Chunk<T>(t: Tensor<T>, s: nat, c: nat): (r: Tensor<T>)
    requires WellFormed(t) && s > 0 && c < NumChunks(t.width, s)
    ensures WellFormed(r) && |r.rows| == |t.rows|
    ensures ChunkStart(c, s) + r.width <= t.width
    ensures r.width == if c + 1 < NumChunks(t.width, s) then s else t.width - ChunkStart(c, s)
    ensures forall i | 0 <= i < |t.rows| :: r.rows[i] == t.rows[i][ChunkStart(c, s) .. ChunkStart(c, s) + r.width]
  {
    ChunkBounds(t.width, s, c);
    Columns(t, c * s, Min((c + 1) * s, t.width))
  }

  /** Position `j` of a chunk is position `ChunkStart(c, s) + j` of its row. */
  lemma ChunkAt<T>(t: Tensor<T>, s: nat, c: nat, i: nat, j: nat)
    requires WellFormed(t) && s > 0 && c < NumChunks(t.width, s)
    requires i < |t.rows| && j < Chunk(t, s, c).width
    ensures ChunkStart(c, s) + j < t.width
    ensures Chunk(t, s, c).rows[i][j] == t.rows[i][ChunkStart(c, s) + j]
  {
  }

  /** Position `j` of chunk `c` of the batch gathered from `ts` (`x`, with the
      gathered extents `sizes`), in the row that rank `q`'s row `i` became, is
      position `ChunkStart(c, s) + j` of that row. */
  lemma GatheredChunkAt<T>(ts: seq<Tensor<T>>, x: Tensor<T>, sizes: seq<nat>, s: nat, c: nat, q: nat, i: nat, j: nat)
    requires |ts| > 0 && AllWellFormed(ts) && GatherBatch(ts).Ok? && s > 0
    requires c < NumChunks(GatherBatch(ts).value.0.width, s)
    requires x == Chunk(GatherBatch(ts).value.0, s, c) && sizes == GatherBatch(ts).value.1
    requires q < |ts| && i < |ts[q].rows| && j < x.width
    ensures Offset(sizes, q) + i < |x.rows|
    ensures ChunkStart(c, s) + j < ts[q].width
    ensures x.rows[Offset(sizes, q) + i][j] == ts[q].rows[i][ChunkStart(c, s) + j]
  {
    var g := GatherBatch(ts).value;
    GatheredRow(ts, q, i);
    ChunkAt(g.0, s, c, Offset(g.1, q) + i, j);
  }

  /** `t.split(s, dim = -1)`. */
  function SplitSeq<T>(t: Tensor<T>, s: nat): (cs: seq<Tensor<T>>)
    requires WellFormed(t) && s > 0
    ensures |cs| == NumChunks(t.width, s)
    ensures AllWellFormed(cs) && SameBatch(cs)
    ensures forall c | 0 <= c < |cs| :: cs[c] == Chunk(t, s, c)
  {
    seq(NumChunks(t.width, s), c requires 0 <= c < NumChunks(t.width, s) => Chunk(t, s, c))
  }

  /** The end of chunk `c`: `(c + 1) * s`, or the width for the last chunk. */
  lemma ChunkEnd<T>(t: Tensor<T>, s: nat, c: nat)
    requires WellFormed(t) && s > 0 && c < NumChunks(t.width, s)
    ensures c * s + Chunk(t, s, c).width == Min((c + 1) * s, t.width)
  {
    var k := NumChunks(t.width, s);
    NumChunksBounds(t.width, s);
    assert (c + 1) * s == c * s + s;
    if c + 1 == k {
      MulMono(c + 1, k, s);
    }
  }

  /** The first `k` chunks together are `min(k * s, width)` positions wide. */
  lemma {:induction false} ChunkWidthsPrefix<T>(t: Tensor<T>, s: nat, k: nat)
    requires WellFormed(t) && s > 0 && k <= NumChunks(t.width, s)
    ensures Sum(Widths(SplitSeq(t, s))[..k]) == Min(k * s, t.width)
  {
    if k > 0 {
      var ws := Widths(SplitSeq(t, s));
      ChunkWidthsPrefix(t, s, k - 1);
      ChunkBounds(t.width, s, k - 1);
      ChunkEnd(t, s, k - 1);
      assert ws[..k][..k - 1] == ws[..k - 1];
    }
  }

  /** The first `k` chunks of row `i`, joined, are its first `min(k * s, width)`
      positions. */
  lemma {:induction false} JoinChunksPrefix<T>(t: Tensor<T>, s: nat, i: nat, k: nat)
    requires WellFormed(t) && s > 0 && i < |t.rows| && k <= NumChunks(t.width, s)
    ensures Flatten(RowAcross(SplitSeq(t, s), i)[..k]) == t.rows[i][..Min(k * s, t.width)]
  {
    if k > 0 {
      var across := RowAcross(SplitSeq(t, s), i);
      JoinChunksPrefix(t, s, i, k - 1);
      ChunkRow(t, s, i, k - 1);
      FlattenSnoc(across, k);
      JoinRowStep(t.rows[i], Flatten(across[..k - 1]), across[k - 1], (k - 1) * s, Min(k * s, t.width));
    }
  }

  /** Row `i` of chunk `c` is positions `c * s` up to `min((c + 1) * s, width)`
      of row `i`. */
  lemma ChunkRow<T>(t: Tensor<T>, s: nat, i: nat, c: nat)
    requires WellFormed(t) && s > 0 && i < |t.rows| && c < NumChunks(t.width, s)
    ensures c * s <= Min((c + 1) * s, t.width)
    ensures RowAcross(SplitSeq(t, s), i)[c] == t.rows[i][c * s .. Min((c + 1) * s, t.width)]
  {
    ChunkBounds(t.width, s, c);
    ChunkEnd(t, s, c);
  }

  lemma JoinRowStep<T>(row: seq<T>, done: seq<T>, next: seq<T>, lo: nat, hi: nat)
    requires lo <= hi <= |row|
    requires done == row[..lo] && next == row[lo..hi]
    ensures done + next == row[..hi]
  {
  }

  /** Flattening one more list appends it. */
  lemma FlattenSnoc<T>(xss: seq<seq<T>>, k: nat)
    requires 0 < k <= |xss|
    ensures Flatten(xss[..k]) == Flatten(xss[..k - 1]) + xss[k - 1]
  {
    assert xss[..k][..k - 1] == xss[..k - 1];
  }

  /** Joining the chunks of `split(s, dim = -1)` back along the sequence axis
      gives the tensor that was split. */
  lemma GatherSplitSeq<T>(t: Tensor<T>, s: nat)
    requires WellFormed(t) && s > 0
    ensures GatherSeq(SplitSeq(t, s)) == Ok(t)
  {
    var cs := SplitSeq(t, s);
    ChunkWidthsSum(t, s);
    forall i | 0 <= i < |t.rows| ensures Flatten(RowAcross(cs, i)) == t.rows[i] {
      JoinChunks(t, s, i);
    }
    var g := GatherSeq(cs).value;
    assert g.rows == t.rows;
  }

  /** The chunks' widths add up to the width. */
  lemma ChunkWidthsSum<T>(t: Tensor<T>, s: nat)
    requires WellFormed(t) && s > 0
    ensures Sum(Widths(SplitSeq(t, s))) == t.width
  {
    var k := NumChunks(t.width, s);
    ChunkWidthsPrefix(t, s, k);
    NumChunksBounds(t.width, s);
    assert Widths(SplitSeq(t, s))[..k] == Widths(SplitSeq(t, s));
  }

  /** Row `i` of the chunks, joined, is row `i`. */
  lemma JoinChunks<T>(t: Tensor<T>, s: nat, i: nat)
    requires WellFormed(t) && s > 0 && i < |t.rows|
    ensures Flatten(RowAcross(SplitSeq(t, s), i)) == t.rows[i]
  {
    var k := NumChunks(t.width, s);
    JoinChunksPrefix(t, s, i, k);
    NumChunksBounds(t.width, s);
    assert RowAcross(SplitSeq(t, s), i)[..k] == RowAcross(SplitSeq(t, s), i);
  }

  /** Piece `q` of `t.split(sizes, dim = 0)`. */
  function Piece<T>(t: Tensor<T>, sizes: seq<nat>, q: nat): (r: Tensor<T>)
    requires WellFormed(t) && Sum(sizes) == |t.rows| && q < |sizes|
    ensures Offset(sizes, q) + sizes[q] <= |t.rows|
    ensures WellFormed(r) && r.width == t.width && |r.rows| == sizes[q]
    ensures forall i | 0 <= i < sizes[q] :: r.rows[i] == t.rows[Offset(sizes, q) + i]
  {
    OffsetStep(sizes, q);
    Tensor(t.rows[Offset(sizes, q) .. Offset(sizes, q + 1)], t.width)
  }

  /** `t.split(sizes, dim = 0)`: consecutive runs of rows with the given
      extents. It fails unless the extents add up to the batch. */
  function SplitBatch<T>(t: Tensor<T>, sizes: seq<nat>): (r: Result<seq<Tensor<T>>, ShardError>)
    requires WellFormed(t)
    ensures r.Ok? <==> Sum(sizes) == |t.rows|
    ensures r.Ok? ==> |r.value| == |sizes| && AllWellFormed(r.value)
    ensures r.Ok? ==> forall q | 0 <= q < |sizes| :: r.value[q] == Piece(t, sizes, q)
  {
    if Sum(sizes) == |t.rows| then
      Ok(seq(|sizes|, q requires 0 <= q < |sizes| => Piece(t, sizes, q)))
    else
      Err(BatchSizeMismatch)
  }

  /** `split_by_rank`: the piece that belongs to `rank`. */
  function SplitByRank<T>(pieces: seq<T>, rank: nat): (r: Result<T, ShardError>)
    ensures r.Ok? <==> rank < |pieces|
    ensures r.Ok? ==> r.value == pieces[rank]
  {
    if rank < |pieces| then Ok(pieces[rank]) else Err(RankOutOfRange)
  }
}
