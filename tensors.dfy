/** Two-dimensional tensors: a batch of rows, each row a run of sequence
    positions. Whatever a position holds (a token id, a mask bit, a feature
    vector) is the element type. */
module Tensors {
  import opened Common

  /** `rows` is the batch axis; `width` is the length of the last (sequence)
      axis. The width is kept apart from the rows so that a tensor whose batch
      is empty still has a sequence length, as a tensor shape does. */
  datatype Tensor<T> = Tensor(rows: seq<seq<T>>, width: nat)

  /** Every row has exactly `width` positions. */
  predicate WellFormed<T>(t: Tensor<T>)
  {
    forall i | 0 <= i < |t.rows| :: |t.rows[i]| == t.width
  }

  predicate AllWellFormed<T>(ts: seq<Tensor<T>>)
  {
    forall q | 0 <= q < |ts| :: WellFormed(ts[q])
  }

  /** Positions `lo` up to `hi` of every row: `t[:, lo:hi]`. */
  function Columns<T>(t: Tensor<T>, lo: nat, hi: nat): (r: Tensor<T>)
    requires WellFormed(t) && lo <= hi <= t.width
    ensures WellFormed(r) && |r.rows| == |t.rows| && r.width == hi - lo
    ensures forall i | 0 <= i < |t.rows| :: r.rows[i] == t.rows[i][lo..hi]
  {
    Tensor(seq(|t.rows|, i requires 0 <= i < |t.rows| => t.rows[i][lo..hi]), hi - lo)
  }

  /** `t[:, :n]`: a slice end past the width is clamped, as Python slicing does. */
  function Truncate<T>(t: Tensor<T>, n: nat): (r: Tensor<T>)
    requires WellFormed(t)
    ensures WellFormed(r) && |r.rows| == |t.rows| && r.width == Min(n, t.width)
    ensures forall i | 0 <= i < |t.rows| :: r.rows[i] == t.rows[i][..Min(n, t.width)]
  {
    Columns(t, 0, Min(n, t.width))
  }

  /** Sum of a list of extents, accumulated in rank order. */
  function Sum(xs: seq<nat>): nat
  {
    if xs == [] then 0 else Sum(xs[..|xs| - 1]) + xs[|xs| - 1]
  }

  /** Where extent `q` starts once the extents are laid end to end. */
  function Offset(xs: seq<nat>, q: nat): nat
    requires q <= |xs|
  {
    Sum(xs[..q])
  }

  /** Offsets grow by each extent in turn and end at the total. */
  lemma {:induction false} OffsetStep(xs: seq<nat>, q: nat)
    requires q < |xs|
    ensures Offset(xs, q + 1) == Offset(xs, q) + xs[q]
    ensures Offset(xs, q + 1) <= Sum(xs)
  {
    assert xs[..q + 1][..q] == xs[..q];
    OffsetBounded(xs, q + 1);
  }

  lemma {:induction false} OffsetBounded(xs: seq<nat>, q: nat)
    requires q <= |xs|
    ensures Offset(xs, q) <= Sum(xs)
    decreases |xs| - q
  {
    if q < |xs| {
      assert xs[..q + 1][..q] == xs[..q];
      OffsetBounded(xs, q + 1);
    } else {
      assert xs[..q] == xs;
    }
  }

  /** The extent of each list, in order. */
  function Lengths<T>(xss: seq<seq<T>>): (ls: seq<nat>)
    ensures |ls| == |xss|
    ensures forall q | 0 <= q < |xss| :: ls[q] == |xss[q]|
  {
    seq(|xss|, q requires 0 <= q < |xss| => |xss[q]|)
  }

  /** The lists laid end to end, in order. */
  function Flatten<T>(xss: seq<seq<T>>): (r: seq<T>)
    ensures |r| == Sum(Lengths(xss))
  {
    if xss == [] then []
    else
      var init := xss[..|xss| - 1];
      assert Lengths(init) == Lengths(xss)[..|xss| - 1];
      Flatten(init) + xss[|xss| - 1]
  }

  /** List `q` sits in the flattened list from its offset for its own extent. */
  lemma {:induction false} FlattenPiece<T>(xss: seq<seq<T>>, q: nat)
    requires q < |xss|
    ensures Offset(Lengths(xss), q) + |xss[q]| <= |Flatten(xss)|
    ensures Flatten(xss)[Offset(Lengths(xss), q) .. Offset(Lengths(xss), q) + |xss[q]|] == xss[q]
  {
    var n := |xss|;
    var init := xss[..n - 1];
    assert Lengths(init) == Lengths(xss)[..n - 1];
    if q == n - 1 {
      assert Offset(Lengths(xss), q) == |Flatten(init)|;
    } else {
      FlattenPiece(init, q);
      assert Lengths(init)[..q] == Lengths(xss)[..q];
      OffsetStep(Lengths(init), q);
    }
  }
}
