/** `pad_to_multiple`: pad the sequence axis of a tensor up to the next
    multiple of a length. */
module Padding {
  import opened Tensors

  /** `n % d`, by repeated subtraction. Defined without division so that
      unfolding it keeps the arithmetic linear; RemIsMod ties it to `%`. */
  function Rem(n: nat, d: nat): (r: nat)
    requires d > 0
    ensures r < d
    decreases n
  {
    if n < d then n else Rem(n - d, d)
  }

  lemma {:induction false} RemIsMod(n: nat, d: nat)
    requires d > 0
    ensures Rem(n, d) == n % d
  {
    if n >= d {
      RemIsMod(n - d, d);
      var k := (n - d) / d;
      assert n - d == k * d + (n - d) % d;
      assert n == (k + 1) * d + (n - d) % d;
      DivModUnique(n, d, k + 1, (n - d) % d);
    } else {
      DivModUnique(n, d, 0, n);
    }
  }

  /** The number of positions `pad_to_multiple` appends to a row of `seqLen`
      positions: none when `length` already divides it, otherwise
      `length - seqLen % length`. PadLengthFits and PadLengthIsLeast say what
      it achieves. */
  function PadLength(seqLen: nat, length: nat): (p: nat)
    requires length > 0
    ensures p < length
  {
    var remainder := Rem(seqLen, length);
    if remainder == 0 then 0 else length - remainder
  }

  /** Padding reaches a multiple of `length`, and pads nothing exactly when
      the length is already one. */
  lemma PadLengthFits(seqLen: nat, length: nat)
    requires length > 0
    ensures (seqLen + PadLength(seqLen, length)) % length == 0
    ensures PadLength(seqLen, length) == 0 <==> seqLen % length == 0
  {
    RemIsMod(seqLen, length);
    var k, remainder := seqLen / length, seqLen % length;
    if remainder != 0 {
      assert seqLen == k * length + remainder;
      assert (k + 1) * length == k * length + length;
      DivModUnique(seqLen + (length - remainder), length, k + 1, 0);
    }
  }

  /** The length of a row once padded. */
  function PaddedWidth(seqLen: nat, length: nat): nat
    requires length > 0
  {
    seqLen + PadLength(seqLen, length)
  }

  /** `d` whole lengths are at least one length. */
  lemma {:induction false} MulAtLeast(d: nat, length: nat)
    requires d >= 1
    ensures d * length >= length
  {
    if d > 1 {
      MulAtLeast(d - 1, length);
      assert d * length == (d - 1) * length + length;
    }
  }

  /** Quotient and remainder are unique: `k * length + r` with `r < length`
      leaves remainder `r`. */
  lemma {:induction false} DivModUnique(a: nat, length: nat, k: nat, r: nat)
    requires r < length && a == k * length + r
    ensures a / length == k && a % length == r
  {
    var q, m := a / length, a % length;
    assert a == q * length + m;
    if q > k {
      assert (q - k) * length == q * length - k * length;
      MulAtLeast(q - k, length);
    } else if q < k {
      assert (k - q) * length == k * length - q * length;
      MulAtLeast(k - q, length);
    }
  }

  /** No shorter padding reaches a multiple of `length`. */
  lemma {:induction false} PadLengthIsLeast(seqLen: nat, length: nat, q: nat)
    requires length > 0
    requires q < PadLength(seqLen, length)
    ensures (seqLen + q) % length != 0
  {
    RemIsMod(seqLen, length);
    var k, remainder := seqLen / length, seqLen % length;
    assert seqLen + q == k * length + (remainder + q);
    DivModUnique(seqLen + q, length, k, remainder + q);
  }

  /** `pad_to_multiple(x, length, pad_value)`: returns the padded tensor and
      the pad length. Every row keeps its positions as a prefix and gets
      `pad_value` at each appended position; when nothing needs appending the
      tensor comes back unchanged. */
  function PadToMultiple<T>(x: Tensor<T>, length: nat, padValue: T): (r: (Tensor<T>, nat))
    requires WellFormed(x) && length > 0
    ensures r.1 == PadLength(x.width, length)
    ensures r.1 == 0 ==> r.0 == x
    ensures WellFormed(r.0) && |r.0.rows| == |x.rows| && r.0.width == x.width + r.1
    ensures forall i | 0 <= i < |x.rows| :: r.0.rows[i][..x.width] == x.rows[i]
    ensures forall i, k | 0 <= i < |x.rows| && x.width <= k < r.0.width :: r.0.rows[i][k] == padValue
  {
    var remainder := Rem(x.width, length);
    if remainder == 0 then (x, 0)
    else
      var padLength := length - remainder;
      var padded := seq(|x.rows|, i requires 0 <= i < |x.rows| => x.rows[i] + seq(padLength, _ => padValue));
      (Tensor(padded, x.width + padLength), padLength)
  }

  /** Cutting a padded tensor back to the original length gives the original:
      padding only appends. */
  lemma TruncatePadded<T>(x: Tensor<T>, length: nat, padValue: T)
    requires WellFormed(x) && length > 0
    ensures Truncate(PadToMultiple(x, length, padValue).0, x.width) == x
  {
    var padded := PadToMultiple(x, length, padValue).0;
    assert Truncate(padded, x.width).rows == x.rows;
  }
}
