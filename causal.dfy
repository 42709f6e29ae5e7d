/** The masking step of the plain attention used when no process group is
    running: which key positions each query position may attend to. */
module Causal {
  import opened Common

  /** `torch.ones((rows, cols), dtype = bool).triu(d)`: the entries on or
      above diagonal `d` stay `true`, every other entry becomes `false`. */
  function Triu(rows: nat, cols: nat, d: int): (m: seq<seq<bool>>)
    ensures |m| == rows && forall a | 0 <= a < rows :: |m[a]| == cols
    ensures forall a, b | 0 <= a < rows && 0 <= b < cols :: m[a][b] <==> b - a >= d
  {
    seq(rows, a requires 0 <= a < rows => seq(cols, b requires 0 <= b < cols => b - a >= d))
  }

  /** The causal mask of `i` queries against `j` keys: `true` marks a key
      hidden from a query. The queries are the last `i` positions of the key
      sequence, so the mask starts at diagonal `j - i + 1`. */
  function CausalMask(i: nat, j: nat): (m: seq<seq<bool>>)
    ensures |m| == i && forall a | 0 <= a < i :: |m[a]| == j
  {
    Triu(i, j, j - i + 1)
  }

  /** Key `b` is hidden from query `a` exactly when it comes after the
      query's own position `a + (j - i)` in the key sequence. */
  lemma CausalHidesLater(i: nat, j: nat, a: nat, b: nat)
    requires a < i && b < j
    ensures CausalMask(i, j)[a][b] <==> b > a + (j - i)
  {
  }

  /** With as many queries as keys, a query sees itself and every earlier
      position and nothing after it. */
  lemma SquareCausal(n: nat, a: nat, b: nat)
    requires a < n && b < n
    ensures CausalMask(n, n)[a][b] <==> b > a
  {
    CausalHidesLater(n, n, a, b);
  }

  /** What each query sees is a prefix of the keys, and a later query sees
      every key an earlier one sees. */
  lemma CausalVisibleMonotone(i: nat, j: nat, a: nat, a': nat, b: nat, b': nat)
    requires a <= a' < i && b' <= b < j
    ensures !CausalMask(i, j)[a][b] ==> !CausalMask(i, j)[a'][b']
  {
    CausalHidesLater(i, j, a, b);
    CausalHidesLater(i, j, a', b');
  }

  /** When there are at least as many keys as queries, every query sees its
      own position, so no query is left with every key hidden. */
  lemma CausalSeesOwnPosition(i: nat, j: nat, a: nat)
    requires a < i <= j
    ensures !CausalMask(i, j)[a][a + (j - i)]
    ensures !CausalMask(i, j)[a][0]
  {
    CausalHidesLater(i, j, a, a + (j - i));
    CausalHidesLater(i, j, a, 0);
  }

  /** The masking in `default_attention`: with `causal` set, only the causal
      mask applies and the key-padding mask is not consulted; otherwise the
      key-padding mask, when given, decides (a `false` bit hides the key). */
  function Visible(i: nat, j: nat, causal: bool, keyMask: Option<seq<bool>>, a: nat, b: nat): (v: bool)
    requires a < i && b < j
    requires keyMask.Some? ==> |keyMask.value| == j
    ensures causal ==> (v <==> b <= a + (j - i))
    ensures !causal ==> (v <==> keyMask.None? || keyMask.value[b])
  {
    CausalHidesLater(i, j, a, b);
    if causal then !CausalMask(i, j)[a][b]
    else keyMask.None? || keyMask.value[b]
  }

  /** The padding mask of a row whose first `n` of `j` positions are real. */
  function RightPadded(n: nat, j: nat): (m: seq<bool>)
    requires n <= j
    ensures |m| == j && forall b | 0 <= b < j :: m[b] <==> b < n
  {
    seq(j, b requires 0 <= b < j => b < n)
  }

  /** Ignoring the key-padding mask under the causal mask loses nothing for a
      square, right-padded sequence: a real query never sees a padding key,
      and it sees exactly the keys the padding mask and the causal mask
      together allow. */
  lemma CausalCoversRightPadding(n: nat, j: nat, a: nat, b: nat)
    requires n <= j && a < n && b < j
    ensures Visible(j, j, true, Some(RightPadded(n, j)), a, b) ==> RightPadded(n, j)[b]
    ensures Visible(j, j, true, Some(RightPadded(n, j)), a, b) <==>
              Visible(j, j, true, None, a, b) && Visible(j, j, false, Some(RightPadded(n, j)), a, b)
  {
  }
}
