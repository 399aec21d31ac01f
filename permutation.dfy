/** The pure specification of how the working tables are built from the base
    table: a Fisher–Yates shuffle driven by a sequence of random draws, then
    the doubled permutation table and its mod-12 companion. */
module Permutation {
  import opened Tables

  /** The draws a shuffle of a `len`-entry table consumes: the k-th draw picks
      the partner of position `len - 1 - k`, so it lies in `[0, len - 1 - k]`
      (the range `random(i + 1)` guarantees for `i = len - 1 - k`). */
  predicate ValidDraws(len: nat, draws: seq<int>) {
    && len >= 1
    && |draws| == len - 1
    && forall k :: 0 <= k < |draws| ==> 0 <= draws[k] <= len - 1 - k
  }

  /** Exchanges positions `i` and `j` (the `temp` exchange of one shuffle step). */
  function Swap(s: seq<int>, i: nat, j: nat): (r: seq<int>)
    requires i < |s| && j < |s|
    ensures |r| == |s|
  {
    seq(|s|, k requires 0 <= k < |s| => if k == i then s[j] else if k == j then s[i] else s[k])
  }

  /** An exchange moves exactly the two entries it names, each to the other's
      position, and leaves every other position alone. */
  lemma SwapExchanges(s: seq<int>, i: nat, j: nat)
    requires i < |s| && j < |s|
    ensures Swap(s, i, j)[i] == s[j] && Swap(s, i, j)[j] == s[i]
    ensures forall k :: 0 <= k < |s| && k != i && k != j ==> Swap(s, i, j)[k] == s[k]
  {
  }

  /** An exchange only rearranges the table. */
  lemma SwapIsPermutation(s: seq<int>, i: nat, j: nat)
    requires i < |s| && j < |s|
    ensures multiset(Swap(s, i, j)) == multiset(s)
  {
    assert Swap(s, i, j) == s[i := s[j]][j := s[i]];
    if i != j {
      assert multiset(s[i := s[j]]) == multiset(s) - multiset{s[i]} + multiset{s[j]};
    }
  }

  /** The table after the first `n` steps of the shuffle; step `n` exchanges
      position `|s| - n` with position `draws[n - 1]`. */
  function Shuffled(s: seq<int>, draws: seq<int>, n: nat): (r: seq<int>)
    requires ValidDraws(|s|, draws) && n <= |draws|
    ensures |r| == |s|
    decreases n
  {
    if n == 0 then s else Swap(Shuffled(s, draws, n - 1), |s| - n, draws[n - 1])
  }

  /** The complete shuffle: positions `|s| - 1` down to 1. */
  function FisherYates(s: seq<int>, draws: seq<int>): (r: seq<int>)
    requires ValidDraws(|s|, draws)
    ensures |r| == |s|
  {
    Shuffled(s, draws, |draws|)
  }

  /** Every prefix of the shuffle only rearranges the table. */
  lemma {:induction false} ShuffledIsPermutation(s: seq<int>, draws: seq<int>, n: nat)
    requires ValidDraws(|s|, draws) && n <= |draws|
    ensures multiset(Shuffled(s, draws, n)) == multiset(s)
    decreases n
  {
    if n > 0 {
      var before := Shuffled(s, draws, n - 1);
      calc {
        multiset(Shuffled(s, draws, n));
        multiset(Swap(before, |s| - n, draws[n - 1]));
        { SwapIsPermutation(before, |s| - n, draws[n - 1]); }
        multiset(before);
        { ShuffledIsPermutation(s, draws, n - 1); }
        multiset(s);
      }
    }
  }

  /** Once step `n` is done, the last `n` positions are final: no later step
      touches them, because every later exchange stays below `|s| - n`. */
  lemma {:induction false} ShuffleSettlesTail(s: seq<int>, draws: seq<int>, n: nat, m: nat, q: int)
    requires ValidDraws(|s|, draws) && n <= m <= |draws|
    requires |s| - n <= q < |s|
    ensures Shuffled(s, draws, m)[q] == Shuffled(s, draws, n)[q]
    decreases m
  {
    if m > n {
      ShuffleSettlesTail(s, draws, n, m - 1, q);
      var before := Shuffled(s, draws, m - 1);
      assert Shuffled(s, draws, m) == Swap(before, |s| - m, draws[m - 1]);
      assert q != |s| - m && q != draws[m - 1];
      SwapExchanges(before, |s| - m, draws[m - 1]);
    }
  }

  /** Shuffling a bijection of 0..255 yields a bijection of 0..255. */
  lemma FisherYatesKeepsBijection(s: seq<int>, draws: seq<int>)
    requires ValidDraws(|s|, draws) && IsByteBijection(s)
    ensures IsByteBijection(FisherYates(s, draws))
  {
    ShuffledIsPermutation(s, draws, |draws|);
    BijectionPreserved(s, FisherYates(s, draws));
  }

  /** The 512-entry permutation table: entry `k` is `t[k & 255]`. */
  function ExpandPerm(t: seq<int>): (perm: seq<int>)
    requires |t| == 256
    ensures |perm| == 512
  {
    seq(512, k requires 0 <= k < 512 => t[k % 256])
  }

  /** Both halves of the doubled table hold `t`. */
  lemma ExpandPermHalves(t: seq<int>)
    requires |t| == 256
    ensures ExpandPerm(t)[..256] == t && ExpandPerm(t)[256..] == t
  {
    var perm := ExpandPerm(t);
    assert forall k :: 0 <= k < 256 ==> perm[..256][k] == t[k];
    assert forall k :: 0 <= k < 256 ==> perm[256..][k] == perm[k + 256] == t[k];
  }

  /** The first half of the doubled table built from a shuffle holds exactly
      the entries of the table that was shuffled. */
  lemma ExpandedShuffleIsPermutation(s: seq<int>, draws: seq<int>)
    requires |s| == 256 && ValidDraws(|s|, draws)
    ensures multiset(ExpandPerm(FisherYates(s, draws))[..256]) == multiset(s)
  {
    ShuffledIsPermutation(s, draws, |draws|);
    ExpandPermHalves(FisherYates(s, draws));
  }

  /** The companion table of gradient numbers: each entry of `perm` modulo 12. */
  function Mod12Table(perm: seq<int>): (m: seq<int>)
    ensures |m| == |perm|
    ensures forall k :: 0 <= k < |m| ==> 0 <= m[k] < 12
  {
    seq(|perm|, k requires 0 <= k < |perm| => perm[k] % 12)
  }

  /** The two halves of the doubled table agree entry by entry, and the
      companion table is the doubled table reduced modulo 12. */
  lemma ExpandedTablesAgree(t: seq<int>)
    requires |t| == 256
    ensures forall k :: 0 <= k < 256 ==> ExpandPerm(t)[k] == ExpandPerm(t)[k + 256]
    ensures forall k :: 0 <= k < 512 ==> Mod12Table(ExpandPerm(t))[k] == ExpandPerm(t)[k] % 12
  {
    var perm := ExpandPerm(t);
    forall k | 0 <= k < 256 ensures perm[k] == perm[k + 256] {
      assert perm[k] == t[k % 256] && perm[k + 256] == t[(k + 256) % 256];
    }
  }
}
