/** The integer half of one noise evaluation: which middle corner the simplex
    uses, and how the three corners of the cell are hashed through the
    permutation tables to gradient numbers. */
module Lattice {
  import opened Tables
  import opened Permutation

  /** A signed 32-bit integer, the type of the cell coordinates `i` and `j`. */
  type Int32 = x: int | -0x8000_0000 <= x < 0x8000_0000

  /** `i & 255`: the cell coordinate wrapped to the table size. Dafny's `%` is
      Euclidean, so for negative `i` this is the low byte of its two's
      complement, which is what the mask yields. */
  function CellByte(i: int): (b: int)
    ensures 0 <= b < 256
    ensures (i - b) % 256 == 0
  {
    i % 256
  }

  /** The offsets `(i1, j1)` of the middle corner: the simplex is the lower
      triangle `(0,0),(1,0),(1,1)` when `x0 > y0`, else the upper one. */
  function MiddleCorner(xGreater: bool): (c: (int, int))
    ensures 0 <= c.0 <= 1 && 0 <= c.1 <= 1 && c.0 + c.1 == 1
    ensures c.0 == 1 <==> xGreater
  {
    if xGreater then (1, 0) else (0, 1)
  }

  /** A 512-entry table of bytes, the shape of `perm`. */
  predicate ByteTable(perm: seq<int>) {
    |perm| == 512 && forall k :: 0 <= k < 512 ==> 0 <= perm[k] < 256
  }

  /** The two working tables as the noise reads them: `perm` holds bytes and
      `permMod12` is `perm` reduced modulo 12. */
  predicate WellFormed(perm: seq<int>, permMod12: seq<int>) {
    && ByteTable(perm)
    && |permMod12| == 512
    && forall k :: 0 <= k < 512 ==> permMod12[k] == perm[k] % 12
  }

  /** The three positions of `permMod12` the noise reads for the corners
      `(0,0)`, `(i1,j1)` and `(1,1)` of cell `(i, j)`. They stay inside the
      512-entry table for every cell, with no wrap-around, because both
      summands are bytes. */
  function HashIndices(perm: seq<int>, i: int, j: int, xGreater: bool): (h: (int, int, int))
    requires ByteTable(perm)
    ensures 0 <= h.0 <= 510 && 0 <= h.1 <= 511 && 0 <= h.2 <= 511
  {
    var ii, jj, c := CellByte(i), CellByte(j), MiddleCorner(xGreater);
    (ii + perm[jj], ii + c.0 + perm[jj + c.1], ii + 1 + perm[jj + 1])
  }

  /** The gradient numbers `gi0`, `gi1`, `gi2` of the three corners. Each is a
      valid index into the twelve gradients, and each is the hashed `perm`
      entry reduced modulo 12. */
  function GradientIndices(perm: seq<int>, permMod12: seq<int>, i: int, j: int, xGreater: bool): (g: (int, int, int))
    requires WellFormed(perm, permMod12)
    ensures 0 <= g.0 < |Grad3| && 0 <= g.1 < |Grad3| && 0 <= g.2 < |Grad3|
    ensures var h := HashIndices(perm, i, j, xGreater);
            g == (perm[h.0] % 12, perm[h.1] % 12, perm[h.2] % 12)
  {
    var h := HashIndices(perm, i, j, xGreater);
    (permMod12[h.0], permMod12[h.1], permMod12[h.2])
  }

  /** The reference hash of lattice corner `(x, y)` through a 256-entry
      permutation `t`, with every sum wrapped modulo 256. */
  function CornerGradient(t: seq<int>, x: int, y: int): (gi: int)
    requires |t| == 256 && forall k :: 0 <= k < 256 ==> 0 <= t[k] < 256
    ensures 0 <= gi < |Grad3|
  {
    t[(x % 256 + t[y % 256]) % 256] % 12
  }

  /** Entry `k` of the doubled table is entry `k mod 256` of the shuffled one. */
  lemma ExpandPermAt(t: seq<int>, k: int)
    requires |t| == 256 && 0 <= k < 512
    ensures ExpandPerm(t)[k] == t[k % 256]
  {
  }

  lemma ModSum(a: int, b: int, c: int)
    requires 0 <= a < 256 && a == b % 256
    ensures (a + c) % 256 == (b + c) % 256
  {
  }

  /** One corner read: if `a` and `b` are the unwrapped table positions of
      corner `(x, y)` (below 257 and congruent to `x`, `y` modulo 256), then
      reading the doubled table at `a + perm[b]` without wrapping gives the
      wrapped reference hash of the corner. */
  lemma {:induction false} CornerRead(t: seq<int>, a: int, b: int, x: int, y: int)
    requires |t| == 256 && forall k :: 0 <= k < 256 ==> 0 <= t[k] < 256
    requires 0 <= a < 257 && a % 256 == x % 256
    requires 0 <= b < 257 && b % 256 == y % 256
    ensures a + ExpandPerm(t)[b] < 512
    ensures ExpandPerm(t)[a + ExpandPerm(t)[b]] % 12 == CornerGradient(t, x, y)
  {
    ExpandPermAt(t, b);
    var v := t[y % 256];
    ExpandPermAt(t, a + v);
    ModSum(a % 256, a, v);
    ModSum(x % 256, x, v);
  }

  /** The tables built from a 256-entry byte table are well formed. */
  lemma ExpandedWellFormed(t: seq<int>)
    requires |t| == 256 && forall k :: 0 <= k < 256 ==> 0 <= t[k] < 256
    ensures WellFormed(ExpandPerm(t), Mod12Table(ExpandPerm(t)))
  {
    forall k | 0 <= k < 512 ensures 0 <= ExpandPerm(t)[k] < 256 {
      ExpandPermAt(t, k);
    }
  }

  /** The three corners one at a time: the hash index the noise computes for
      a corner, read through the doubled tables, is the corner's reference hash. */
  lemma {:induction false} FirstCornerHash(t: seq<int>, i: int, j: int, xGreater: bool)
    requires |t| == 256 && forall k :: 0 <= k < 256 ==> 0 <= t[k] < 256
    requires ByteTable(ExpandPerm(t))
    ensures ExpandPerm(t)[HashIndices(ExpandPerm(t), i, j, xGreater).0] % 12 == CornerGradient(t, i, j)
  {
    CornerRead(t, CellByte(i), CellByte(j), i, j);
  }

  lemma {:induction false} MiddleCornerHash(t: seq<int>, i: int, j: int, xGreater: bool)
    requires |t| == 256 && forall k :: 0 <= k < 256 ==> 0 <= t[k] < 256
    requires ByteTable(ExpandPerm(t))
    ensures var c := MiddleCorner(xGreater);
            ExpandPerm(t)[HashIndices(ExpandPerm(t), i, j, xGreater).1] % 12 == CornerGradient(t, i + c.0, j + c.1)
  {
    var c, ii, jj := MiddleCorner(xGreater), CellByte(i), CellByte(j);
    ModSum(ii, i, c.0);
    ModSum(jj, j, c.1);
    CornerRead(t, ii + c.0, jj + c.1, i + c.0, j + c.1);
  }

  lemma {:induction false} LastCornerHash(t: seq<int>, i: int, j: int, xGreater: bool)
    requires |t| == 256 && forall k :: 0 <= k < 256 ==> 0 <= t[k] < 256
    requires ByteTable(ExpandPerm(t))
    ensures ExpandPerm(t)[HashIndices(ExpandPerm(t), i, j, xGreater).2] % 12 == CornerGradient(t, i + 1, j + 1)
  {
    var ii, jj := CellByte(i), CellByte(j);
    ModSum(ii, i, 1);
    ModSum(jj, j, 1);
    CornerRead(t, ii + 1, jj + 1, i + 1, j + 1);
  }

  /** Reading the doubled tables without wrapping gives the same gradients as
      the reference hash with wrapping: the first corner is `(i, j)`, the
      middle one `(i + i1, j + j1)` and the last `(i + 1, j + 1)`. */
  lemma GradientIndicesAreCornerHashes(t: seq<int>, i: int, j: int, xGreater: bool)
    requires |t| == 256 && forall k :: 0 <= k < 256 ==> 0 <= t[k] < 256
    ensures WellFormed(ExpandPerm(t), Mod12Table(ExpandPerm(t)))
    ensures var c, g := MiddleCorner(xGreater), GradientIndices(ExpandPerm(t), Mod12Table(ExpandPerm(t)), i, j, xGreater);
            && g.0 == CornerGradient(t, i, j)
            && g.1 == CornerGradient(t, i + c.0, j + c.1)
            && g.2 == CornerGradient(t, i + 1, j + 1)
  {
    ExpandedWellFormed(t);
    FirstCornerHash(t, i, j, xGreater);
    MiddleCornerHash(t, i, j, xGreater);
    LastCornerHash(t, i, j, xGreater);
  }

  /** The noise lattice repeats every 256 cells in each direction. */
  lemma GradientIndicesPeriodic(perm: seq<int>, permMod12: seq<int>, i: int, j: int, xGreater: bool)
    requires WellFormed(perm, permMod12)
    ensures GradientIndices(perm, permMod12, i + 256, j, xGreater) == GradientIndices(perm, permMod12, i, j, xGreater)
    ensures GradientIndices(perm, permMod12, i, j + 256, xGreater) == GradientIndices(perm, permMod12, i, j, xGreater)
  {
    assert CellByte(i + 256) == CellByte(i);
    assert CellByte(j + 256) == CellByte(j);
  }
}
