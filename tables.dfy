/** The constant data of the noise generator: the 256-entry base permutation
    table and the twelve gradient vectors. Both are read-only; nothing in the
    model ever writes to them. */
module Tables {

  /** An unsigned 8-bit value, the element type of every table. */
  type Byte = x: int | 0 <= x < 256

  /** The original base permutation table in rows of sixteen. On the target it lives in program memory; here it is an
      ordinary constant. */
  const BaseRow0: seq<int> := [151, 160, 137, 91, 90, 15, 131, 13, 201, 95, 96, 53, 194, 233, 7, 225]
  const BaseRow1: seq<int> := [140, 36, 103, 30, 69, 142, 8, 99, 37, 240, 21, 10, 23, 190, 6, 148]
  const BaseRow2: seq<int> := [247, 120, 234, 75, 0, 26, 197, 62, 94, 252, 219, 203, 117, 35, 11, 32]
  const BaseRow3: seq<int> := [57, 177, 33, 88, 237, 149, 56, 87, 174, 20, 125, 136, 171, 168, 68, 175]
  const BaseRow4: seq<int> := [74, 165, 71, 134, 139, 48, 27, 166, 77, 146, 158, 231, 83, 111, 229, 122]
  const BaseRow5: seq<int> := [60, 211, 133, 230, 220, 105, 92, 41, 55, 46, 245, 40, 244, 102, 143, 54]
  const BaseRow6: seq<int> := [65, 25, 63, 161, 1, 216, 80, 73, 209, 76, 132, 187, 208, 89, 18, 169]
  const BaseRow7: seq<int> := [200, 196, 135, 130, 116, 188, 159, 86, 164, 100, 109, 198, 173, 186, 3, 64]
  const BaseRow8: seq<int> := [52, 217, 226, 250, 124, 123, 5, 202, 38, 147, 118, 126, 255, 82, 85, 212]
  const BaseRow9: seq<int> := [207, 206, 59, 227, 47, 16, 58, 17, 182, 189, 28, 42, 223, 183, 170, 213]
  const BaseRow10: seq<int> := [119, 248, 152, 2, 44, 154, 163, 70, 221, 153, 101, 155, 167, 43, 172, 9]
  const BaseRow11: seq<int> := [129, 22, 39, 253, 19, 98, 108, 110, 79, 113, 224, 232, 178, 185, 112, 104]
  const BaseRow12: seq<int> := [218, 246, 97, 228, 251, 34, 242, 193, 238, 210, 144, 12, 191, 179, 162, 241]
  const BaseRow13: seq<int> := [81, 51, 145, 235, 249, 14, 239, 107, 49, 192, 214, 31, 181, 199, 106, 157]
  const BaseRow14: seq<int> := [184, 84, 204, 176, 115, 121, 50, 45, 127, 4, 150, 254, 138, 236, 205, 93]
  const BaseRow15: seq<int> := [222, 114, 67, 29, 24, 72, 243, 141, 128, 195, 78, 66, 215, 61, 156, 180]

  /** Row `r` of the base table; any `r` beyond 14 reads the last row. */
  function BaseRow(r: int): (row: seq<int>)
    ensures |row| == 16
  {
    if r == 0 then BaseRow0
    else if r == 1 then BaseRow1
    else if r == 2 then BaseRow2
    else if r == 3 then BaseRow3
    else if r == 4 then BaseRow4
    else if r == 5 then BaseRow5
    else if r == 6 then BaseRow6
    else if r == 7 then BaseRow7
    else if r == 8 then BaseRow8
    else if r == 9 then BaseRow9
    else if r == 10 then BaseRow10
    else if r == 11 then BaseRow11
    else if r == 12 then BaseRow12
    else if r == 13 then BaseRow13
    else if r == 14 then BaseRow14
    else BaseRow15
  }

  /** Entry `k` of the base table, for `k` in 0..255. */
  function BaseAt(k: int): int {
    BaseRow(k / 16)[k % 16]
  }

  /** The base permutation table `p`. */
  const P: seq<int> := seq(256, BaseAt)

  /** A gradient direction; the 2D noise only uses `x` and `y`. */
  datatype Grad = Grad(x: int, y: int, z: int)

  /** The twelve gradients: the midpoints of the edges of a cube. */
  const Grad3: seq<Grad> := [
    Grad(1, 1, 0), Grad(-1, 1, 0), Grad(1, -1, 0), Grad(-1, -1, 0), Grad(1, 0, 1),
    Grad(-1, 0, 1), Grad(1, 0, -1), Grad(-1, 0, -1), Grad(0, 1, 1), Grad(0, -1, 1),
    Grad(0, 1, -1), Grad(0, -1, -1)
  ]

  function Abs(x: int): nat { if x < 0 then -x else x }

  /** Reads gradient number `gi`, the lookup the noise does for each corner
      before its floating-point dot product (not modelled). Its precondition
      is exactly the bound `Lattice.GradientIndices` proves of the three
      gradient numbers, so every lookup the noise makes is defined. */
  function Gradient(gi: int): (g: Grad)
    requires 0 <= gi < |Grad3|
    ensures -1 <= g.x <= 1 && -1 <= g.y <= 1 && -1 <= g.z <= 1
    ensures Abs(g.x) + Abs(g.y) + Abs(g.z) == 2
  {
    Grad3[gi]
  }

  /** No two positions of `s` hold the same value. */
  predicate Distinct(s: seq<int>) {
    forall a, b :: 0 <= a < b < |s| ==> s[a] != s[b]
  }

  /** `t` is a bijection of 0..255: 256 entries, each a byte, each byte once. */
  predicate IsByteBijection(t: seq<int>) {
    && |t| == 256
    && (forall k :: 0 <= k < |t| ==> 0 <= t[k] < 256)
    && Distinct(t)
    && (forall v :: 0 <= v < 256 ==> v in t)
  }

  /** A sequence is free of repeats exactly when no value occurs twice in its multiset. */
  lemma {:induction false} DistinctIffSingleMultiplicity(s: seq<int>)
    ensures Distinct(s) <==> forall v :: multiset(s)[v] <= 1
  {
    if |s| > 0 {
      var t, x := s[..|s| - 1], s[|s| - 1];
      assert s == t + [x];
      assert multiset(s) == multiset(t) + multiset{x};
      DistinctIffSingleMultiplicity(t);
      if Distinct(s) {
        assert Distinct(t);
        forall a | 0 <= a < |t| ensures t[a] != x {
          assert t[a] == s[a];
        }
        assert multiset(t)[x] == 0;
      }
      if forall v :: multiset(s)[v] <= 1 {
        assert forall v :: multiset(t)[v] <= 1 by {
          forall v ensures multiset(t)[v] <= 1 {
            assert multiset(t)[v] <= multiset(s)[v];
          }
        }
        assert multiset(s)[x] == multiset(t)[x] + 1;
        assert multiset(t)[x] == 0;
        forall a, b | 0 <= a < b < |s| ensures s[a] != s[b] {
          if b < |s| - 1 {
            assert s[a] == t[a] && s[b] == t[b];
          } else {
            assert s[a] in multiset(t);
          }
        }
      }
    }
  }

  /** Rearranging a bijection of 0..255 gives a bijection of 0..255. */
  lemma BijectionPreserved(base: seq<int>, t: seq<int>)
    requires IsByteBijection(base)
    requires multiset(t) == multiset(base)
    ensures IsByteBijection(t)
  {
    assert |t| == |multiset(t)| == |multiset(base)| == 256;
    forall k | 0 <= k < |t| ensures 0 <= t[k] < 256 {
      assert t[k] in multiset(base);
    }
    forall v | 0 <= v < 256 ensures v in t {
      assert v in base;
      assert v in multiset(base);
    }
    DistinctIffSingleMultiplicity(base);
    DistinctIffSingleMultiplicity(t);
  }

  /** The values of a repeat-free sequence are as many as its positions. */
  lemma {:induction false} ValuesOfDistinct(s: seq<int>)
    requires Distinct(s)
    ensures |set x | x in s| == |s|
  {
    if |s| > 0 {
      var t := s[..|s| - 1];
      assert Distinct(t);
      ValuesOfDistinct(t);
      assert (set x | x in s) == (set x | x in t) + {s[|s| - 1]};
      assert s[|s| - 1] !in (set x | x in t);
    }
  }

  /** The set `{0, ..., n - 1}`. */
  function Below(n: nat): (r: set<int>)
    ensures |r| == n
    ensures forall v :: v in r <==> 0 <= v < n
  {
    if n == 0 then {} else Below(n - 1) + {n - 1}
  }

  lemma SubsetSize(a: set<int>, b: set<int>)
    requires a <= b
    ensures |a| <= |b|
  {
    assert b == a + (b - a);
  }

  /** Pigeonhole: 256 pairwise different bytes are all the bytes. */
  lemma DistinctBytesCoverAll(t: seq<int>)
    requires |t| == 256 && (forall k :: 0 <= k < |t| ==> 0 <= t[k] < 256) && Distinct(t)
    ensures forall v :: 0 <= v < 256 ==> v in t
  {
    forall v | 0 <= v < 256 ensures v in t {
      if v !in t {
        var values := set x | x in t;
        var others := Below(256) - {v};
        ValuesOfDistinct(t);
        assert values <= others;
        SubsetSize(values, others);
        assert false;
      }
    }
  }
}
