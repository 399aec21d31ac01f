/** The seeded state of the noise generator and the operations that build it
    and read it. On the target the tables and the flag are static members of
    one class; here they are the fields of one object. */
module SimplexNoise {
  import opened Tables
  import opened Permutation
  import opened Lattice
  import opened BaseTable

  class Noise {
    /** The base permutation table `P`, read-only. */
    const p: seq<Byte>
    /** The doubled permutation table. */
    var perm: array<Byte>
    /** `perm` reduced modulo 12: the gradient number of each entry. */
    var permMod12: array<Byte>
    /** Set by `Init`; `NoiseGradients` seeds the tables itself while it is false. */
    var initialized: bool

    /** Whether the tables have been generated at least once (by `Init` or
        `Reseed`), and the draws that generated them. */
    ghost var seeded: bool
    ghost var draws: seq<int>

    /** The tables are exactly the ones the shuffle built from `d`. */
    ghost predicate TablesFrom(d: seq<int>)
      reads this, perm, permMod12
      requires |p| == 256 && ValidDraws(256, d)
    {
      && perm[..] == ExpandPerm(FisherYates(p, d))
      && permMod12[..] == Mod12Table(ExpandPerm(FisherYates(p, d)))
    }

    /** The object invariant: `p` is the base table, the two tables are
        distinct 512-entry arrays read as the noise expects, and once seeded
        they are the tables the recorded draws built, so each half of `perm`
        is a bijection of 0..255. */
    ghost predicate Valid()
      reads this, perm, permMod12
    {
      && p == P && |p| == 256
      && perm.Length == 512 && permMod12.Length == 512 && perm != permMod12
      && WellFormed(perm[..], permMod12[..])
      && (seeded ==> ValidDraws(256, draws) && TablesFrom(draws))
      && (seeded ==> IsByteBijection(perm[..256]) && IsByteBijection(perm[256..]))
      && (initialized ==> seeded)
    }

    /** The state before any seeding: both tables zero, the flag clear. */
    constructor ()
      ensures Valid() && fresh(perm) && fresh(permMod12)
      ensures p == P && IsByteBijection(p)
      ensures !initialized && !seeded
      ensures forall k :: 0 <= k < 512 ==> perm[k] == 0 && permMod12[k] == 0
    {
      BaseIsBijection();
      p := P;
      perm := new Byte[512](_ => 0);
      permMod12 := new Byte[512](_ => 0);
      initialized := false;
      seeded := false;
      draws := [];
    }

    /** Builds both tables from the draws `d` of the random source: shuffles a
        copy of the base table, then fills `perm` with two copies of it and
        `permMod12` with each entry modulo 12. The flag is left alone. */
    method GeneratePerm(d: seq<int>)
      requires Valid() && ValidDraws(256, d)
      modifies this`seeded, this`draws, perm, permMod12
      ensures Valid() && seeded && draws == d
      ensures initialized == old(initialized)
      ensures TablesFrom(d)
      ensures multiset(perm[..256]) == multiset(p)
      ensures forall k :: 0 <= k < 256 ==> perm[k] == perm[k + 256]
      ensures forall k :: 0 <= k < 512 ==> permMod12[k] == perm[k] % 12
      ensures IsByteBijection(perm[..256]) && IsByteBijection(perm[256..])
    {
      var shuffledP := ShuffledCopy(p, d);
      FillTables(shuffledP);
      seeded, draws := true, d;
      GeneratedPermIsBijection(d);
      ghost var t := ExpandPerm(FisherYates(p, d));
      ExpandedTablesAgree(FisherYates(p, d));
      ExpandedShuffleIsPermutation(p, d);
      assert perm[..256] == t[..256];
    }

    /** The fill loop: `perm[k]` is `shuffled[k & 255]` and `permMod12[k]` is
        `perm[k] % 12` for all 512 positions. */
    method FillTables(shuffled: array<Byte>)
      requires perm.Length == 512 && permMod12.Length == 512 && perm != permMod12
      requires shuffled.Length == 256
      modifies perm, permMod12
      ensures perm[..] == ExpandPerm(shuffled[..])
      ensures permMod12[..] == Mod12Table(perm[..])
      ensures shuffled[..] == old(shuffled[..])
    {
      var k := 0;
      while k < 512
        invariant 0 <= k <= 512
        invariant shuffled[..] == old(shuffled[..])
        invariant forall m :: 0 <= m < k ==> perm[m] == shuffled[m % 256]
        invariant forall m :: 0 <= m < k ==> permMod12[m] == perm[m] % 12
      {
        perm[k] := shuffled[k % 256];
        permMod12[k] := perm[k] % 12;
        k := k + 1;
      }
      assert perm[..] == ExpandPerm(shuffled[..]);
    }

    /** Seeds with the draws `d` and sets the flag. */
    method Init(d: seq<int>)
      requires Valid() && ValidDraws(256, d)
      modifies this`initialized, this`seeded, this`draws, perm, permMod12
      ensures Valid() && initialized && TablesFrom(d)
      ensures IsByteBijection(perm[..256]) && IsByteBijection(perm[256..])
    {
      GeneratePerm(d);
      initialized := true;
    }

    /** Seeds from the clock; `clockDraws` are the draws that seed yields. */
    method InitDefault(clockDraws: seq<int>)
      requires Valid() && ValidDraws(256, clockDraws)
      modifies this`initialized, this`seeded, this`draws, perm, permMod12
      ensures Valid() && initialized && TablesFrom(clockDraws)
      ensures IsByteBijection(perm[..256]) && IsByteBijection(perm[256..])
    {
      Init(clockDraws);
    }

    /** Rebuilds both tables from the draws `d` without touching the flag. */
    method Reseed(d: seq<int>)
      requires Valid() && ValidDraws(256, d)
      modifies this`seeded, this`draws, perm, permMod12
      ensures Valid() && TablesFrom(d)
      ensures initialized == old(initialized)
      ensures IsByteBijection(perm[..256]) && IsByteBijection(perm[256..])
    {
      GeneratePerm(d);
    }

    /** The integer part of one noise evaluation in cell `(i, j)`, where
        `xGreater` is the comparison `x0 > y0`: seeds from the clock first if
        the flag is clear, then returns the gradient numbers of the three
        corners. */
    method NoiseGradients(i: Int32, j: Int32, xGreater: bool, clockDraws: seq<int>)
      returns (gi0: int, gi1: int, gi2: int)
      requires Valid() && ValidDraws(256, clockDraws)
      modifies this`initialized, this`seeded, this`draws, perm, permMod12
      ensures Valid() && initialized
      ensures old(initialized) ==> perm[..] == old(perm[..]) && permMod12[..] == old(permMod12[..])
      ensures !old(initialized) ==> TablesFrom(clockDraws)
      ensures IsByteBijection(perm[..256]) && IsByteBijection(perm[256..])
      ensures (gi0, gi1, gi2) == GradientIndices(perm[..], permMod12[..], i, j, xGreater)
      ensures 0 <= gi0 < |Grad3| && 0 <= gi1 < |Grad3| && 0 <= gi2 < |Grad3|
    {
      if !initialized {
        InitDefault(clockDraws);
      }
      gi0, gi1, gi2 := CornerGradients(i, j, xGreater);
    }

    /** The corner selection and table reads of one noise evaluation in cell
        `(i, j)`, as the noise performs them on the arrays: the array-reading
        twin of `Lattice.GradientIndices`, about which the reference-hash
        properties are proved. The middle corner is `(1, 0)` when `xGreater`
        and `(0, 1)` otherwise, and every read stays inside the 512-entry
        tables. */
    method CornerGradients(i: Int32, j: Int32, xGreater: bool) returns (gi0: int, gi1: int, gi2: int)
      requires perm.Length == 512 && permMod12.Length == 512
      requires WellFormed(perm[..], permMod12[..])
      ensures (gi0, gi1, gi2) == GradientIndices(perm[..], permMod12[..], i, j, xGreater)
      ensures 0 <= gi0 < |Grad3| && 0 <= gi1 < |Grad3| && 0 <= gi2 < |Grad3|
    {
      var i1, j1 := 0, 1;
      if xGreater {
        i1, j1 := 1, 0;
      }
      var ii := i % 256;
      var jj := j % 256;
      gi0 := permMod12[ii + perm[jj]];
      gi1 := permMod12[ii + i1 + perm[jj + j1]];
      gi2 := permMod12[ii + 1 + perm[jj + 1]];
    }
  }

  /** The copy loop and the in-place Fisher–Yates loop: the local table ends up
      as the shuffle of `p` by the draws `d`, position `i` from 255 down to 1
      exchanged with position `d[255 - i]`. */
  method ShuffledCopy(p: seq<Byte>, d: seq<int>) returns (shuffledP: array<Byte>)
    requires |p| == 256 && ValidDraws(256, d)
    ensures fresh(shuffledP)
    ensures shuffledP[..] == FisherYates(p, d)
  {
    shuffledP := new Byte[256];
    var i := 0;
    while i < 256
      invariant 0 <= i <= 256
      invariant shuffledP[..i] == p[..i]
    {
      shuffledP[i] := p[i];
      i := i + 1;
    }
    assert shuffledP[..] == Shuffled(p, d, 0);

    i := 255;
    while i > 0
      invariant 0 <= i <= 255
      invariant shuffledP[..] == Shuffled(p, d, 255 - i)
    {
      var j := d[255 - i];
      var temp := shuffledP[i];
      shuffledP[i] := shuffledP[j];
      shuffledP[j] := temp;
      i := i - 1;
    }
  }

  /** Whatever the draws, the first half of the doubled table is a bijection
      of 0..255, and so is the second half, which is the same table. */
  lemma GeneratedPermIsBijection(d: seq<int>)
    requires ValidDraws(256, d)
    ensures IsByteBijection(ExpandPerm(FisherYates(P, d))[..256])
    ensures IsByteBijection(ExpandPerm(FisherYates(P, d))[256..])
  {
    BaseIsBijection();
    FisherYatesKeepsBijection(P, d);
    ExpandPermHalves(FisherYates(P, d));
  }

  /** A fresh generator seeded with the draws `d`, and the tables it ends up
      with: the doubled shuffle of `P` and its mod-12 companion. */
  method SeededTables(d: seq<int>) returns (perm: seq<int>, permMod12: seq<int>)
    requires ValidDraws(256, d)
    ensures perm == ExpandPerm(FisherYates(P, d))
    ensures permMod12 == Mod12Table(perm)
  {
    var noise := new Noise();
    noise.Init(d);
    perm, permMod12 := noise.perm[..], noise.permMod12[..];
  }

  /** Seeding two generators with the same draws gives the same tables. */
  method InitIsDeterministic(d: seq<int>) returns (same: bool)
    requires ValidDraws(256, d)
    ensures same
  {
    var perm1, permMod12a := SeededTables(d);
    var perm2, permMod12b := SeededTables(d);
    same := perm1 == perm2 && permMod12a == permMod12b;
  }

  /** A noise evaluation after `Init` keeps both tables the explicit draws built. */
  method NoiseAfterInit(d: seq<int>, clockDraws: seq<int>, i: Int32, j: Int32, xGreater: bool)
    returns (perm: seq<int>, permMod12: seq<int>)
    requires ValidDraws(256, d) && ValidDraws(256, clockDraws)
    ensures perm == ExpandPerm(FisherYates(P, d))
    ensures permMod12 == Mod12Table(perm)
  {
    var noise := new Noise();
    noise.Init(d);
    var gi0, gi1, gi2 := noise.NoiseGradients(i, j, xGreater, clockDraws);
    perm, permMod12 := noise.perm[..], noise.permMod12[..];
  }

  /** `Reseed` leaves the flag clear on a fresh generator, so the first noise
      evaluation after it seeds again from the clock and both reseeded
      tables are replaced. */
  method NoiseAfterReseed(d: seq<int>, clockDraws: seq<int>, i: Int32, j: Int32, xGreater: bool)
    returns (perm: seq<int>, permMod12: seq<int>)
    requires ValidDraws(256, d) && ValidDraws(256, clockDraws)
    ensures perm == ExpandPerm(FisherYates(P, clockDraws))
    ensures permMod12 == Mod12Table(perm)
  {
    var noise := new Noise();
    noise.Reseed(d);
    var gi0, gi1, gi2 := noise.NoiseGradients(i, j, xGreater, clockDraws);
    perm, permMod12 := noise.perm[..], noise.permMod12[..];
  }
}
