# Simplex noise: permutation tables, seeding and lattice hashing

A Dafny model of the integer, table-driven core of the Arduino `SimplexNoise`
class. It covers three parts.

- **Permutation-table builder `generatePerm`.** The 256-entry base table `p` is
  copied into a scratch buffer. The buffer is shuffled in place by Fisher–Yates
  for `i` from 255 down to 1, exchanging `i` with `j = random(i + 1)`. Then the
  512-entry `perm` gets two copies of the result, and `permMod12` gets each
  entry modulo 12. The random source is modelled as the sequence of its 255
  draws, where draw `k` lies in `[0, 255 - k]` (`ValidDraws`). The pure
  specification is `Permutation.FisherYates` and `Permutation.ExpandPerm`.
  The imperative loops are `SimplexNoise.ShuffledCopy` and
  `SimplexNoise.Noise.FillTables`, and each is proved against that
  specification. The constant `p` is proved to be a bijection of 0..255
  through its inverse table (`BaseTable.BaseIsBijection`), and so is every
  shuffle of it.
- **Seeding state machine.** `SimplexNoise.Noise` is a class holding `perm`,
  `permMod12` (arrays) and the `initialized` flag. `Init` builds the tables and
  sets the flag. `Reseed` builds the tables and leaves the flag alone.
  `NoiseGradients`, the integer part of `noise`, seeds itself from the clock
  only while the flag is clear. The clock seed is just another draw sequence
  (`clockDraws`).
- **Corner selection and lattice hash in `noise`.** `Lattice.MiddleCorner`
  picks `(i1, j1)`. `Lattice.CellByte` is `i & 255`. `Lattice.HashIndices` and
  `Lattice.GradientIndices` are the three `permMod12` reads. They are proved
  to stay inside the 512-entry tables and to yield gradient numbers below 12.
  They are also proved equal to a wrap-around reference hash over the
  256-entry shuffled table (`Lattice.CornerGradient`).

`i & 255` is written as Dafny's Euclidean `i % 256`. For a negative 32-bit
`i`, this is the low byte of its two's complement, which is what the mask
gives.

`reseed` (`SimplexNoise.cpp:81-83`) rebuilds the tables but, unlike
`init(seed)`, never sets `initialized`. So on a generator that was never
initialised, the next `noise` call seeds again from the clock and replaces the
reseeded tables (`SimplexNoise.NoiseAfterReseed`).

## Model

| member | source | states |
|---|---|---|
| Tables.Gradient | SimplexNoise.cpp:38-42 | each of the twelve gradients has components in {-1, 0, 1}, exactly two of them non-zero |
| Tables.DistinctIffSingleMultiplicity | SimplexNoise.cpp:45-59 | a table is free of repeats exactly when no value occurs twice in its multiset (both directions) |
| Tables.DistinctBytesCoverAll | SimplexNoise.cpp:45-59 | 256 pairwise different values in 0..255 include every value in 0..255 (counting argument) |
| BaseTable.BaseIsBijection | SimplexNoise.cpp:45-59 | the constant base table `p` has 256 entries, all bytes, pairwise different, and every byte occurs in it |
| Tables.BijectionPreserved | SimplexNoise.cpp:45-59 | any rearrangement (same multiset) of a bijection of 0..255 is a bijection of 0..255 |
| Permutation.Swap | SimplexNoise.cpp:101-103 | the temp exchange of positions `i` and `j`; its own contract gives only the length, and what it does is proved in `SwapExchanges` and `SwapIsPermutation` |
| Permutation.SwapExchanges | SimplexNoise.cpp:101-103 | one exchange puts `s[j]` at `i` and `s[i]` at `j` and leaves every other position unchanged |
| Permutation.SwapIsPermutation | SimplexNoise.cpp:101-103 | one exchange keeps the multiset of the table |
| Permutation.ShuffledIsPermutation | SimplexNoise.cpp:99-104 | after any number of shuffle steps the table has the multiset of the base table |
| Permutation.Shuffled | SimplexNoise.cpp:99-104 | the table after the first `n` iterations of the shuffle loop; its own contract gives only the length, and its meaning is proved in `ShuffledIsPermutation` and `ShuffleSettlesTail` |
| Permutation.FisherYates | SimplexNoise.cpp:99-104 | the complete shuffle loop, `i` from 255 down to 1; its own contract gives only the length, and its meaning is proved in `FisherYatesKeepsBijection` and `ExpandedShuffleIsPermutation` |
| Permutation.ShuffleSettlesTail | SimplexNoise.cpp:99-104 | once step `n` is done, the last `n` positions never change again, because each later `j` is at most the later `i` |
| Permutation.FisherYatesKeepsBijection | SimplexNoise.cpp:91-104 | shuffling a bijection of 0..255 with any valid draws gives a bijection of 0..255 |
| Permutation.ExpandPerm | SimplexNoise.cpp:106-108 | the doubled table, entry `k` being `t[k & 255]`; its own contract gives only the length 512, and its meaning is proved in `ExpandPermHalves` and `ExpandedTablesAgree` |
| Permutation.ExpandPermHalves | SimplexNoise.cpp:107-108 | both halves of the doubled table equal the shuffled table |
| Permutation.ExpandedShuffleIsPermutation | SimplexNoise.cpp:91-108 | `perm[0..255]` built from a shuffle has the multiset of the base table |
| Permutation.Mod12Table | SimplexNoise.cpp:109 | the companion table has the same length and every entry is a valid gradient number below 12 |
| Permutation.ExpandedTablesAgree | SimplexNoise.cpp:107-109 | `perm[k] == perm[k + 256]` for k in [0, 255] and `permMod12[k] == perm[k] % 12` for k in [0, 511] |
| Lattice.CellByte | SimplexNoise.cpp:149-150 | the masked coordinate is a byte congruent to the coordinate modulo 256 |
| Lattice.MiddleCorner | SimplexNoise.cpp:138-142 | exactly one of `i1`, `j1` is 1, and `i1 == 1` exactly when `x0 > y0` |
| Lattice.HashIndices | SimplexNoise.cpp:149-153 | for every cell, `ii + perm[jj] <= 510` and the other two read positions are at most 511, so no read leaves the 512-entry table |
| Lattice.GradientIndices | SimplexNoise.cpp:151-153 | `gi0`, `gi1`, `gi2` are below 12 and equal the `perm` entries at the hash positions modulo 12 |
| Lattice.CornerGradient | SimplexNoise.cpp:151-153 | the wrapped reference hash of a lattice corner is a valid gradient number |
| Lattice.CornerRead | SimplexNoise.cpp:151-153 | reading the doubled table without wrapping at an unwrapped corner position gives the wrapped reference hash |
| Lattice.GradientIndicesAreCornerHashes | SimplexNoise.cpp:149-153 | on tables built from a shuffle, the three gradient numbers are the reference hashes of corners `(i, j)`, `(i + i1, j + j1)` and `(i + 1, j + 1)` |
| Lattice.GradientIndicesPeriodic | SimplexNoise.cpp:149-153 | the gradient numbers repeat when `i` or `j` moves by 256 |
| SimplexNoise.Noise.constructor | SimplexNoise.cpp:62-66 | the tables start all zero, the flag starts false, and the held base table is `p`, a bijection of 0..255 |
| SimplexNoise.ShuffledCopy | SimplexNoise.cpp:88-104 | the copy loop and the in-place swap loop leave the buffer equal to the Fisher–Yates shuffle of `p` by the draws |
| SimplexNoise.Noise.FillTables | SimplexNoise.cpp:106-110 | the fill loop makes `perm` the doubled shuffled table and `permMod12` its entries modulo 12 |
| SimplexNoise.Noise.GeneratePerm | SimplexNoise.cpp:86-111 | the tables become the doubled shuffle of `p` and its mod-12 companion; `perm[0..255]` has the multiset of `p`; the halves agree; each half of `perm` is a bijection of 0..255; the flag is unchanged |
| SimplexNoise.Noise.Init | SimplexNoise.cpp:75-78 | the tables are built from the draws, each half of `perm` is a bijection of 0..255, and the flag is set |
| SimplexNoise.Noise.InitDefault | SimplexNoise.cpp:69-72 | the tables are built from the clock's draws, each half of `perm` is a bijection of 0..255, and the flag is set |
| SimplexNoise.Noise.Reseed | SimplexNoise.cpp:81-83 | the tables are built from the draws, each half of `perm` is a bijection of 0..255, and the flag keeps its old value |
| SimplexNoise.Noise.NoiseGradients | SimplexNoise.cpp:125-153 | if the flag was set the tables are unchanged, otherwise they are built from the clock; afterwards the flag is set, each half of `perm` is a bijection of 0..255, and the three gradient numbers are `GradientIndices` of the current tables |
| SimplexNoise.Noise.CornerGradients | SimplexNoise.cpp:138-153 | the straight-line corner selection and array reads (the array-reading twin of `GradientIndices`) compute `GradientIndices` and stay in bounds |
| SimplexNoise.GeneratedPermIsBijection | SimplexNoise.cpp:91-108 | for any valid draws, both halves of the generated `perm` are bijections of 0..255 |
| SimplexNoise.SeededTables | SimplexNoise.cpp:75-78 | a fresh generator seeded with draws `d` holds exactly the doubled shuffle of `p` by `d` and its mod-12 companion |
| SimplexNoise.InitIsDeterministic | SimplexNoise.cpp:86-111 | two generators seeded with the same draws end up with identical `perm` and `permMod12` |
| SimplexNoise.NoiseAfterInit | SimplexNoise.cpp:127-129 | a noise evaluation after `Init` keeps both tables the explicit draws built: `perm` is their doubled shuffle and `permMod12` its mod-12 companion |
| SimplexNoise.NoiseAfterReseed | SimplexNoise.cpp:127-129 | a noise evaluation after `Reseed` on a fresh generator replaces both tables with ones built from the clock: `perm` is the doubled shuffle by the clock's draws and `permMod12` its mod-12 companion |

## Left out

- Floating-point numerics are not modelled. This covers the skew and unskew with `F2`/`G2` and the radial falloff with the 70.0 scale. It also covers `dot`, `fastFloor`, `mapNoise`, `scaledNoise`, `fbm` and `scaledFbm`. In `NoiseGradients`, the cell `(i, j)` and the comparison `x0 > y0` are inputs instead.
- The Arduino `random`, `randomSeed` and `millis` are foreign calls. Each seeding takes the draws the seeded generator would produce, constrained only by the range `0 <= random(n) < n`. The mapping from a 32-bit seed to its draws is not modelled.
- `PROGMEM` storage and `pgm_read_byte` are modelled as an ordinary constant table (`Tables.P`), held as an immutable field, so the base table is never written.
- The tables and the flag are process-wide statics on the target. Here they are the fields of one `Noise` object, and concurrency is not modelled.
- The servo glue in `SimplexServo.h` is not part of this model.
- Lattice.CellByte: `i & 255` is stated as Euclidean `i % 256`. Its equality with the two's-complement mask on 32-bit values is argued in the comment, not proved on bit-vectors.
