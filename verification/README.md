# Spherical-harmonic lighting rotation (PRT), modelled in Dafny

This project models the rotation helpers of a Precomputed Radiance Transfer
renderer (`homework2/homework2/src/utils/tools.js`). The environment lighting is one
3 x 9 set of spherical-harmonic (SH) coefficients: three colour channels of nine values
each, with index 0 in band 0, 1..3 in band 1 and 4..8 in band 2. The material declares
one uniform per channel for it (`uPrecomputeLR`, `uPrecomputeLG`, `uPrecomputeLB`,
updated in real time), apart from the per-vertex transport attribute `aPrecomputeLT`
(`homework2/homework2/src/materials/PRTMaterial.js:5-9`). When the scene is rotated,
the code rotates this set of coefficients band by band:

- `computeSquareMatrix_3by3` and `computeSquareMatrix_5by5` build one band's rotation
  matrix by sampling. A holds, one row per fixed sample direction, that band's SH
  values. S holds the same values at the rotated directions. The band matrix is
  S * A^-1.
- `getRotationPrecomputeL` builds both band matrices once. For each channel it keeps
  the band 0 value and multiplies band 1 and band 2 by their matrices. It then packs
  the nine results into a `mat3`.
- `mat4Matrix2mathMatrix` cuts a 16-number transform into four rows of four.
- `getMat3ValueFromRGB` turns a 9 x 3 (coefficient by channel) table into three
  per-channel `mat3` values.

Files:

- `linear_algebra.dfy` (module `LinearAlgebra`): real vectors and row-list matrices
  with the inner product, products, identity, transpose and flattening. It also holds
  the algebra the proofs need: linearity, identity laws, associativity. The inverter
  is a parameter of type `Matrix -> Option<Matrix>`.
- `gl_matrix.dfy` (module `GlMatrix`): the gl-matrix calls the code makes.
  `vec4.transformMat4` is written out on 16 column-major numbers. `mat3.fromValues`
  is a nine-slot sequence.
- `tools.dfy` (module `Tools`): the five functions of `tools.js` and their properties.

Two collaborators are not in this code base, so they are parameters of the model:

- `SHEval(x, y, z, 3)` is `sh: SHBasis`, any total function from a point to nine
  reals.
- The library inverse `math.inv` is `inv: Inverter`. It returns `None` where the
  library would throw on a singular matrix. The band-matrix functions turn that into
  `Err(SingularSampleMatrix)`. Properties that need the inverse assume
  `Inverts(inv, A, n)`: `inv` returns a two-sided inverse of A.

Notes on the code's layout:

- `mat3.fromValues` takes its nine arguments in gl-matrix's column-major storage
  order. The model keeps argument k in slot k (`PackedChannel`). So, read as a
  matrix, band 0 and the first two band 1 values form the first column.
- `getRotationPrecomputeL` rotates one 3 x 9 set of SH coefficients per call, one
  channel after another with the same pair of band matrices.
- `getMat3ValueFromRGB` transposes a single 9 x 3 table.
- The two functions read their same-named inputs in transposed layouts.
  `getMat3ValueFromRGB` reads coefficient by channel (9 x 3). Its output, channel by
  coefficient, is exactly the layout `getRotationPrecomputeL` reads (`precompute_L[i][k]`
  with i < 3 and k < 9).

## Model

| member | source | states |
|---|---|---|
| `Tools.GetRotationPrecomputeL` | homework2/homework2/src/utils/tools.js:1-18 | Fails exactly when either band matrix fails. Otherwise it returns three packed channels. Each has slot 0 = `precomputeL[i][0]`, slots 1..3 = band-1 matrix times `precomputeL[i][1..3]` and slots 4..8 = band-2 matrix times `precomputeL[i][4..8]`. The same matrix pair, computed from the rotation alone, serves every channel. |
| `Tools.ZeroBandsStayZero` | homework2/homework2/src/utils/tools.js:9-15 | If a channel's band 1 and band 2 inputs are zero, its output slots 1..8 are zero and slot 0 keeps the band 0 input, whatever the band matrices. |
| `Tools.PackingIsLinear` | homework2/homework2/src/utils/tools.js:9-15 | The packed output of a*u + b*v is a times the output of u plus b times the output of v, including slot 0. |
| `Tools.IdentityBandsKeepCoefficients` | homework2/homework2/src/utils/tools.js:9-15 | With identity band matrices the packed channel equals the nine input coefficients. |
| `Tools.IdentityRotationKeepsLighting` | homework2/homework2/src/utils/tools.js:1-18 | Under the identity transform, given invertible sample matrices, each rotated channel equals its input coefficients. |
| `Tools.BandRotationMatrix` | homework2/homework2/src/utils/tools.js:20-53 | The sampled band matrix fails exactly when the inverter fails on A. Otherwise it has one row per sample direction. |
| `Tools.ComputeSquareMatrix3by3` | homework2/homework2/src/utils/tools.js:20-53 | Band 1 (indices 1..3) at directions (1,0,0), (0,0,1), (0,1,0) with w = 0. Fails exactly when A cannot be inverted. Otherwise it has 3 rows. |
| `Tools.ComputeSquareMatrix5by5` | homework2/homework2/src/utils/tools.js:55-102 | Band 2 (indices 4..8) at (1,0,0), (0,0,1), (k,k,0), (k,0,k), (0,k,k) with k = 1/sqrt(2). Fails exactly when A cannot be inverted. Otherwise it has 5 rows. |
| `Tools.SampleMatrix` | homework2/homework2/src/utils/tools.js:29-31 | A has one row per sample and `count` columns, taken from the SH values at the sample. |
| `Tools.RotateSamples` | homework2/homework2/src/utils/tools.js:34-39 | One transformed vector per sample direction. |
| `Tools.BandMatrixMapsSamples` | homework2/homework2/src/utils/tools.js:29-51 | If A has a two-sided inverse, the result M is square and M * A == S: it carries the sampled SH values onto the rotated samples' values. |
| `Tools.BandMatrixUnique` | homework2/homework2/src/utils/tools.js:29-51 | Any square M with M * A == S is the result: S * A^-1 is the only such matrix. |
| `Tools.SampleMatrixOfSameDirections` | homework2/homework2/src/utils/tools.js:42-48 | Sample lists that agree on x, y, z give the same matrix; w never reaches the evaluator. |
| `Tools.FixedSamplesGiveIdentity` | homework2/homework2/src/utils/tools.js:32-51 | A transform that leaves every sample direction in place gives the identity band matrix, given A invertible. |
| `Tools.IdentityRotationGivesIdentity3` | homework2/homework2/src/utils/tools.js:20-53 | The identity transform gives the 3x3 identity, given A invertible. |
| `Tools.IdentityRotationGivesIdentity5` | homework2/homework2/src/utils/tools.js:55-102 | The identity transform gives the 5x5 identity, given A invertible. |
| `Tools.BandMatricesIgnoreTranslation` | homework2/homework2/src/utils/tools.js:34-39 | Both band matrices depend only on the upper-left 3x3 block of the transform. The samples have w = 0, so the translation column and bottom row never count (lines 75-84 likewise). |
| `Tools.Mat4Matrix2MathMatrix` | homework2/homework2/src/utils/tools.js:104-116 | Returns a 4 x 4 with entry (i, j) = `flat[i*4+j]`. Its rows laid end to end are exactly the 16 inputs, each once and in order. |
| `Tools.MathMatrixIsTransposed` | homework2/homework2/src/utils/tools.js:104-116 | That 4 x 4 is the transpose of the matrix `transformMat4` applies, since gl-matrix storage is column-major. |
| `Tools.GetMat3ValueFromRGB` | homework2/homework2/src/utils/tools.js:118-127 | Returns three `mat3` values with `out[i][k] = in[k][i]` for every channel i < 3 and coefficient k < 9. |
| `Tools.RepackRoundTrip` | homework2/homework2/src/utils/tools.js:118-127 | Transposing the output recovers a 9 x 3 input exactly, so the repack is a pure reshape. |
| `GlMatrix.TransformMat4` | homework2/homework2/src/utils/tools.js:37-39 | `vec4.transformMat4` as the four sums gl-matrix computes. Its contract states that the result is the matrix-vector product of the column-major reading of the 16 numbers with the input. The same call rotates the band 2 samples (lines 80-84). |
| `Tools.SampleDirections` | homework2/homework2/src/utils/tools.js:23 | The sample constants `Band1Samples` (this line) and `Band2Samples` (lines 58-60) hold 3 and 5 samples. Every sample has w = 0. The band 1 samples are unit vectors. No two samples of a band share a direction. |
| `Tools.EvaluateIgnoresW` | homework2/homework2/src/utils/tools.js:42-44 | `Evaluate` passes only x, y, z to `SHEval`, as these calls do. So vectors that agree on x, y, z get the same coefficients, whatever their w. |
| `Tools.PackedChannel` | homework2/homework2/src/utils/tools.js:13-15 | The packing of one channel: slot 0 holds the band 0 coefficient, slots 1..3 the rotated band 1 and slots 4..8 the rotated band 2. Its contract states that a packing can only hold with a 3-row band 1 matrix and a 5-row band 2 matrix. |
| `GlMatrix.DirectionIgnoresTranslation` | homework2/homework2/src/utils/tools.js:37-39 | For w = 0 the transformed x, y, z depend only on the upper-left 3x3 block. |
| `GlMatrix.IdentityMat4Fixes` | homework2/homework2/src/utils/tools.js:37-39 | The identity transform leaves every vector unchanged. |
| `GlMatrix.Mat3FromValues` | homework2/homework2/src/utils/tools.js:13-15 | Argument k lands in slot k of the nine-slot result. |
| `LinearAlgebra.MatVec` | homework2/homework2/src/utils/tools.js:9-11 | `math.multiply` of a matrix and a vector. Its contract states that the product has one entry per matrix row. Its algebra is in `MatVecLinear` below. |
| `LinearAlgebra.MatMul` | homework2/homework2/src/utils/tools.js:51 | `math.multiply` of two matrices. Its contract states that the product of a and b has a's row count and b's width in every row. Its algebra is in `MatMulAssociative` below. |
| `LinearAlgebra.MatVecLinear` | homework2/homework2/src/utils/tools.js:9-11 | `math.multiply` of a matrix and a vector is linear in the vector. |
| `LinearAlgebra.MatMulAssociative` | homework2/homework2/src/utils/tools.js:51 | Matrix products, as `math.multiply` computes them, are associative on well-shaped arguments. |

## Left out

- `homework2/homework2/src/materials/PRTMaterial.js` is not part of this model. It declares shader uniform and attribute names and fetches shader source asynchronously, which is render glue and I/O.
- The formulas of `SHEval` are not part of this model, so it is a parameter. Properties that need the SH basis itself are not stated. These are orthogonality of the band matrices, composition of rotations, and agreement with the basis at rotated directions.
- Whether the sample matrices are invertible depends on `SHEval`, so it is a hypothesis (`Inverts`) of the lemmas that need it.
- The internals of `math.inv` are not modelled. The inverter is a parameter, and a thrown exception becomes `None` and then `Err(SingularSampleMatrix)`.
- Floating point is not modelled: all numbers are `real`. `mat3.fromValues` stores single precision, and 1/sqrt(2) is held as the decimal 0.7071067811865475. The only fact about that value any proof uses is that it is not 0, which keeps the band 2 samples pairwise distinct (`SampleDirections`).
- Object identity and the mathjs wrapper (`math.matrix`, the `_data` field) are not modelled: matrices are plain sequences. Because inputs are values, "does not modify `precompute_L`" holds by construction.
- Reading entries that do not exist is not modelled. The model instead requires every entry the code reads to exist: three channels of nine values, nine rows of three, 16 numbers. What the code does otherwise depends on where the read happens. A missing channel in `getRotationPrecomputeL` or a missing row in `getMat3ValueFromRGB` throws a TypeError. A missing band entry reaches `math.multiply` as `undefined`, which mathjs rejects with a TypeError. A missing band 0 entry becomes NaN in the `Float32Array` of `mat3.fromValues`. A missing entry in `mat4Matrix2mathMatrix` is pushed as `undefined`.
- Dimension errors are not modelled. `math.multiply` throws a DimensionError on mismatched shapes, while `MatVec` and `MatMul` are total and read a missing entry as 0. This cannot occur in the code: its shapes are fixed, and `math.inv` returns an n x n matrix. But with an arbitrary inverter that returns a non-square matrix, `BandRotationMatrix` returns `Ok` where the library would throw.
- Which band failed is not modelled. Both band matrices report the same `SingularSampleMatrix` error, so a failure of band 1 cannot be told apart from a failure of band 2. As in the code, band 1 is built first, and nothing is computed after the first failure.
