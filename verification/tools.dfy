/** Rotation of one 3 x 9 set of spherical-harmonic (SH) coefficients of
    the environment lighting for Precomputed Radiance Transfer, up to band 2
    (nine coefficients per colour channel: index 0 is band 0, 1..3 band 1,
    4..8 band 2).

    A band's rotation matrix is obtained by sampling: evaluate the band's SH
    values at fixed sample directions (the rows of A), evaluate them again at
    the rotated directions (the rows of S), and take S * A^-1. The SH
    evaluator and the matrix inverter are parameters of the model. */
module Tools {
  import opened LinearAlgebra
  import opened GlMatrix

  /** The nine SH values the evaluator returns for one direction */
  type SHCoefficients = s: seq<real> | |s| == 9
    witness [0.0, 0.0, 0.0, 0.0, 0.0, 0.0, 0.0, 0.0, 0.0]

  /** `SHEval(x, y, z, 3)`: the real SH basis of bands 0..2 at (x, y, z) */
  type SHBasis = (real, real, real) -> SHCoefficients

  datatype RotationError = SingularSampleMatrix

  datatype Result<T> = Ok(value: T) | Err(error: RotationError)

  /** Band 1 samples: the x, z and y axes, as directions (w = 0) */
  const Band1Samples: seq<Vec4> :=
    [Vec4(1.0, 0.0, 0.0, 0.0), Vec4(0.0, 0.0, 1.0, 0.0), Vec4(0.0, 1.0, 0.0, 0.0)]

  /** 1 / sqrt(2): the shortest decimal that reads back as the double
      `1 / Math.sqrt(2)`. The double itself is 0.70710678118654746..., so this
      value is close to it but not equal */
  const InvSqrt2: real := 0.7071067811865475

  /** Band 2 samples: the x and z axes and three diagonals */
  const Band2Samples: seq<Vec4> :=
    [Vec4(1.0, 0.0, 0.0, 0.0), Vec4(0.0, 0.0, 1.0, 0.0), Vec4(InvSqrt2, InvSqrt2, 0.0, 0.0),
     Vec4(InvSqrt2, 0.0, InvSqrt2, 0.0), Vec4(0.0, InvSqrt2, InvSqrt2, 0.0)]

  /** The SH basis at a 4-vector; w plays no part */
  function Evaluate(sh: SHBasis, d: Vec4): SHCoefficients {
    sh(d.x, d.y, d.z)
  }

  predicate SameDirection(a: Vec4, b: Vec4) {
    a.x == b.x && a.y == b.y && a.z == b.z
  }

  /** SHEval sees only x, y and z: vectors that agree there get the same
      coefficients, whatever their w */
  lemma EvaluateIgnoresW(sh: SHBasis, a: Vec4, b: Vec4)
    requires SameDirection(a, b)
    ensures Evaluate(sh, a) == Evaluate(sh, b)
  {
  }

  /** Every sample is a direction (w = 0); the band 1 samples are the unit
      x, z and y axes; the samples of each band are pairwise distinct */
  lemma SampleDirections()
    ensures |Band1Samples| == 3 && |Band2Samples| == 5
    ensures forall k :: 0 <= k < 3 ==> Band1Samples[k].w == 0.0
    ensures forall k :: 0 <= k < 5 ==> Band2Samples[k].w == 0.0
    ensures forall k :: 0 <= k < 3 ==>
      var d := Band1Samples[k]; d.x * d.x + d.y * d.y + d.z * d.z == 1.0
    ensures forall j, k :: 0 <= j < k < 3 ==> !SameDirection(Band1Samples[j], Band1Samples[k])
    ensures forall j, k :: 0 <= j < k < 5 ==> !SameDirection(Band2Samples[j], Band2Samples[k])
  {
  }

  /** One row per sample: its SH values at indices first .. first + count - 1 */
  function SampleMatrix(sh: SHBasis, samples: seq<Vec4>, first: nat, count: nat): (a: Matrix)
    requires first + count <= 9
    ensures IsMatrix(a, |samples|, count)
  {
    seq(|samples|, r requires 0 <= r < |samples| => Evaluate(sh, samples[r])[first..first + count])
  }

  function RotateSamples(rotation: Mat4, samples: seq<Vec4>): (rotated: seq<Vec4>)
    ensures |rotated| == |samples|
  {
    seq(|samples|, r requires 0 <= r < |samples| => TransformMat4(samples[r], rotation))
  }

  /** S * A^-1 for one band; the inverter's failure on A is the error */
  function BandRotationMatrix(rotation: Mat4, sh: SHBasis, inv: Inverter,
                              samples: seq<Vec4>, first: nat, count: nat): (r: Result<Matrix>)
    requires first + count <= 9
    ensures r.Err? <==> inv(SampleMatrix(sh, samples, first, count)).None?
    ensures r.Ok? ==> |r.value| == |samples|
  {
    var a := SampleMatrix(sh, samples, first, count);
    match inv(a)
    case None => Err(SingularSampleMatrix)
    case Some(aInverse) =>
      var s := SampleMatrix(sh, RotateSamples(rotation, samples), first, count);
      Ok(MatMul(s, aInverse))
  }

  /** `computeSquareMatrix_3by3`: the band 1 rotation matrix */
  function ComputeSquareMatrix3by3(rotation: Mat4, sh: SHBasis, inv: Inverter): (r: Result<Matrix>)
    ensures r.Err? <==> inv(SampleMatrix(sh, Band1Samples, 1, 3)).None?
    ensures r.Ok? ==> |r.value| == 3
  {
    BandRotationMatrix(rotation, sh, inv, Band1Samples, 1, 3)
  }

  /** `computeSquareMatrix_5by5`: the band 2 rotation matrix */
  function ComputeSquareMatrix5by5(rotation: Mat4, sh: SHBasis, inv: Inverter): (r: Result<Matrix>)
    ensures r.Err? <==> inv(SampleMatrix(sh, Band2Samples, 4, 5)).None?
    ensures r.Ok? ==> |r.value| == 5
  {
    BandRotationMatrix(rotation, sh, inv, Band2Samples, 4, 5)
  }

  /** When A is invertible, the band matrix M is n-by-n and carries the
      sampled SH values onto the rotated ones: M * A == S */
  lemma BandMatrixMapsSamples(rotation: Mat4, sh: SHBasis, inv: Inverter,
                              samples: seq<Vec4>, first: nat, count: nat)
    requires first + count <= 9 && |samples| == count > 0
    requires Inverts(inv, SampleMatrix(sh, samples, first, count), count)
    ensures BandRotationMatrix(rotation, sh, inv, samples, first, count).Ok?
    ensures var m := BandRotationMatrix(rotation, sh, inv, samples, first, count).value;
      IsMatrix(m, count, count)
      && MatMul(m, SampleMatrix(sh, samples, first, count))
         == SampleMatrix(sh, RotateSamples(rotation, samples), first, count)
  {
    var a := SampleMatrix(sh, samples, first, count);
    var s := SampleMatrix(sh, RotateSamples(rotation, samples), first, count);
    var b := inv(a).value;
    assert Width(b) == count;
    MatMulAssociative(s, b, a, count, count, count, count);
    MatMulIdentityRight(s, count, count);
  }

  /** ... and it is the only n-by-n matrix that does so */
  lemma BandMatrixUnique(rotation: Mat4, sh: SHBasis, inv: Inverter,
                         samples: seq<Vec4>, first: nat, count: nat, m: Matrix)
    requires first + count <= 9 && |samples| == count > 0
    requires Inverts(inv, SampleMatrix(sh, samples, first, count), count)
    requires IsMatrix(m, count, count)
    requires MatMul(m, SampleMatrix(sh, samples, first, count))
             == SampleMatrix(sh, RotateSamples(rotation, samples), first, count)
    ensures BandRotationMatrix(rotation, sh, inv, samples, first, count) == Ok(m)
  {
    var a := SampleMatrix(sh, samples, first, count);
    var b := inv(a).value;
    MatMulAssociative(m, a, b, count, count, count, count);
    MatMulIdentityRight(m, count, count);
  }

  /** Samples with the same x, y, z give the same sample matrix */
  lemma SampleMatrixOfSameDirections(sh: SHBasis, s1: seq<Vec4>, s2: seq<Vec4>, first: nat, count: nat)
    requires first + count <= 9 && |s1| == |s2|
    requires forall k :: 0 <= k < |s1| ==> SameDirection(s1[k], s2[k])
    ensures SampleMatrix(sh, s1, first, count) == SampleMatrix(sh, s2, first, count)
  {
    forall k | 0 <= k < |s1| ensures Evaluate(sh, s1[k]) == Evaluate(sh, s2[k]) {
      EvaluateIgnoresW(sh, s1[k], s2[k]);
    }
  }

  /** A transform that leaves every sample direction in place yields the
      identity band matrix */
  lemma FixedSamplesGiveIdentity(rotation: Mat4, sh: SHBasis, inv: Inverter,
                                 samples: seq<Vec4>, first: nat, count: nat)
    requires first + count <= 9 && |samples| == count
    requires Inverts(inv, SampleMatrix(sh, samples, first, count), count)
    requires forall k :: 0 <= k < |samples| ==> SameDirection(TransformMat4(samples[k], rotation), samples[k])
    ensures BandRotationMatrix(rotation, sh, inv, samples, first, count) == Ok(Identity(count))
  {
    SampleMatrixOfSameDirections(sh, RotateSamples(rotation, samples), samples, first, count);
  }

  /** The identity transform gives the identity 3x3 band 1 matrix */
  lemma IdentityRotationGivesIdentity3(sh: SHBasis, inv: Inverter)
    requires Inverts(inv, SampleMatrix(sh, Band1Samples, 1, 3), 3)
    ensures ComputeSquareMatrix3by3(IdentityMat4, sh, inv) == Ok(Identity(3))
  {
    forall k | 0 <= k < 3 ensures SameDirection(TransformMat4(Band1Samples[k], IdentityMat4), Band1Samples[k]) {
      IdentityMat4Fixes(Band1Samples[k]);
    }
    FixedSamplesGiveIdentity(IdentityMat4, sh, inv, Band1Samples, 1, 3);
  }

  /** The identity transform gives the identity 5x5 band 2 matrix */
  lemma IdentityRotationGivesIdentity5(sh: SHBasis, inv: Inverter)
    requires Inverts(inv, SampleMatrix(sh, Band2Samples, 4, 5), 5)
    ensures ComputeSquareMatrix5by5(IdentityMat4, sh, inv) == Ok(Identity(5))
  {
    forall k | 0 <= k < 5 ensures SameDirection(TransformMat4(Band2Samples[k], IdentityMat4), Band2Samples[k]) {
      IdentityMat4Fixes(Band2Samples[k]);
    }
    FixedSamplesGiveIdentity(IdentityMat4, sh, inv, Band2Samples, 4, 5);
  }

  /** Both band matrices depend only on the upper-left 3x3 block of the
      transform: its translation column and bottom row are never used */
  lemma BandMatricesIgnoreTranslation(rotation: Mat4, rotation': Mat4, sh: SHBasis, inv: Inverter)
    requires forall k :: 0 <= k < 12 && k % 4 != 3 ==> rotation[k] == rotation'[k]
    ensures ComputeSquareMatrix3by3(rotation, sh, inv) == ComputeSquareMatrix3by3(rotation', sh, inv)
    ensures ComputeSquareMatrix5by5(rotation, sh, inv) == ComputeSquareMatrix5by5(rotation', sh, inv)
  {
    forall k | 0 <= k < 3
      ensures SameDirection(RotateSamples(rotation, Band1Samples)[k], RotateSamples(rotation', Band1Samples)[k])
    {
      DirectionIgnoresTranslation(Band1Samples[k], rotation, rotation');
    }
    SampleMatrixOfSameDirections(sh, RotateSamples(rotation, Band1Samples),
                                 RotateSamples(rotation', Band1Samples), 1, 3);
    forall k | 0 <= k < 5
      ensures SameDirection(RotateSamples(rotation, Band2Samples)[k], RotateSamples(rotation', Band2Samples)[k])
    {
      DirectionIgnoresTranslation(Band2Samples[k], rotation, rotation');
    }
    SampleMatrixOfSameDirections(sh, RotateSamples(rotation, Band2Samples),
                                 RotateSamples(rotation', Band2Samples), 4, 5);
  }

  /** The packed layout of one rotated channel: slot 0 holds the band 0
      coefficient, slots 1..3 band 1 rotated by band1, slots 4..8 band 2
      rotated by band2 */
  predicate PackedChannel(packed: Mat3, coeffs: seq<real>, band1: Matrix, band2: Matrix): (ok: bool)
    requires |coeffs| >= 9
    ensures ok ==> |band1| == 3 && |band2| == 5
  {
    packed[0] == coeffs[0]
    && packed[1..4] == MatVec(band1, coeffs[1..4])
    && packed[4..] == MatVec(band2, coeffs[4..9])
  }

  /** `getRotationPrecomputeL`: builds the two band matrices once, then packs
      the rotated coefficients of each of the three channels */
  method GetRotationPrecomputeL(precomputeL: seq<seq<real>>, rotation: Mat4, sh: SHBasis, inv: Inverter)
    returns (result: Result<seq<Mat3>>)
    requires |precomputeL| >= 3
    requires forall i :: 0 <= i < 3 ==> |precomputeL[i]| >= 9
    ensures result.Err? <==> ComputeSquareMatrix3by3(rotation, sh, inv).Err?
                             || ComputeSquareMatrix5by5(rotation, sh, inv).Err?
    ensures result.Ok? ==> |result.value| == 3
    ensures result.Ok? ==> forall i :: 0 <= i < 3 ==>
      PackedChannel(result.value[i], precomputeL[i],
                    ComputeSquareMatrix3by3(rotation, sh, inv).value,
                    ComputeSquareMatrix5by5(rotation, sh, inv).value)
  {
    var rotMatBand1 := ComputeSquareMatrix3by3(rotation, sh, inv);
    if rotMatBand1.Err? {
      return Err(rotMatBand1.error);
    }
    var rotMatBand2 := ComputeSquareMatrix5by5(rotation, sh, inv);
    if rotMatBand2.Err? {
      return Err(rotMatBand2.error);
    }
    var band1, band2 := rotMatBand1.value, rotMatBand2.value;
    var packed: seq<Mat3> := [];
    for i := 0 to 3
      invariant |packed| == i
      invariant forall c :: 0 <= c < i ==> PackedChannel(packed[c], precomputeL[c], band1, band2)
    {
      var l := precomputeL[i];
      var rotSHBand1 := MatVec(band1, [l[1], l[2], l[3]]);
      var rotSHBand2 := MatVec(band2, [l[4], l[5], l[6], l[7], l[8]]);
      assert [l[1], l[2], l[3]] == l[1..4];
      assert [l[4], l[5], l[6], l[7], l[8]] == l[4..9];
      var channel := Mat3FromValues(l[0], rotSHBand1[0], rotSHBand1[1],
                                    rotSHBand1[2], rotSHBand2[0], rotSHBand2[1],
                                    rotSHBand2[2], rotSHBand2[3], rotSHBand2[4]);
      assert channel[1..4] == rotSHBand1 && channel[4..] == rotSHBand2;
      packed := packed + [channel];
    }
    return Ok(packed);
  }

  /** A channel whose band 1 and band 2 inputs are zero stays zero there,
      whatever the band matrices; its band 0 value is kept */
  lemma ZeroBandsStayZero(packed: Mat3, coeffs: seq<real>, band1: Matrix, band2: Matrix)
    requires |coeffs| >= 9 && PackedChannel(packed, coeffs, band1, band2)
    requires forall k :: 1 <= k < 9 ==> coeffs[k] == 0.0
    ensures packed[0] == coeffs[0]
    ensures forall k :: 1 <= k < 9 ==> packed[k] == 0.0
  {
    MatVecZero(band1, coeffs[1..4]);
    MatVecZero(band2, coeffs[4..9]);
    assert forall k :: 1 <= k < 4 ==> packed[k] == packed[1..4][k - 1];
    assert forall k :: 4 <= k < 9 ==> packed[k] == packed[4..][k - 4];
  }

  /** Rotating a channel is linear: the packing of a*u + b*v is a times the
      packing of u plus b times the packing of v */
  lemma PackingIsLinear(band1: Matrix, band2: Matrix, a: real, u: seq<real>, pu: Mat3,
                        b: real, v: seq<real>, pv: Mat3, pw: Mat3)
    requires IsMatrix(band1, 3, 3) && IsMatrix(band2, 5, 5)
    requires |u| >= 9 && |v| >= 9
    requires PackedChannel(pu, u, band1, band2) && PackedChannel(pv, v, band1, band2)
    requires PackedChannel(pw, Combine(a, u[..9], b, v[..9]), band1, band2)
    ensures pw == Combine(a, pu, b, pv)
  {
    var w := Combine(a, u[..9], b, v[..9]);
    forall k | 0 <= k < 3 ensures w[1..4][k] == Combine(a, u[1..4], b, v[1..4])[k] {
      assert w[1..4][k] == w[k + 1];
    }
    forall k | 0 <= k < 5 ensures w[4..9][k] == Combine(a, u[4..9], b, v[4..9])[k] {
      assert w[4..9][k] == w[k + 4];
    }
    assert w[1..4] == Combine(a, u[1..4], b, v[1..4]);
    assert w[4..9] == Combine(a, u[4..9], b, v[4..9]);
    MatVecLinear(band1, a, u[1..4], b, v[1..4]);
    MatVecLinear(band2, a, u[4..9], b, v[4..9]);
    forall k | 0 <= k < 9 ensures pw[k] == Combine(a, pu, b, pv)[k] {
      if 1 <= k < 4 {
        assert pw[k] == pw[1..4][k - 1] && pu[k] == pu[1..4][k - 1] && pv[k] == pv[1..4][k - 1];
      } else if 4 <= k {
        assert pw[k] == pw[4..][k - 4] && pu[k] == pu[4..][k - 4] && pv[k] == pv[4..][k - 4];
      }
    }
  }

  /** Identity band matrices hand every coefficient through unchanged */
  lemma IdentityBandsKeepCoefficients(packed: Mat3, coeffs: seq<real>)
    requires |coeffs| >= 9 && PackedChannel(packed, coeffs, Identity(3), Identity(5))
    ensures packed == coeffs[..9]
  {
    MatVecIdentity(coeffs[1..4]);
    MatVecIdentity(coeffs[4..9]);
    assert packed == packed[..1] + packed[1..4] + packed[4..];
    assert coeffs[..9] == coeffs[..1] + coeffs[1..4] + coeffs[4..9];
  }

  /** Under the identity transform the rotated lighting equals the input */
  lemma IdentityRotationKeepsLighting(sh: SHBasis, inv: Inverter, coeffs: seq<real>, packed: Mat3)
    requires Inverts(inv, SampleMatrix(sh, Band1Samples, 1, 3), 3)
    requires Inverts(inv, SampleMatrix(sh, Band2Samples, 4, 5), 5)
    requires |coeffs| >= 9
    requires PackedChannel(packed, coeffs, ComputeSquareMatrix3by3(IdentityMat4, sh, inv).value,
                           ComputeSquareMatrix5by5(IdentityMat4, sh, inv).value)
    ensures packed == coeffs[..9]
  {
    IdentityRotationGivesIdentity3(sh, inv);
    IdentityRotationGivesIdentity5(sh, inv);
    IdentityBandsKeepCoefficients(packed, coeffs);
  }

  /** `mat4Matrix2mathMatrix`: the 16 stored numbers cut into four rows of four */
  method Mat4Matrix2MathMatrix(rotation: Mat4) returns (mathMatrix: Matrix)
    ensures IsMatrix(mathMatrix, 4, 4)
    ensures forall i, j :: 0 <= i < 4 && 0 <= j < 4 ==> mathMatrix[i][j] == rotation[i * 4 + j]
    ensures Flatten(mathMatrix) == rotation
  {
    mathMatrix := [];
    for i := 0 to 4
      invariant IsMatrix(mathMatrix, i, 4)
      invariant forall i', j :: 0 <= i' < i && 0 <= j < 4 ==> mathMatrix[i'][j] == rotation[i' * 4 + j]
      invariant Flatten(mathMatrix) == rotation[..i * 4]
    {
      var r := [];
      for j := 0 to 4
        invariant r == rotation[i * 4..i * 4 + j]
      {
        r := r + [rotation[i * 4 + j]];
      }
      FlattenAppend(mathMatrix, r);
      assert rotation[..(i + 1) * 4] == rotation[..i * 4] + r;
      mathMatrix := mathMatrix + [r];
    }
    assert rotation[..16] == rotation;
  }

  /** The rows from Mat4Matrix2MathMatrix are the transpose of the matrix
      that transformMat4 applies: gl-matrix storage is column-major */
  lemma MathMatrixIsTransposed(rotation: Mat4, mathMatrix: Matrix)
    requires IsMatrix(mathMatrix, 4, 4)
    requires forall i, j :: 0 <= i < 4 && 0 <= j < 4 ==> mathMatrix[i][j] == rotation[i * 4 + j]
    ensures Transpose(mathMatrix) == ColumnMajor(rotation)
  {
    var t := Transpose(mathMatrix);
    assert Width(mathMatrix) == 4;
    forall r | 0 <= r < 4 ensures t[r] == ColumnMajor(rotation)[r] {
      forall c | 0 <= c < 4 ensures t[r][c] == ColumnMajor(rotation)[r][c] {
        assert t[r][c] == mathMatrix[c][r];
      }
    }
  }

  /** `getMat3ValueFromRGB`: a coefficient-by-channel table (9 x 3) becomes
      three per-channel Mat3 values (3 x 9) */
  method GetMat3ValueFromRGB(precomputeL: seq<seq<real>>) returns (colorMat3: seq<Mat3>)
    requires |precomputeL| >= 9
    requires forall k :: 0 <= k < 9 ==> |precomputeL[k]| >= 3
    ensures |colorMat3| == 3
    ensures forall i, k :: 0 <= i < 3 && 0 <= k < 9 ==> colorMat3[i][k] == precomputeL[k][i]
  {
    colorMat3 := [];
    for i := 0 to 3
      invariant |colorMat3| == i
      invariant forall i', k :: 0 <= i' < i && 0 <= k < 9 ==> colorMat3[i'][k] == precomputeL[k][i']
    {
      var p := precomputeL;
      colorMat3 := colorMat3 + [Mat3FromValues(p[0][i], p[1][i], p[2][i],
                                               p[3][i], p[4][i], p[5][i],
                                               p[6][i], p[7][i], p[8][i])];
    }
  }

  /** Repacking is a pure reshape: transposing the per-channel values back
      recovers a 9 x 3 table exactly */
  lemma RepackRoundTrip(precomputeL: Matrix, colorMat3: seq<Mat3>)
    requires IsMatrix(precomputeL, 9, 3)
    requires |colorMat3| == 3
    requires forall i, k :: 0 <= i < 3 && 0 <= k < 9 ==> colorMat3[i][k] == precomputeL[k][i]
    ensures Transpose(colorMat3) == precomputeL
  {
    var t := Transpose(colorMat3);
    assert Width(colorMat3) == 9;
    forall k | 0 <= k < 9 ensures t[k] == precomputeL[k] {
      forall i | 0 <= i < 3 ensures t[k][i] == precomputeL[k][i] {
        assert t[k][i] == colorMat3[i][k];
      }
    }
  }
}
