/** The similarity-transform estimator of align_transform.py: from three
    source points P and three target points Q it computes a scale s, a proper
    rotation R and a translation t (Kabsch / Umeyama with a reflection fix),
    then converts R to XYZ Euler angles and composes s, R, t into the 4x4
    matrix a scene graph takes as an object's world transform. */
module AlignTransform {
  import opened LinAlg
  import opened NdArrays

  // ===========================================================================
  // Results

  datatype Failure =
    | ShapeError        // a point array is not 3x3 (the two shape assertions)
    | DegenerateSource  // the source points coincide, so np.sum(P ** 2) == 0 over reals;
                        // in doubles numpy gives nan only when the centred entries round
                        // to exactly zero, and otherwise a finite, meaningless scale from
                        // a rounding-sized denominator: this error stands for every case

  datatype Result<T> = Ok(value: T) | Err(error: Failure)

  /** The estimated transform q = s * R @ p + t. */
  datatype Similarity = Similarity(scale: real, rotation: Mat3, translation: Vec3)

  /** The transform applied to a point: `s * R @ p + t`. */
  function Apply(tr: Similarity, p: Vec3): Vec3 {
    Add(MatVec(ScaleMat(tr.scale, tr.rotation), p), tr.translation)
  }

  // ===========================================================================
  // The singular value decomposition, which the model does not compute

  /** What `np.linalg.svd(H)` returns: U, the singular values S, and Vt. */
  datatype Svd = Svd(u: Mat3, s: Vec3, vt: Mat3)

  /** `d` is a singular value decomposition of `h`: U and Vt orthonormal, the
      singular values non-negative and in descending order, H = U diag(S) Vt. */
  predicate IsSvdOf(h: Mat3, d: Svd) {
    && Orthonormal(d.u) && Orthonormal(d.vt)
    && d.s.x >= d.s.y >= d.s.z >= 0.0
    && h == Mul(Mul(d.u, Diag(d.s)), d.vt)
  }

  // ===========================================================================
  // Steps 1 to 3: centroids, centering, cross-covariance

  /** `np.mean(points, axis=0)`: the mean of the three rows, the point from
      which the three deviations sum to zero. */
  function Centroid(points: Mat3): (c: Vec3)
    ensures Add(Add(Sub(points.r0, c), Sub(points.r1, c)), Sub(points.r2, c)) == Vec3(0.0, 0.0, 0.0)
  {
    Vec3((points.r0.x + points.r1.x + points.r2.x) / 3.0,
         (points.r0.y + points.r1.y + points.r2.y) / 3.0,
         (points.r0.z + points.r1.z + points.r2.z) / 3.0)
  }

  /** `(points - centroid).T`: the points minus their centroid, one point per
      column. Each row holds one coordinate of the three points, and it sums
      to zero. */
  function Centered(points: Mat3): (m: Mat3)
    ensures Total(m.r0) == 0.0 && Total(m.r1) == 0.0 && Total(m.r2) == 0.0
  {
    var c := Centroid(points);
    Transpose(Mat3(Sub(points.r0, c), Sub(points.r1, c), Sub(points.r2, c)))
  }

  /** The centroid is the only point whose deviations sum to zero. */
  lemma CentroidUnique(points: Mat3, c: Vec3)
    requires Add(Add(Sub(points.r0, c), Sub(points.r1, c)), Sub(points.r2, c)) == Vec3(0.0, 0.0, 0.0)
    ensures c == Centroid(points)
  {
  }

  /** `H = P @ Q.T` for the centered P and Q. */
  function CrossCovariance(p: Mat3, q: Mat3): Mat3 {
    Mul(Centered(p), Transpose(Centered(q)))
  }

  /** Every point of the triple moved by `d`. */
  function Shift(points: Mat3, d: Vec3): Mat3 {
    Mat3(Add(points.r0, d), Add(points.r1, d), Add(points.r2, d))
  }

  /** Moving a triple moves its centroid by the same amount and leaves the
      centered points unchanged. */
  lemma CenteredIgnoresShift(points: Mat3, d: Vec3)
    ensures Centroid(Shift(points, d)) == Add(Centroid(points), d)
    ensures Centered(Shift(points, d)) == Centered(points)
  {
    var c := Centroid(points);
    var s := Shift(points, d);
    assert Centroid(s) == Add(c, d);
    assert Sub(s.r0, Add(c, d)) == Sub(points.r0, c);
    assert Sub(s.r1, Add(c, d)) == Sub(points.r1, c);
    assert Sub(s.r2, Add(c, d)) == Sub(points.r2, c);
  }

  /** H, and so everything the solver derives from its SVD, does not depend on
      where either triple is placed. */
  lemma CrossCovarianceIgnoresShift(p: Mat3, q: Mat3, dp: Vec3, dq: Vec3)
    ensures CrossCovariance(Shift(p, dp), Shift(q, dq)) == CrossCovariance(p, q)
  {
    CenteredIgnoresShift(p, dp);
    CenteredIgnoresShift(q, dq);
  }

  // ===========================================================================
  // Step 4: for three points the smallest singular value of H is zero

  /** A matrix whose rows each sum to zero is singular: its columns add up to
      the zero vector. */
  lemma RowsSumZeroSingular(m: Mat3)
    requires Total(m.r0) == 0.0 && Total(m.r1) == 0.0 && Total(m.r2) == 0.0
    ensures Det(m) == 0.0
  {
    assert m == Mat3(Vec3(m.r0.x, m.r0.y, -m.r0.x - m.r0.y), Vec3(m.r1.x, m.r1.y, -m.r1.x - m.r1.y),
                     Vec3(m.r2.x, m.r2.y, -m.r2.x - m.r2.y));
    DependentColumnsSingular(m.r0.x, m.r0.y, m.r1.x, m.r1.y, m.r2.x, m.r2.y);
  }

  lemma DependentColumnsSingular(a: real, b: real, d: real, e: real, g: real, h: real)
    ensures Det(Mat3(Vec3(a, b, -a - b), Vec3(d, e, -d - e), Vec3(g, h, -g - h))) == 0.0
  {
  }

  /** A product with a zero factor is zero: det(H) = det(P) * det(Q.T) with det(P) = 0, for CrossCovarianceSingular. */
  lemma ZeroFactor(x: real, a: real, b: real)
    requires x == a * b && a == 0.0
    ensures x == 0.0
  {
  }

  /** H = P @ Q.T is singular, since the centered P is. */
  lemma CrossCovarianceSingular(p: Mat3, q: Mat3)
    ensures Det(CrossCovariance(p, q)) == 0.0
  {
    var pc, qct := Centered(p), Transpose(Centered(q));
    RowsSumZeroSingular(pc);
    DetMul(pc, qct);
    ZeroFactor(Det(CrossCovariance(p, q)), Det(pc), Det(qct));
  }

  lemma DetDiag(s: Vec3)
    ensures Det(Diag(s)) == Times(Times(s.x, s.y), s.z)
  {
  }

  /** det(H) = det(U) * det(diag S) * det(Vt) = 0 with det(U), det(Vt) = ±1 forces det(diag S) = 0, for SingularSmallestValue. */
  lemma UnitFactorsZero(x: real, y: real, w: real, a: real, g: real)
    requires x == y * w && y == a * g && x == 0.0
    requires (w == 1.0 || w == -1.0) && (a == 1.0 || a == -1.0)
    ensures g == 0.0
  {
  }

  /** Three ordered non-negative reals whose product is zero have a zero last. */
  lemma OrderedProductZero(x: real, y: real, z: real)
    requires x >= y >= z >= 0.0 && Times(Times(x, y), z) == 0.0
    ensures z == 0.0
  {
    if z > 0.0 {
      TimesPositive(x, y);
      TimesPositive(Times(x, y), z);
    }
  }

  /** A singular matrix's smallest singular value is zero. */
  lemma SingularSmallestValue(h: Mat3, d: Svd)
    requires IsSvdOf(h, d) && Det(h) == 0.0
    ensures d.s.z == 0.0
  {
    var ud := Mul(d.u, Diag(d.s));
    DetMul(ud, d.vt);
    DetMul(d.u, Diag(d.s));
    OrthonormalDet(d.u);
    OrthonormalDet(d.vt);
    UnitFactorsZero(Det(h), Det(ud), Det(d.vt), Det(d.u), Det(Diag(d.s)));
    DetDiag(d.s);
    OrderedProductZero(d.s.x, d.s.y, d.s.z);
  }

  /** For three point pairs H has rank at most two, so its smallest singular
      value is zero. The reflection fix therefore never changes the trace
      D S (D = diag(1, 1, -1) when V's last column is negated) that the
      Kabsch / Umeyama scale calls for: `np.sum(S)` is that trace. */
  lemma SmallestSingularValueZero(p: Mat3, q: Mat3, d: Svd)
    requires IsSvdOf(CrossCovariance(p, q), d)
    ensures d.s.z == 0.0
    ensures Total(d.s) == d.s.x + d.s.y - d.s.z
  {
    CrossCovarianceSingular(p, q);
    SingularSmallestValue(CrossCovariance(p, q), d);
  }

  // ===========================================================================
  // Step 6: the denominator of the scale

  /** `np.sum(P ** 2)` for the centered source points. */
  function SourceEnergy(p: Mat3): (e: real)
    ensures e >= 0.0
  {
    SumSquaresNonNegative(Centered(p));
    SumSquares(Centered(p))
  }

  /** A real product kept behind a function, so that the sign facts below are
      stated about one term per square. */
  function Times(a: real, b: real): real {
    a * b
  }

  lemma TimesPositive(a: real, b: real)
    requires a > 0.0 && b > 0.0
    ensures Times(a, b) > 0.0
  {
  }

  lemma TimesNegative(a: real, b: real)
    requires a < 0.0 && b < 0.0
    ensures Times(a, b) > 0.0
  {
  }

  lemma TimesZero(a: real, b: real)
    requires a == 0.0
    ensures Times(a, b) == 0.0
  {
  }

  /** A square is never negative, and it is positive unless its root is zero. */
  lemma SquareSign(a: real)
    ensures Times(a, a) >= 0.0 && (a != 0.0 ==> Times(a, a) > 0.0)
  {
    if a > 0.0 {
      TimesPositive(a, a);
    } else if a < 0.0 {
      TimesNegative(a, a);
    } else {
      TimesZero(a, a);
    }
  }

  lemma SelfDotSquares(v: Vec3)
    ensures Dot(v, v) == Times(v.x, v.x) + Times(v.y, v.y) + Times(v.z, v.z)
  {
  }

  lemma SelfDotNonNegative(v: Vec3)
    ensures Dot(v, v) >= 0.0
  {
    SelfDotSquares(v);
    SquareSign(v.x);
    SquareSign(v.y);
    SquareSign(v.z);
  }

  lemma SelfDotPositive(v: Vec3)
    requires v != Vec3(0.0, 0.0, 0.0)
    ensures Dot(v, v) > 0.0
  {
    SelfDotSquares(v);
    SquareSign(v.x);
    SquareSign(v.y);
    SquareSign(v.z);
    assert v.x != 0.0 || v.y != 0.0 || v.z != 0.0;
  }

  lemma SumSquaresNonNegative(m: Mat3)
    ensures SumSquares(m) >= 0.0
  {
    SelfDotNonNegative(m.r0);
    SelfDotNonNegative(m.r1);
    SelfDotNonNegative(m.r2);
  }

  /** Only the zero vector has a zero squared length. */
  lemma SquaresVanish(v: Vec3)
    requires Dot(v, v) == 0.0
    ensures v == Vec3(0.0, 0.0, 0.0)
  {
    if v != Vec3(0.0, 0.0, 0.0) {
      SelfDotPositive(v);
    }
  }

  const Zero3: Mat3 := Mat3(Vec3(0.0, 0.0, 0.0), Vec3(0.0, 0.0, 0.0), Vec3(0.0, 0.0, 0.0))

  lemma NonNegativeSumZero(a: real, b: real, c: real)
    requires a >= 0.0 && b >= 0.0 && c >= 0.0 && a + b + c == 0.0
    ensures a == 0.0 && b == 0.0 && c == 0.0
  {
  }

  /** A matrix whose squared entries sum to zero is zero. */
  lemma SumSquaresVanish(m: Mat3)
    requires SumSquares(m) == 0.0
    ensures m == Zero3
  {
    SelfDotNonNegative(m.r0);
    SelfDotNonNegative(m.r1);
    SelfDotNonNegative(m.r2);
    NonNegativeSumZero(Dot(m.r0, m.r0), Dot(m.r1, m.r1), Dot(m.r2, m.r2));
    SquaresVanish(m.r0);
    SquaresVanish(m.r1);
    SquaresVanish(m.r2);
  }

  /** Zero source energy forces the three source points onto their centroid. */
  lemma ZeroEnergyCoincident(p: Mat3)
    requires SourceEnergy(p) == 0.0
    ensures p.r0 == p.r1 == p.r2
  {
    var m := Centered(p);
    assert SumSquares(m) == 0.0;
    SumSquaresVanish(m);
    CenteredZeroCoincident(p);
  }

  /** Points that all sit on their centroid coincide. */
  lemma CenteredZeroCoincident(p: Mat3)
    requires Centered(p) == Zero3
    ensures p.r0 == p.r1 == p.r2
  {
    var c := Centroid(p);
    assert Transpose(Centered(p)) == Mat3(Sub(p.r0, c), Sub(p.r1, c), Sub(p.r2, c));
  }

  lemma CoincidentZeroEnergy(p: Mat3)
    requires p.r0 == p.r1 == p.r2
    ensures SourceEnergy(p) == 0.0
  {
    assert Centroid(p) == p.r0;
    assert Centered(p) == Zero3;
  }

  /** The denominator of the scale is zero exactly when the three source points
      coincide; collinear but distinct points still give a positive value. */
  lemma SourceEnergyZeroIffCoincident(p: Mat3)
    ensures SourceEnergy(p) == 0.0 <==> p.r0 == p.r1 == p.r2
  {
    if SourceEnergy(p) == 0.0 {
      ZeroEnergyCoincident(p);
    }
    if p.r0 == p.r1 == p.r2 {
      CoincidentZeroEnergy(p);
    }
  }

  // ===========================================================================
  // Step 5: the rotation and its reflection correction

  /** Two products sharing the factor det(U.T) whose other factors are opposite are opposite, for ReflectionNegatesDet. */
  lemma NegatedProduct(x: real, y: real, a: real, c: real, b: real)
    requires x == a * b && y == c * b && a == -c
    ensures x == -y
  {
  }

  /** Negating the last column of V negates det(V @ U.T), whatever U and V are. */
  lemma ReflectionNegatesDet(v: Mat3, u: Mat3)
    ensures Det(Mul(NegateLastColumn(v), Transpose(u))) == -Det(Mul(v, Transpose(u)))
  {
    DetMul(NegateLastColumn(v), Transpose(u));
    DetMul(v, Transpose(u));
    DetNegateLastColumn(v);
    NegatedProduct(Det(Mul(NegateLastColumn(v), Transpose(u))), Det(Mul(v, Transpose(u))),
                   Det(NegateLastColumn(v)), Det(v), Det(Transpose(u)));
  }

  /** `R = V @ U.T` with V = Vt.T, recomputed with V's last column negated when
      det(R) < 0. The correction turns the sign of det(R) and keeps its size. */
  function ProperRotation(u: Mat3, vt: Mat3): (r: Mat3)
    ensures Det(r) == Abs(Det(Mul(Transpose(vt), Transpose(u))))
  {
    var v := Transpose(vt);
    var candidate := Mul(v, Transpose(u));
    ReflectionNegatesDet(v, u);
    if Det(candidate) < 0.0 then Mul(NegateLastColumn(v), Transpose(u)) else candidate
  }

  /** With U and Vt orthonormal, the corrected R is a proper rotation:
      orthonormal with determinant +1. */
  lemma ProperRotationIsRotation(u: Mat3, vt: Mat3)
    requires Orthonormal(u) && Orthonormal(vt)
    ensures Orthonormal(ProperRotation(u, vt)) && Det(ProperRotation(u, vt)) == 1.0
  {
    var v := Transpose(vt);
    var ut := Transpose(u);
    TransposeOrthonormal(vt);
    TransposeOrthonormal(u);
    NegateLastColumnOrthonormal(v);
    OrthonormalMul(v, ut);
    OrthonormalMul(NegateLastColumn(v), ut);
    OrthonormalDet(ProperRotation(u, vt));
  }

  /** The rows of an `array2` holding a 3x3 matrix. */
  function MatOf(a: array2<real>): Mat3
    reads a
    requires a.Length0 == 3 && a.Length1 == 3
  {
    Mat3(Vec3(a[0, 0], a[0, 1], a[0, 2]), Vec3(a[1, 0], a[1, 1], a[1, 2]), Vec3(a[2, 0], a[2, 1], a[2, 2]))
  }

  /** `V[:, -1] *= -1`, in place. */
  method FlipLastColumn(v: array2<real>)
    requires v.Length0 == 3 && v.Length1 == 3
    modifies v
    ensures MatOf(v) == NegateLastColumn(old(MatOf(v)))
  {
    for i := 0 to 3
      invariant forall a, b :: 0 <= a < 3 && 0 <= b < 3 ==>
        v[a, b] == if b == 2 && a < i then -old(v[a, b]) else old(v[a, b])
    {
      v[i, 2] := -v[i, 2];
    }
  }

  // ===========================================================================
  // compute_similarity_transform

  lemma QuotientNonNegative(a: real, b: real)
    requires a >= 0.0 && b > 0.0
    ensures a / b >= 0.0
  {
  }

  /** compute_similarity_transform(p_points, q_points), with `svd` standing for
      np.linalg.svd. A shape other than 3x3 fails before any arithmetic; three
      coincident source points fail at the division; otherwise the scale is
      the sum of the singular values over the source energy, R is the
      reflection-corrected V U^T (det(R) >= 0 always; when `svd` returns a
      decomposition, R is a proper rotation, the scale is non-negative and the
      smallest singular value is zero), and the translation takes the source
      centroid exactly onto the target centroid. */
  method ComputeSimilarityTransform(pPoints: Array, qPoints: Array, svd: Mat3 -> Svd)
    returns (res: Result<Similarity>)
    ensures res == Err(ShapeError) <==> !(IsShape33(pPoints) && IsShape33(qPoints))
    ensures IsShape33(pPoints) && IsShape33(qPoints) ==>
      var p, q := ToMat3(pPoints), ToMat3(qPoints);
      var h := CrossCovariance(p, q);
      var d := svd(h);
      && (res == Err(DegenerateSource) <==> p.r0 == p.r1 == p.r2)
      && (res.Ok? ==>
            && SourceEnergy(p) > 0.0
            && res.value.scale == Total(d.s) / SourceEnergy(p)
            && res.value.rotation == ProperRotation(d.u, d.vt)
            && Det(res.value.rotation) >= 0.0
            && Apply(res.value, Centroid(p)) == Centroid(q)
            && (IsSvdOf(h, d) ==>
                  && Orthonormal(res.value.rotation)
                  && Det(res.value.rotation) == 1.0
                  && res.value.scale >= 0.0
                  && d.s.z == 0.0))
  {
    if !IsShape33(pPoints) || !IsShape33(qPoints) {
      return Err(ShapeError);
    }
    var p, q := ToMat3(pPoints), ToMat3(qPoints);

    // 1. centroids
    var pCentroid, qCentroid := Centroid(p), Centroid(q);
    // 2. centered points, one per column
    var pc, qc := Centered(p), Centered(q);
    // 3. cross-covariance
    var h := Mul(pc, Transpose(qc));
    // 4. SVD
    var d := svd(h);
    var vm := Transpose(d.vt);
    var v := new real[3, 3]((i, j) requires 0 <= i < 3 && 0 <= j < 3 => vm.At(i, j));
    assert MatOf(v) == vm;
    // 5. rotation, with the reflection correction
    var r := Mul(MatOf(v), Transpose(d.u));
    if Det(r) < 0.0 {
      FlipLastColumn(v);
      r := Mul(MatOf(v), Transpose(d.u));
    }
    assert r == ProperRotation(d.u, d.vt);
    // 6. uniform scale
    var energy := SumSquares(pc);
    SourceEnergyZeroIffCoincident(p);
    if energy == 0.0 {
      return Err(DegenerateSource);
    }
    var s := Total(d.s) / energy;
    // 7. translation
    var t := Sub(qCentroid, MatVec(ScaleMat(s, r), pCentroid));
    res := Ok(Similarity(s, r, t));

    if IsSvdOf(h, d) {
      ProperRotationIsRotation(d.u, d.vt);
      QuotientNonNegative(Total(d.s), energy);
      SmallestSingularValueZero(p, q, d);
    }
  }

  // ===========================================================================
  // rotation_matrix_to_euler_xyz

  /** |sy| below this value is the regular case; at or above it, gimbal lock. */
  const GimbalThreshold: real := 0.999999

  /** `np.pi` as Python prints it: the shortest decimal that reads back as the
      double nearest to pi. */
  const Pi: real := 3.141592653589793

  /** `np.degrees`: radians times 180 / pi, so that the result in degrees
      times pi is the angle in radians times 180; a quarter turn is 90. */
  function Degrees(rad: real): (deg: real)
    ensures deg * Pi == rad * 180.0
    ensures rad == Pi / 2.0 ==> deg == 90.0
    ensures rad == -Pi / 2.0 ==> deg == -90.0
  {
    rad * 180.0 / Pi
  }

  datatype EulerAngles = EulerAngles(rx: real, ry: real, rz: real)

  /** The regular branch is taken exactly when |-R[2, 0]| < 0.999999. */
  predicate IsRegular(r: Mat3): (b: bool)
    ensures b <==> -GimbalThreshold < r.r2.x < GimbalThreshold
  {
    Abs(-r.r2.x) < GimbalThreshold
  }

  /** rotation_matrix_to_euler_xyz(R) as written, `arcsin` and `atan2` standing
      for np.arcsin and np.arctan2. In the regular branch the angles are the
      arcsine of sy = -R[2, 0] and the arctangents of (R[2, 1], R[2, 2]) and
      (R[1, 0], R[0, 0]); at gimbal lock rz is 0, ry a quarter turn whose sign
      is the opposite of sy's, and rx the arctangent of (-R[1, 2], R[1, 1]). */
  function RotationMatrixToEulerXyz(r: Mat3, arcsin: real -> real, atan2: (real, real) -> real)
    : (e: EulerAngles)
    ensures IsRegular(r) ==>
      && e.rx == Degrees(atan2(r.r2.y, r.r2.z))
      && e.ry == Degrees(arcsin(-r.r2.x))
      && e.rz == Degrees(atan2(r.r1.x, r.r0.x))
    ensures !IsRegular(r) ==>
      && e.rx == Degrees(atan2(-r.r1.z, r.r1.y))
      && e.ry == (if -r.r2.x < 0.0 then 90.0 else -90.0)
      && e.rz == 0.0
  {
    var sy := -r.r2.x;
    if Abs(sy) < GimbalThreshold then
      EulerAngles(Degrees(atan2(r.r2.y, r.r2.z)), Degrees(arcsin(sy)), Degrees(atan2(r.r1.x, r.r0.x)))
    else
      EulerAngles(Degrees(atan2(-r.r1.z, r.r1.y)), Degrees(if sy < 0.0 then Pi / 2.0 else -Pi / 2.0), Degrees(0.0))
  }

  /** For a rotation matrix at gimbal lock, the pairs the regular branch would
      hand to atan2 are both within 1 - 0.999999^2 of the origin (in squared
      length), which is why the extractor stops using them there. */
  lemma GimbalLockInputsVanish(r: Mat3)
    requires Orthonormal(r) && !IsRegular(r)
    ensures r.r2.y * r.r2.y + r.r2.z * r.r2.z <= 1.0 - GimbalThreshold * GimbalThreshold
    ensures r.r1.x * r.r1.x + r.r0.x * r.r0.x <= 1.0 - GimbalThreshold * GimbalThreshold
  {
    UnitLastRowFirstColumn(r);
    AbsSquare(r.r2.x, GimbalThreshold);
  }

  /** The last row and the first column of a rotation are unit vectors. */
  lemma UnitLastRowFirstColumn(r: Mat3)
    requires Orthonormal(r)
    ensures r.r2.x * r.r2.x + r.r2.y * r.r2.y + r.r2.z * r.r2.z == 1.0
    ensures r.r0.x * r.r0.x + r.r1.x * r.r1.x + r.r2.x * r.r2.x == 1.0
  {
    OuterByRows(r);
    GramByColumns(r);
    assert Dot(r.r2, r.r2) == 1.0;
    assert Dot(r.Col(0), r.Col(0)) == 1.0;
  }

  lemma AbsSquare(x: real, k: real)
    requires k >= 0.0 && Abs(-x) >= k
    ensures x * x >= k * k
  {
    if x < 0.0 {
      assert -x >= k;
      assert (-x) * (-x) >= k * (-x) >= k * k;
    } else {
      assert x * x >= k * x >= k * k;
    }
  }

  // ---------------------------------------------------------------------------
  // At gimbal lock the pitch has the wrong sign.

  /** The rotation about the Y axis by +90 degrees (`turn` = 1) or -90 degrees
      (`turn` = -1). */
  function QuarterTurnY(turn: real): Mat3 {
    Mat3(Vec3(0.0, 0.0, turn), Vec3(0.0, 1.0, 0.0), Vec3(-turn, 0.0, 0.0))
  }

  /** The rotation about the X axis by the angle whose cosine and sine are c, s. */
  function RotationX(c: real, s: real): Mat3 {
    Mat3(Vec3(1.0, 0.0, 0.0), Vec3(0.0, c, -s), Vec3(0.0, s, c))
  }

  /** The XYZ Euler matrix Rz(0) Ry(90 * turn) Rx(a) of a gimbal-locked pose. */
  function GimbalPose(turn: real, c: real, s: real): Mat3 {
    Mul(QuarterTurnY(turn), RotationX(c, s))
  }

  lemma GimbalPoseEntries(turn: real, c: real, s: real)
    requires turn == 1.0 || turn == -1.0
    ensures var r := GimbalPose(turn, c, s);
      r.r2.x == -turn && r.r1.z == -s && r.r1.y == c && !IsRegular(r)
  {
  }

  /** As written, the extractor reports the opposite quarter turn for every
      pose Ry(+-90) Rx(a): for Ry(+90) Rx(a) it returns ry = -90, and the pose
      rebuilt with the returned pitch is not the matrix it was given. */
  lemma GimbalPitchAsWritten(turn: real, c: real, s: real, arcsin: real -> real, atan2: (real, real) -> real)
    requires turn == 1.0 || turn == -1.0
    ensures var e := RotationMatrixToEulerXyz(GimbalPose(turn, c, s), arcsin, atan2);
      e.ry == -90.0 * turn && GimbalPose(e.ry / 90.0, c, s) != GimbalPose(turn, c, s)
  {
    GimbalPoseEntries(turn, c, s);
  }

  /** The extractor with the gimbal-lock pitch taking the sign of sy, which is
      what the regular branch's arcsin(sy) approaches as |sy| nears 1. */
  function RotationMatrixToEulerXyzFixed(r: Mat3, arcsin: real -> real, atan2: (real, real) -> real)
    : (e: EulerAngles)
    ensures IsRegular(r) ==> e == RotationMatrixToEulerXyz(r, arcsin, atan2)
    ensures !IsRegular(r) ==>
      && e.rx == RotationMatrixToEulerXyz(r, arcsin, atan2).rx
      && e.ry == -RotationMatrixToEulerXyz(r, arcsin, atan2).ry
      && e.ry == (if -r.r2.x > 0.0 then 90.0 else -90.0)
      && e.rz == 0.0
  {
    if IsRegular(r) then
      RotationMatrixToEulerXyz(r, arcsin, atan2)
    else
      var sy := -r.r2.x;
      EulerAngles(Degrees(atan2(-r.r1.z, r.r1.y)), Degrees(if sy > 0.0 then Pi / 2.0 else -Pi / 2.0), Degrees(0.0))
  }

  /** The corrected extractor recovers a gimbal-locked pose Rz(0) Ry(90 * turn)
      Rx(a): the pitch that produced it, yaw 0, and the roll as the arctangent
      of (sin a, cos a). */
  lemma GimbalPitchFixedRoundTrip(turn: real, c: real, s: real, arcsin: real -> real, atan2: (real, real) -> real)
    requires turn == 1.0 || turn == -1.0
    ensures var e := RotationMatrixToEulerXyzFixed(GimbalPose(turn, c, s), arcsin, atan2);
      e.ry == 90.0 * turn && e.rz == 0.0 && e.rx == Degrees(atan2(s, c))
  {
    GimbalPoseEntries(turn, c, s);
  }

  // ===========================================================================
  // make_matrix_world

  /** The rows of an `array2` holding a 4x4 matrix. */
  function Mat4Of(a: array2<real>): Mat4
    reads a
    requires a.Length0 == 4 && a.Length1 == 4
  {
    Mat4(Vec4(a[0, 0], a[0, 1], a[0, 2], a[0, 3]), Vec4(a[1, 0], a[1, 1], a[1, 2], a[1, 3]),
         Vec4(a[2, 0], a[2, 1], a[2, 2], a[2, 3]), Vec4(a[3, 0], a[3, 1], a[3, 2], a[3, 3]))
  }

  /** `m` is laid out as a world matrix: s * R in the upper-left 3x3 block, t in
      the last column, and [0, 0, 0, 1] as the bottom row. */
  predicate IsWorldMatrix(m: Mat4, s: real, r: Mat3, t: Vec3) {
    && m.r0 == Vec4(s * r.r0.x, s * r.r0.y, s * r.r0.z, t.x)
    && m.r1 == Vec4(s * r.r1.x, s * r.r1.y, s * r.r1.z, t.y)
    && m.r2 == Vec4(s * r.r2.x, s * r.r2.y, s * r.r2.z, t.z)
    && m.r3 == Vec4(0.0, 0.0, 0.0, 1.0)
  }

  /** A world matrix maps [p; 1] to [s * R @ p + t; 1]. */
  lemma WorldMatrixMapsPoints(m: Mat4, s: real, r: Mat3, t: Vec3, p: Vec3)
    requires IsWorldMatrix(m, s, r, t)
    ensures MatVec4(m, Homogeneous(p)) == Homogeneous(Apply(Similarity(s, r, t), p))
  {
  }

  /** `m[:3, :3] = b`, in place. */
  method AssignUpperBlock(m: array2<real>, b: Mat3)
    requires m.Length0 == 4 && m.Length1 == 4
    modifies m
    ensures forall i, j :: 0 <= i < 4 && 0 <= j < 4 ==>
      m[i, j] == if i < 3 && j < 3 then b.At(i, j) else old(m[i, j])
  {
    for i := 0 to 3
      invariant forall a, c :: 0 <= a < 4 && 0 <= c < 4 ==>
        m[a, c] == if a < i && c < 3 then b.At(a, c) else old(m[a, c])
    {
      for j := 0 to 3
        invariant forall a, c :: 0 <= a < 4 && 0 <= c < 4 ==>
          m[a, c] == if (a < i && c < 3) || (a == i && c < j) then b.At(a, c) else old(m[a, c])
      {
        m[i, j] := b.At(i, j);
      }
    }
  }

  /** `m[:3, 3] = t`, in place. */
  method AssignLastColumn(m: array2<real>, t: Vec3)
    requires m.Length0 == 4 && m.Length1 == 4
    modifies m
    ensures forall i, j :: 0 <= i < 4 && 0 <= j < 4 ==>
      m[i, j] == if i < 3 && j == 3 then t.At(i) else old(m[i, j])
  {
    for i := 0 to 3
      invariant forall a, c :: 0 <= a < 4 && 0 <= c < 4 ==>
        m[a, c] == if a < i && c == 3 then t.At(a) else old(m[a, c])
    {
      m[i, 3] := t.At(i);
    }
  }

  /** make_matrix_world(s, R, t): a fresh 4x4 identity whose upper-left block is
      overwritten with s * R and whose last column, above the bottom row, with t. */
  method MakeMatrixWorld(s: real, r: Mat3, t: Vec3) returns (m: array2<real>)
    ensures fresh(m) && m.Length0 == 4 && m.Length1 == 4
    ensures IsWorldMatrix(Mat4Of(m), s, r, t)
    ensures forall p :: MatVec4(Mat4Of(m), Homogeneous(p)) == Homogeneous(Apply(Similarity(s, r, t), p))
  {
    m := new real[4, 4]((i, j) => if i == j then 1.0 else 0.0);
    var scaled := ScaleMat(s, r);
    AssignUpperBlock(m, scaled);
    AssignLastColumn(m, t);
    assert Mat4Of(m) == Mat4(Vec4(scaled.r0.x, scaled.r0.y, scaled.r0.z, t.x),
                             Vec4(scaled.r1.x, scaled.r1.y, scaled.r1.z, t.y),
                             Vec4(scaled.r2.x, scaled.r2.y, scaled.r2.z, t.z),
                             Vec4(0.0, 0.0, 0.0, 1.0));
    forall p
      ensures MatVec4(Mat4Of(m), Homogeneous(p)) == Homogeneous(Apply(Similarity(s, r, t), p))
    {
      WorldMatrixMapsPoints(Mat4Of(m), s, r, t, p);
    }
  }
}
