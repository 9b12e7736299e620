/** Fixed-size real linear algebra: the part of numpy that the similarity
    solver uses (3-vectors, 3x3 matrices, the 3x3 determinant), written out
    over `real` so that its algebraic laws can be proved. */
module LinAlg {

  datatype Vec3 = Vec3(x: real, y: real, z: real) {
    /** The i-th component, as numpy's `v[i]`. */
    function At(i: int): real
      requires 0 <= i < 3
    {
      if i == 0 then x else if i == 1 then y else z
    }
  }

  /** A 3x3 matrix stored by rows, as numpy stores `np.array([[..],[..],[..]])`. */
  datatype Mat3 = Mat3(r0: Vec3, r1: Vec3, r2: Vec3) {
    function Row(i: int): Vec3
      requires 0 <= i < 3
    {
      if i == 0 then r0 else if i == 1 then r1 else r2
    }

    /** The j-th column, as numpy's `m[:, j]`. */
    function Col(j: int): Vec3
      requires 0 <= j < 3
    {
      if j == 0 then Vec3(r0.x, r1.x, r2.x) else if j == 1 then Vec3(r0.y, r1.y, r2.y) else Vec3(r0.z, r1.z, r2.z)
    }

    /** The entry `m[i, j]`. */
    function At(i: int, j: int): real
      requires 0 <= i < 3 && 0 <= j < 3
    {
      Row(i).At(j)
    }
  }

  /** Homogeneous 4-vectors and 4x4 matrices (rows), for the scene-graph matrix. */
  datatype Vec4 = Vec4(x: real, y: real, z: real, w: real)

  datatype Mat4 = Mat4(r0: Vec4, r1: Vec4, r2: Vec4, r3: Vec4)

  function Dot4(a: Vec4, b: Vec4): real { a.x * b.x + a.y * b.y + a.z * b.z + a.w * b.w }

  /** The matrix-vector product `m @ v` of a 4x4 matrix. */
  function MatVec4(m: Mat4, v: Vec4): Vec4 {
    Vec4(Dot4(m.r0, v), Dot4(m.r1, v), Dot4(m.r2, v), Dot4(m.r3, v))
  }

  /** The point `p` in homogeneous coordinates `[p; 1]`. */
  function Homogeneous(p: Vec3): Vec4 { Vec4(p.x, p.y, p.z, 1.0) }

  function Abs(x: real): real { if x < 0.0 then -x else x }

  function Add(a: Vec3, b: Vec3): Vec3 { Vec3(a.x + b.x, a.y + b.y, a.z + b.z) }

  function Sub(a: Vec3, b: Vec3): Vec3 { Vec3(a.x - b.x, a.y - b.y, a.z - b.z) }

  function Dot(a: Vec3, b: Vec3): real { a.x * b.x + a.y * b.y + a.z * b.z }

  function Cross(a: Vec3, b: Vec3): Vec3 {
    Vec3(a.y * b.z - a.z * b.y, a.z * b.x - a.x * b.z, a.x * b.y - a.y * b.x)
  }

  /** The scalar triple product u . (v x w). */
  function Triple(u: Vec3, v: Vec3, w: Vec3): real { Dot(u, Cross(v, w)) }

  /** Sum of the three components, as `np.sum` of a 3-vector. */
  function Total(v: Vec3): real { v.x + v.y + v.z }

  const Identity: Mat3 := Mat3(Vec3(1.0, 0.0, 0.0), Vec3(0.0, 1.0, 0.0), Vec3(0.0, 0.0, 1.0))

  /** The diagonal matrix with the components of `d` on its diagonal. */
  function Diag(d: Vec3): Mat3 {
    Mat3(Vec3(d.x, 0.0, 0.0), Vec3(0.0, d.y, 0.0), Vec3(0.0, 0.0, d.z))
  }

  function Transpose(m: Mat3): Mat3 {
    Mat3(Vec3(m.r0.x, m.r1.x, m.r2.x), Vec3(m.r0.y, m.r1.y, m.r2.y), Vec3(m.r0.z, m.r1.z, m.r2.z))
  }

  /** The row vector `c` times `b`: the combination c.x*b.r0 + c.y*b.r1 + c.z*b.r2 of b's rows. */
  function VecMat(c: Vec3, b: Mat3): Vec3 {
    Vec3(c.x * b.r0.x + c.y * b.r1.x + c.z * b.r2.x,
         c.x * b.r0.y + c.y * b.r1.y + c.z * b.r2.y,
         c.x * b.r0.z + c.y * b.r1.z + c.z * b.r2.z)
  }

  /** The matrix product `a @ b`. */
  function Mul(a: Mat3, b: Mat3): Mat3 {
    Mat3(VecMat(a.r0, b), VecMat(a.r1, b), VecMat(a.r2, b))
  }

  /** The matrix-vector product `m @ v`. */
  function MatVec(m: Mat3, v: Vec3): Vec3 {
    Vec3(Dot(m.r0, v), Dot(m.r1, v), Dot(m.r2, v))
  }

  /** The element-wise product `k * m`. */
  function ScaleMat(k: real, m: Mat3): Mat3 {
    Mat3(Vec3(k * m.r0.x, k * m.r0.y, k * m.r0.z),
         Vec3(k * m.r1.x, k * m.r1.y, k * m.r1.z),
         Vec3(k * m.r2.x, k * m.r2.y, k * m.r2.z))
  }

  /** `m` with its last column negated, the value of `m[:, -1] *= -1`. */
  function NegateLastColumn(m: Mat3): Mat3 {
    Mat3(Vec3(m.r0.x, m.r0.y, -m.r0.z), Vec3(m.r1.x, m.r1.y, -m.r1.z), Vec3(m.r2.x, m.r2.y, -m.r2.z))
  }

  /** `np.sum(m ** 2)`: the sum of the squares of all nine entries. */
  function SumSquares(m: Mat3): real { Dot(m.r0, m.r0) + Dot(m.r1, m.r1) + Dot(m.r2, m.r2) }

  /** The closed-form 3x3 determinant (the expansion along the first row). */
  function Det(m: Mat3): real { Triple(m.r0, m.r1, m.r2) }

  /** Both m^T m and m m^T are the identity. */
  predicate Orthonormal(m: Mat3) {
    Mul(Transpose(m), m) == Identity && Mul(m, Transpose(m)) == Identity
  }

  // ---------------------------------------------------------------------------
  // The triple product is multilinear and alternating.

  lemma TripleLinearFirst(c: Vec3, b: Mat3, v: Vec3, w: Vec3)
    ensures Triple(VecMat(c, b), v, w)
         == c.x * Triple(b.r0, v, w) + c.y * Triple(b.r1, v, w) + c.z * Triple(b.r2, v, w)
  {
  }

  lemma TripleRotate(u: Vec3, v: Vec3, w: Vec3)
    ensures Triple(u, v, w) == Triple(v, w, u)
  {
  }

  lemma TripleRepeated(u: Vec3, w: Vec3)
    ensures Triple(u, u, w) == 0.0
  {
  }

  lemma TripleLinearSecond(u: Vec3, c: Vec3, b: Mat3, w: Vec3)
    ensures Triple(u, VecMat(c, b), w)
         == c.x * Triple(u, b.r0, w) + c.y * Triple(u, b.r1, w) + c.z * Triple(u, b.r2, w)
  {
    TripleRotate(u, VecMat(c, b), w);
    TripleLinearFirst(c, b, w, u);
    TripleRotate(u, b.r0, w);
    TripleRotate(u, b.r1, w);
    TripleRotate(u, b.r2, w);
  }

  lemma TripleLinearThird(u: Vec3, v: Vec3, c: Vec3, b: Mat3)
    ensures Triple(u, v, VecMat(c, b))
         == c.x * Triple(u, v, b.r0) + c.y * Triple(u, v, b.r1) + c.z * Triple(u, v, b.r2)
  {
    TripleRotate(VecMat(c, b), u, v);
    TripleLinearFirst(c, b, u, v);
    TripleRotate(b.r0, u, v);
    TripleRotate(b.r1, u, v);
    TripleRotate(b.r2, u, v);
  }

  lemma TripleRepeatedLast(u: Vec3, v: Vec3)
    ensures Triple(u, v, v) == 0.0
  {
  }

  lemma TripleSwapLast(u: Vec3, v: Vec3, w: Vec3)
    ensures Triple(u, v, w) == -Triple(u, w, v)
  {
  }

  /** Collects `e = qa * zero + qb * s + qc * n` when `zero = 0` and `n = -t`. */
  lemma DropRepeated(qa: real, qb: real, qc: real, e: real, zero: real, s: real, n: real, t: real)
    requires e == qa * zero + qb * s + qc * n && zero == 0.0 && n == -t
    ensures e == qb * s - qc * t
  {
  }

  lemma TripleAgainstRow0(u: Vec3, q: Vec3, b: Mat3)
    ensures Triple(u, b.r0, VecMat(q, b)) == q.y * Triple(u, b.r0, b.r1) - q.z * Triple(u, b.r2, b.r0)
  {
    TripleLinearThird(u, b.r0, q, b);
    TripleRepeatedLast(u, b.r0);
    TripleSwapLast(u, b.r0, b.r2);
    DropRepeated(q.x, q.y, q.z, Triple(u, b.r0, VecMat(q, b)), Triple(u, b.r0, b.r0),
                 Triple(u, b.r0, b.r1), Triple(u, b.r0, b.r2), Triple(u, b.r2, b.r0));
  }

  lemma TripleAgainstRow1(u: Vec3, q: Vec3, b: Mat3)
    ensures Triple(u, b.r1, VecMat(q, b)) == q.z * Triple(u, b.r1, b.r2) - q.x * Triple(u, b.r0, b.r1)
  {
    TripleLinearThird(u, b.r1, q, b);
    TripleRepeatedLast(u, b.r1);
    TripleSwapLast(u, b.r1, b.r0);
    DropRepeated(q.y, q.z, q.x, Triple(u, b.r1, VecMat(q, b)), Triple(u, b.r1, b.r1),
                 Triple(u, b.r1, b.r2), Triple(u, b.r1, b.r0), Triple(u, b.r0, b.r1));
  }

  lemma TripleAgainstRow2(u: Vec3, q: Vec3, b: Mat3)
    ensures Triple(u, b.r2, VecMat(q, b)) == q.x * Triple(u, b.r2, b.r0) - q.y * Triple(u, b.r1, b.r2)
  {
    TripleLinearThird(u, b.r2, q, b);
    TripleRepeatedLast(u, b.r2);
    TripleSwapLast(u, b.r2, b.r1);
    DropRepeated(q.z, q.x, q.y, Triple(u, b.r2, VecMat(q, b)), Triple(u, b.r2, b.r2),
                 Triple(u, b.r2, b.r0), Triple(u, b.r2, b.r1), Triple(u, b.r1, b.r2));
  }

  /** Expanding the last two arguments of a triple product over the rows of `b`. */
  lemma TripleLastTwo(u: Vec3, p: Vec3, q: Vec3, b: Mat3)
    ensures Triple(u, VecMat(p, b), VecMat(q, b))
         == Cross(p, q).x * Triple(u, b.r1, b.r2) + Cross(p, q).y * Triple(u, b.r2, b.r0)
          + Cross(p, q).z * Triple(u, b.r0, b.r1)
  {
    var w := VecMat(q, b);
    var t12, t20, t01 := Triple(u, b.r1, b.r2), Triple(u, b.r2, b.r0), Triple(u, b.r0, b.r1);
    TripleLinearSecond(u, p, b, w);
    TripleAgainstRow0(u, q, b);
    TripleAgainstRow1(u, q, b);
    TripleAgainstRow2(u, q, b);
    CollectCross(p.x, p.y, p.z, q.x, q.y, q.z, t12, t20, t01,
                 Triple(u, b.r0, w), Triple(u, b.r1, w), Triple(u, b.r2, w));
  }

  /** Regroups the expansion of TripleLastTwo by the three triple products, giving the cross product's components as coefficients. */
  lemma CollectCross(px: real, py: real, pz: real, qx: real, qy: real, qz: real,
                     a: real, b: real, c: real, e0: real, e1: real, e2: real)
    requires e0 == qy * c - qz * b && e1 == qz * a - qx * c && e2 == qx * b - qy * a
    ensures px * e0 + py * e1 + pz * e2
         == (py * qz - pz * qy) * a + (pz * qx - px * qz) * b + (px * qy - py * qx) * c
  {
  }

  /** Factors Det(b) out of the row-0 expansion of Det(a @ b), the last step of DetMul. */
  lemma CollectFactor(x: real, y: real, z: real, u: real, v: real, w: real, d: real,
                      e0: real, e1: real, e2: real, lhs: real, k: real)
    requires e0 == u * d && e1 == v * d && e2 == w * d
    requires lhs == x * e0 + y * e1 + z * e2 && k == x * u + y * v + z * w
    ensures lhs == k * d
  {
  }

  lemma DetRow0(p: Vec3, q: Vec3, b: Mat3)
    ensures Triple(b.r0, VecMat(p, b), VecMat(q, b)) == Cross(p, q).x * Det(b)
  {
    TripleLastTwo(b.r0, p, q, b);
    TripleRotate(b.r0, b.r2, b.r0);
    TripleRepeated(b.r0, b.r1);
  }

  lemma DetRow1(p: Vec3, q: Vec3, b: Mat3)
    ensures Triple(b.r1, VecMat(p, b), VecMat(q, b)) == Cross(p, q).y * Det(b)
  {
    TripleLastTwo(b.r1, p, q, b);
    TripleRepeated(b.r1, b.r2);
    TripleRotate(b.r1, b.r0, b.r1);
    TripleRotate(b.r0, b.r1, b.r2);
  }

  lemma DetRow2(p: Vec3, q: Vec3, b: Mat3)
    ensures Triple(b.r2, VecMat(p, b), VecMat(q, b)) == Cross(p, q).z * Det(b)
  {
    TripleLastTwo(b.r2, p, q, b);
    TripleRotate(b.r2, b.r1, b.r2);
    TripleRepeated(b.r2, b.r0);
    TripleRotate(b.r0, b.r1, b.r2);
    TripleRotate(b.r1, b.r2, b.r0);
  }

  // ---------------------------------------------------------------------------
  // Determinant laws.

  /** The determinant is multiplicative. */
  lemma DetMul(a: Mat3, b: Mat3)
    ensures Det(Mul(a, b)) == Det(a) * Det(b)
  {
    var c := Cross(a.r1, a.r2);
    var p, q := VecMat(a.r1, b), VecMat(a.r2, b);
    TripleLinearFirst(a.r0, b, p, q);
    DetRow0(a.r1, a.r2, b);
    DetRow1(a.r1, a.r2, b);
    DetRow2(a.r1, a.r2, b);
    assert Det(a) == a.r0.x * c.x + a.r0.y * c.y + a.r0.z * c.z;
    CollectFactor(a.r0.x, a.r0.y, a.r0.z, c.x, c.y, c.z, Det(b),
                  Triple(b.r0, p, q), Triple(b.r1, p, q), Triple(b.r2, p, q), Det(Mul(a, b)), Det(a));
  }

  lemma DetTranspose(m: Mat3)
    ensures Det(Transpose(m)) == Det(m)
  {
  }

  /** Negating one column negates the determinant. */
  lemma DetNegateLastColumn(m: Mat3)
    ensures Det(NegateLastColumn(m)) == -Det(m)
  {
  }

  lemma DetIdentity()
    ensures Det(Identity) == 1.0
  {
  }

  lemma GramDetOne(m: Mat3)
    requires Mul(Transpose(m), m) == Identity
    ensures Det(Mul(Transpose(m), m)) == 1.0
  {
    DetIdentity();
  }

  lemma UnitGramDet(m: Mat3)
    requires Det(Mul(Transpose(m), m)) == 1.0
    ensures Det(m) == 1.0 || Det(m) == -1.0
  {
    var t := Transpose(m);
    DetMul(t, m);
    DetTranspose(m);
    UnitSquare(Det(Mul(t, m)), Det(t), Det(m));
  }

  /** An orthonormal matrix has determinant +1 or -1. */
  lemma OrthonormalDet(m: Mat3)
    requires Orthonormal(m)
    ensures Det(m) == 1.0 || Det(m) == -1.0
  {
    GramDetOne(m);
    UnitGramDet(m);
  }

  lemma UnitSquare(p: real, a: real, d: real)
    requires p == a * d && a == d && p == 1.0
    ensures d == 1.0 || d == -1.0
  {
    assert (d - 1.0) * (d + 1.0) == 0.0;
  }

  // ---------------------------------------------------------------------------
  // Product laws used to show that V U^T is orthonormal.

  /** A dot product with a combination of rows is the combination of the dot products. */
  lemma DotVecMat(c: Vec3, a: Mat3, w: Vec3)
    ensures Dot(VecMat(c, a), w) == c.x * Dot(a.r0, w) + c.y * Dot(a.r1, w) + c.z * Dot(a.r2, w)
  {
  }

  lemma VecMatByColumns(c: Vec3, b: Mat3)
    ensures VecMat(c, b) == Vec3(Dot(c, b.Col(0)), Dot(c, b.Col(1)), Dot(c, b.Col(2)))
  {
  }

  lemma VecMatAssoc(c: Vec3, a: Mat3, b: Mat3)
    ensures VecMat(VecMat(c, a), b) == VecMat(c, Mul(a, b))
  {
    VecMatByColumns(VecMat(c, a), b);
    VecMatByColumns(c, Mul(a, b));
    VecMatByColumns(a.r0, b);
    VecMatByColumns(a.r1, b);
    VecMatByColumns(a.r2, b);
    DotVecMat(c, a, b.Col(0));
    DotVecMat(c, a, b.Col(1));
    DotVecMat(c, a, b.Col(2));
  }

  lemma MulAssoc(a: Mat3, b: Mat3, c: Mat3)
    ensures Mul(Mul(a, b), c) == Mul(a, Mul(b, c))
  {
    VecMatAssoc(a.r0, b, c);
    VecMatAssoc(a.r1, b, c);
    VecMatAssoc(a.r2, b, c);
  }

  lemma TransposeMul(a: Mat3, b: Mat3)
    ensures Transpose(Mul(a, b)) == Mul(Transpose(b), Transpose(a))
  {
    var l, r := Transpose(Mul(a, b)), Mul(Transpose(b), Transpose(a));
    TransposeMulRow0(a, b);
    TransposeMulRow1(a, b);
    TransposeMulRow2(a, b);
    assert l == Mat3(l.r0, l.r1, l.r2) && r == Mat3(r.r0, r.r1, r.r2);
  }

  lemma TransposeMulRow0(a: Mat3, b: Mat3)
    ensures Transpose(Mul(a, b)).r0 == Mul(Transpose(b), Transpose(a)).r0
  {
  }

  lemma TransposeMulRow1(a: Mat3, b: Mat3)
    ensures Transpose(Mul(a, b)).r1 == Mul(Transpose(b), Transpose(a)).r1
  {
  }

  lemma TransposeMulRow2(a: Mat3, b: Mat3)
    ensures Transpose(Mul(a, b)).r2 == Mul(Transpose(b), Transpose(a)).r2
  {
  }

  lemma MulIdentity(m: Mat3)
    ensures Mul(m, Identity) == m && Mul(Identity, m) == m
  {
  }

  /** m^T m == I and m m^T == I for the transpose as well. */
  lemma TransposeOrthonormal(m: Mat3)
    requires Orthonormal(m)
    ensures Orthonormal(Transpose(m))
  {
    assert Transpose(Transpose(m)) == m;
  }

  /** The entries of m^T m are the dot products of m's columns. */
  lemma GramByColumns(m: Mat3)
    ensures Mul(Transpose(m), m)
         == Mat3(Vec3(Dot(m.Col(0), m.Col(0)), Dot(m.Col(0), m.Col(1)), Dot(m.Col(0), m.Col(2))),
                 Vec3(Dot(m.Col(1), m.Col(0)), Dot(m.Col(1), m.Col(1)), Dot(m.Col(1), m.Col(2))),
                 Vec3(Dot(m.Col(2), m.Col(0)), Dot(m.Col(2), m.Col(1)), Dot(m.Col(2), m.Col(2))))
  {
    VecMatByColumns(m.Col(0), m);
    VecMatByColumns(m.Col(1), m);
    VecMatByColumns(m.Col(2), m);
  }

  /** Combining the rows of m^T by c gives c's dot products with m's rows. */
  lemma VecMatTranspose(c: Vec3, m: Mat3)
    ensures VecMat(c, Transpose(m)) == Vec3(Dot(c, m.r0), Dot(c, m.r1), Dot(c, m.r2))
  {
  }

  /** The entries of m m^T are the dot products of m's rows. */
  lemma OuterByRows(m: Mat3)
    ensures Mul(m, Transpose(m))
         == Mat3(Vec3(Dot(m.r0, m.r0), Dot(m.r0, m.r1), Dot(m.r0, m.r2)),
                 Vec3(Dot(m.r1, m.r0), Dot(m.r1, m.r1), Dot(m.r1, m.r2)),
                 Vec3(Dot(m.r2, m.r0), Dot(m.r2, m.r1), Dot(m.r2, m.r2)))
  {
    VecMatTranspose(m.r0, m);
    VecMatTranspose(m.r1, m);
    VecMatTranspose(m.r2, m);
  }

  lemma NegGram(m: Mat3)
    ensures var g := Mul(Transpose(m), m);
      Mul(Transpose(NegateLastColumn(m)), NegateLastColumn(m))
        == Mat3(Vec3(g.r0.x, g.r0.y, -g.r0.z), Vec3(g.r1.x, g.r1.y, -g.r1.z), Vec3(-g.r2.x, -g.r2.y, g.r2.z))
  {
    GramByColumns(m);
    GramByColumns(NegateLastColumn(m));
  }

  lemma NegOuter(m: Mat3)
    ensures Mul(NegateLastColumn(m), Transpose(NegateLastColumn(m))) == Mul(m, Transpose(m))
  {
    OuterByRows(m);
    OuterByRows(NegateLastColumn(m));
  }

  /** Negating a column keeps a matrix orthonormal. */
  lemma NegateLastColumnOrthonormal(m: Mat3)
    requires Orthonormal(m)
    ensures Orthonormal(NegateLastColumn(m))
  {
    NegGram(m);
    NegOuter(m);
  }

  /** The product of two orthonormal matrices is orthonormal. */
  lemma OrthonormalMul(a: Mat3, b: Mat3)
    requires Orthonormal(a) && Orthonormal(b)
    ensures Orthonormal(Mul(a, b))
  {
    var ab := Mul(a, b);
    TransposeMul(a, b);
    calc {
      Mul(Transpose(ab), ab);
      Mul(Mul(Transpose(b), Transpose(a)), Mul(a, b));
      { MulAssoc(Transpose(b), Transpose(a), Mul(a, b)); }
      Mul(Transpose(b), Mul(Transpose(a), Mul(a, b)));
      { MulAssoc(Transpose(a), a, b); }
      Mul(Transpose(b), Mul(Mul(Transpose(a), a), b));
      { MulIdentity(b); }
      Mul(Transpose(b), b);
      Identity;
    }
    calc {
      Mul(ab, Transpose(ab));
      Mul(Mul(a, b), Mul(Transpose(b), Transpose(a)));
      { MulAssoc(a, b, Mul(Transpose(b), Transpose(a))); }
      Mul(a, Mul(b, Mul(Transpose(b), Transpose(a))));
      { MulAssoc(b, Transpose(b), Transpose(a)); }
      Mul(a, Mul(Mul(b, Transpose(b)), Transpose(a)));
      { MulIdentity(Transpose(a)); }
      Mul(a, Transpose(a));
      Identity;
    }
  }
}
