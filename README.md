# Similarity transform from three point pairs

`align_transform.py` estimates the scale `s`, rotation `R` and translation
`t` that take three source points `p1, p2, p3` onto three target points
`q1, q2, q3` (so that `q ≈ s·R·p + t`). It uses the Kabsch / Umeyama method:

1. centre both triples;
2. build the cross-covariance `H = P·Qᵀ`;
3. take its SVD;
4. set `R = V·Uᵀ`, negating the last column of `V` when `det(R) < 0`;
5. divide the sum of the singular values by the squared size of the centred
   source points to get `s`;
6. choose `t` so that the source centroid lands on the target centroid.

Two helpers turn the result into what a scene graph wants:
- XYZ Euler angles in degrees, with a special case at gimbal lock;
- a 4x4 world matrix.

The model is written over Dafny `real` in three modules:

- `LinAlg` (`linalg.dfy`): 3-vectors and 3x3 matrices (stored as rows), 4x4
  matrices for the world matrix, and the determinant. It proves the
  determinant's product rule, that negating a column negates it, and the
  facts about orthonormal matrices the solver relies on.
- `NdArrays` (`ndarray.dfy`): numpy arrays as a shape plus row-major data, so
  the `shape == (3, 3)` test can fail, and reading a 3x3 array into a matrix.
- `AlignTransform` (`align_transform.dfy`): the three functions of the
  script.
  - `compute_similarity_transform` is a method. It returns `Ok` or an error,
    and takes the SVD as a parameter.
  - `V` is a `real[3, 3]` array, and its last column is negated in place.
  - `make_matrix_world` fills a fresh `real[4, 4]` identity array in place.
  - `rotation_matrix_to_euler_xyz` is a function whose `arcsin` and `atan2`
    are parameters.

The Euler extractor's gimbal-lock pitch, "+90° if sy < 0 else −90°", has
the opposite sign to the one its own regular branch implies. The model
states the code as written, records the discrepancy under "## Findings",
and proves the corrected rule beside it.

## Model

| member | source | states |
|---|---|---|
| NdArrays.ToMat3 | align_transform.py:28-29 | reading a 3x3 array gives the matrix whose array is exactly the input (no entry lost or moved) |
| NdArrays.ToMat3FromMat3 | align_transform.py:28-29 | writing a matrix into a 3x3 array and reading it back gives the same matrix |
| AlignTransform.ComputeSimilarityTransform | align_transform.py:21-58 | it fails with ShapeError exactly when either input is not 3x3. For 3x3 inputs it fails with DegenerateSource exactly when the three source points coincide. Otherwise the scale is ΣS over the source energy, R is the reflection-corrected V·Uᵀ with det(R) ≥ 0, and s·R·p̄ + t = q̄. When the SVD is genuine, R is orthonormal with det +1, s ≥ 0 and the smallest singular value is 0 |
| AlignTransform.Centroid | align_transform.py:32-33 | `np.mean(points, axis=0)`: the three deviations from the result sum to the zero vector (with CentroidUnique, the mean is exactly that point) |
| AlignTransform.Centered | align_transform.py:32-37 | every coordinate of the centred points sums to zero |
| AlignTransform.CentroidUnique | align_transform.py:32-33 | the mean is the only point from which the three deviations sum to zero |
| AlignTransform.CenteredIgnoresShift | align_transform.py:32-37 | shifting a triple shifts its centroid by the same vector and leaves the centred points unchanged |
| AlignTransform.CrossCovarianceIgnoresShift | align_transform.py:40 | H does not change when either triple is translated |
| AlignTransform.CrossCovariance | align_transform.py:40 | `H = P @ Q.T` for the centred P and Q; its properties are the lemmas on the next rows |
| AlignTransform.RowsSumZeroSingular | align_transform.py:36 | a matrix whose rows each sum to zero has determinant 0, so the centred P is singular |
| AlignTransform.CrossCovarianceSingular | align_transform.py:40 | det(H) = 0 for every pair of triples |
| AlignTransform.IsSvdOf | align_transform.py:43 | what `np.linalg.svd` is taken to return: U and Vt orthonormal, S non-negative and in descending order (numpy's documented order), and H = U·diag(S)·Vt; a hypothesis of the lemmas that need it, never computed |
| AlignTransform.SingularSmallestValue | align_transform.py:43 | a genuine SVD of a singular matrix has smallest singular value 0 |
| AlignTransform.SmallestSingularValueZero | align_transform.py:43-53 | for a genuine SVD of H the last singular value is 0, so ΣS equals the Umeyama trace (S with its last value negated) whatever the reflection fix did |
| AlignTransform.SourceEnergy | align_transform.py:53 | the denominator Σ P² is never negative |
| AlignTransform.SelfDotPositive | align_transform.py:53 | a non-zero vector has a positive squared length |
| AlignTransform.SumSquaresVanish | align_transform.py:53 | a matrix whose squared entries sum to zero is the zero matrix |
| AlignTransform.SourceEnergyZeroIffCoincident | align_transform.py:53 | Σ P² is zero if and only if the three source points coincide (collinear distinct points still give a positive denominator) |
| AlignTransform.ReflectionNegatesDet | align_transform.py:47-50 | negating V's last column negates det(V·Uᵀ), whatever U and V are |
| AlignTransform.ProperRotation | align_transform.py:47-50 | the corrected R has det(R) = \|det(V·Uᵀ)\|, so it is never negative |
| AlignTransform.ProperRotationIsRotation | align_transform.py:47-50 | with U and Vᵀ orthonormal, the corrected R is orthonormal with determinant exactly +1 |
| AlignTransform.FlipLastColumn | align_transform.py:49 | the array afterwards holds the old matrix with its last column negated and every other entry unchanged |
| LinAlg.DetMul | align_transform.py:48 | det(A·B) = det(A)·det(B) |
| LinAlg.DetNegateLastColumn | align_transform.py:49 | negating the last column negates the determinant |
| LinAlg.DetTranspose | align_transform.py:47-50 | det(Mᵀ) = det(M) |
| LinAlg.OrthonormalDet | align_transform.py:47-50 | an orthonormal matrix has determinant +1 or −1 |
| LinAlg.TransposeOrthonormal | align_transform.py:44 | V = Vtᵀ is orthonormal when Vt is |
| LinAlg.NegateLastColumnOrthonormal | align_transform.py:49 | negating a column keeps a matrix orthonormal |
| LinAlg.OrthonormalMul | align_transform.py:47 | a product of orthonormal matrices is orthonormal |
| LinAlg.MulAssoc | align_transform.py:47 | matrix multiplication is associative |
| LinAlg.TransposeMul | align_transform.py:47 | (A·B)ᵀ = Bᵀ·Aᵀ |
| AlignTransform.IsRegular | align_transform.py:63 | the regular branch is taken exactly when −0.999999 < R[2,0] < 0.999999 |
| AlignTransform.Degrees | align_transform.py:72 | `np.degrees`: degrees times π equals radians times 180, and ±π/2 gives ±90 |
| AlignTransform.RotationMatrixToEulerXyz | align_transform.py:60-72 | when \|−R[2,0]\| < 0.999999: rx = degrees(atan2(R[2,1], R[2,2])), ry = degrees(arcsin(sy)), rz = degrees(atan2(R[1,0], R[0,0])). Otherwise rz = 0, ry = +90 when sy < 0 and −90 when not, and rx = degrees(atan2(−R[1,2], R[1,1])) |
| AlignTransform.GimbalLockInputsVanish | align_transform.py:62-66 | for a rotation at gimbal lock, both argument pairs the regular branch would give to atan2 have squared length at most 1 − 0.999999² |
| AlignTransform.GimbalPitchAsWritten | align_transform.py:69 | for every pose Ry(±90°)·Rx(a), the extractor as written returns the opposite quarter turn, and rebuilding the pose with that pitch does not give back the matrix |
| AlignTransform.RotationMatrixToEulerXyzFixed | align_transform.py:60-72 | the extractor with the gimbal pitch taking the sign of sy: it agrees with RotationMatrixToEulerXyz everywhere outside gimbal lock, and at gimbal lock it has the same rx and rz and the negated ry |
| AlignTransform.GimbalPitchFixedRoundTrip | align_transform.py:67-71 | the corrected extractor recovers a gimbal-locked pose Ry(±90°)·Rx(a): ry = ±90, rz = 0, rx = degrees(atan2(sin a, cos a)) |
| AlignTransform.WorldMatrixMapsPoints | align_transform.py:74-79 | a matrix with that layout maps [p; 1] to [s·R·p + t; 1] |
| AlignTransform.AssignUpperBlock | align_transform.py:77 | the upper-left 3x3 block is overwritten with the given matrix and every other entry is unchanged |
| AlignTransform.AssignLastColumn | align_transform.py:78 | rows 0 to 2 of the last column are overwritten with t and every other entry is unchanged |
| AlignTransform.MakeMatrixWorld | align_transform.py:74-79 | a fresh 4x4 array: entry (i, j) is s·R[i][j] for i, j < 3, entry (i, 3) is t[i] for i < 3, the bottom row is [0, 0, 0, 1], and it maps [p; 1] to [s·R·p + t; 1] for every p |

## Left out

- The `__main__` block (align_transform.py:81-108): example points and `print` output only.
- `np.linalg.svd` is not computed. The solver takes it as a function parameter, and its contract (U and Vt orthonormal, S non-negative and descending, H = U·diag(S)·Vt) is a hypothesis only of the conclusions that need it.
- `np.linalg.LinAlgError` (SVD not converging) cannot arise in a model over reals.
- IEEE-754 doubles: every value is an exact real. Rounding is therefore not modelled. This includes the 0.999999 comparison on a rounded R[2,0].
- Division by zero: when the three source points coincide, numpy gives nan (0/0, with a RuntimeWarning) only when the centred entries round to exactly zero. Otherwise the rounded mean differs from the points by a rounding error, `np.sum(P ** 2)` is a tiny positive number, and numpy returns a finite, meaningless scale with no warning. The model's `Err(DegenerateSource)` stands for every coincident case.
- `V = Vt.T` is a numpy view, so `V[:, -1] *= -1` also changes `Vt`. `Vt` is not read again, so the model keeps V in an array of its own and does not model the aliasing.
- `np.arcsin`, `np.arctan2`: uninterpreted function parameters.
- RotationMatrixToEulerXyz: the round trip (building R from angles and extracting them again) outside gimbal lock is not proved. It needs the inverse-trigonometric identities, which the model does not interpret.
- `np.degrees` is modelled as x·180/π, with π the decimal `3.141592653589793` that Python prints for `np.pi`.
- ComputeSimilarityTransform: the least-squares optimality and exact recovery `q_i = s·R·p_i + t` claimed in the docstring (align_transform.py:23-24) are not proved. They need Procrustes theory about the SVD, beyond what the code itself computes.
- Arrays of other ranks or with ragged rows are modelled only as a shape that is not (3, 3). Non-numeric dtypes are not modelled.

## Findings

| source | as written | input that shows it | evidently intended | confidence | as-written member | corrected member |
|---|---|---|---|---|---|---|
| align_transform.py:69 | at gimbal lock, `ry = +90°` when `sy < 0` and `−90°` otherwise | R = Ry(+90°) = [[0,0,1],[0,1,0],[−1,0,0]]. Here sy = −R[2,0] = 1, so the code returns ry = −90°, the regular branch's arcsin(sy) tends to +90° as sy → 1, and Ry(−90°) ≠ R | ry takes the sign of sy: the regular branch's ry = arcsin(−R[2,0]) means R = Rz·Ry·Rx, where R[2,0] = −sin ry, so ry tends to +90° as sy → 1 | not executed | AlignTransform.GimbalPitchAsWritten | AlignTransform.GimbalPitchFixedRoundTrip |
