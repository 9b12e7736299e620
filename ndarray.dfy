/** A numpy array as the solver receives it: a shape and its entries in
    row-major order. Only the shape test and the reading of a 3x3 array are
    needed by the solver. */
module NdArrays {
  import opened LinAlg

  /** The number of entries of an array of the given shape (1 for a 0-d array). */
  function Product(shape: seq<nat>): nat {
    if shape == [] then 1 else shape[0] * Product(shape[1..])
  }

  datatype NdArray = NdArray(shape: seq<nat>, data: seq<real>)

  /** A numpy array always holds exactly as many entries as its shape says. */
  type Array = a: NdArray | |a.data| == Product(a.shape) witness NdArray([], [0.0])

  /** `a.shape == (3, 3)`. */
  predicate IsShape33(a: Array) {
    a.shape == [3, 3]
  }

  /** A 3x3 array holds nine entries. */
  lemma Shape33Size(a: Array)
    requires IsShape33(a)
    ensures |a.data| == 9
  {
    assert Product([]) == 1;
    assert Product([3]) == 3 by { assert [3][1..] == []; }
    assert Product([3, 3]) == 9 by { assert [3, 3][1..] == [3]; }
  }

  /** Reads a 3x3 array: entry `[i, j]` is at flat position 3 * i + j, so the
      array is exactly the one that holds the matrix read. */
  function ToMat3(a: Array): (m: Mat3)
    requires IsShape33(a)
    ensures FromMat3(m) == a
  {
    Shape33Size(a);
    assert a.data == a.data[..9];
    Mat3(Vec3(a.data[0], a.data[1], a.data[2]),
         Vec3(a.data[3], a.data[4], a.data[5]),
         Vec3(a.data[6], a.data[7], a.data[8]))
  }

  /** The 3x3 array holding `m`, as `np.array(m)`. */
  function FromMat3(m: Mat3): (a: Array)
    ensures IsShape33(a)
  {
    assert Product([3]) == 3 by { assert [3][1..] == []; }
    assert Product([3, 3]) == 9 by { assert [3, 3][1..] == [3]; }
    NdArray([3, 3], [m.r0.x, m.r0.y, m.r0.z, m.r1.x, m.r1.y, m.r1.z, m.r2.x, m.r2.y, m.r2.z])
  }

  /** Reading back the array that holds `m` gives `m`. */
  lemma ToMat3FromMat3(m: Mat3)
    ensures ToMat3(FromMat3(m)) == m
  {
  }
}
