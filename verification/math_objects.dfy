/**
 * Homogeneous 3D vectors and 4x4 matrices (math_objects.py; objects.py holds a
 * near-identical copy). A vector is used as a ROW vector: a transform is
 * `v * M`, and a chain of transforms is accumulated left to right.
 */
module MathObjects {
  import opened Wrappers

  /** A homogeneous coordinate: w = 1 marks a point, w = 0 a direction. */
  datatype Vector3D = Vector3D(x: real, y: real, z: real, w: real)

  /** Python's `Vector3D(x, y, z)`: `w` defaults to 1, a point. */
  function Point(x: real, y: real, z: real): (v: Vector3D)
    ensures v.w == 1.0
  {
    Vector3D(x, y, z, 1.0)
  }

  /** Four rows of four reals, row-major. */
  predicate IsMatrix(m: seq<seq<real>>) {
    |m| == 4 && forall i | 0 <= i < 4 :: |m[i]| == 4
  }

  type Matrix = m: seq<seq<real>> | IsMatrix(m)
    witness [[0.0, 0.0, 0.0, 0.0], [0.0, 0.0, 0.0, 0.0], [0.0, 0.0, 0.0, 0.0], [0.0, 0.0, 0.0, 0.0]]

  /** `Matrix4x4()` with no values: all zeros (not the identity). */
  function ZeroMatrix(): (m: Matrix)
    ensures forall i, j | 0 <= i < 4 && 0 <= j < 4 :: m[i][j] == 0.0
  {
    [[0.0, 0.0, 0.0, 0.0], [0.0, 0.0, 0.0, 0.0], [0.0, 0.0, 0.0, 0.0], [0.0, 0.0, 0.0, 0.0]]
  }

  // ---------------------------------------------------------------- vectors

  /** `a + b`: component-wise on x, y, z; w is taken from the left operand. */
  function Add(a: Vector3D, b: Vector3D): (r: Vector3D)
    ensures r.x - a.x == b.x && r.y - a.y == b.y && r.z - a.z == b.z
    ensures r.w == a.w
  {
    Vector3D(a.x + b.x, a.y + b.y, a.z + b.z, a.w)
  }

  /** `a - b`: component-wise on x, y, z; w is taken from the left operand. */
  function Sub(a: Vector3D, b: Vector3D): (r: Vector3D)
    ensures a.x - r.x == b.x && a.y - r.y == b.y && a.z - r.z == b.z
    ensures r.w == a.w
  {
    Vector3D(a.x - b.x, a.y - b.y, a.z - b.z, a.w)
  }

  /** `v.mul_by_scalar(n)`: scales x, y, z and keeps w. */
  function MulByScalar(v: Vector3D, n: real): (r: Vector3D)
    ensures r.w == v.w
  {
    Vector3D(v.x * n, v.y * n, v.z * n, v.w)
  }

  /** Column `j` of `m` against the row vector (x, y, z, w). */
  function Column(v: Vector3D, m: Matrix, j: nat): real
    requires j < 4
  {
    v.x * m[0][j] + v.y * m[1][j] + v.z * m[2][j] + v.w * m[3][j]
  }

  /** `v.mul_by_matrix(m)`: the row vector (x, y, z, w) times `m`. */
  function MulByMatrix(v: Vector3D, m: Matrix): Vector3D
  {
    Vector3D(Column(v, m, 0), Column(v, m, 1), Column(v, m, 2), Column(v, m, 3))
  }

  /**
   * `Vector3D.cross_product(a, b)`: perpendicular to both operands; the
   * result's w is `a.w`, whatever `b.w` is.
   */
  function Cross(a: Vector3D, b: Vector3D): (r: Vector3D)
    ensures Dot(a, r) == 0.0 && Dot(b, r) == 0.0
    ensures r.w == a.w
  {
    Vector3D(a.y * b.z - a.z * b.y,
             a.z * b.x - a.x * b.z,
             a.x * b.y - a.y * b.x,
             a.w)
  }

  /** `Vector3D.dot_product(a, b)`: x, y and z only. */
  function Dot(a: Vector3D, b: Vector3D): real
  {
    a.x * b.x + a.y * b.y + a.z * b.z
  }

  // --------------------------------------------------------------- matrices

  /** Entry (i, j) of the product `a * b`: row i of `a` against column j of `b`. */
  function ProductEntry(a: Matrix, b: Matrix, i: nat, j: nat): real
    requires i < 4 && j < 4
  {
    a[i][0] * b[0][j] + a[i][1] * b[1][j] + a[i][2] * b[2][j] + a[i][3] * b[3][j]
  }

  /** The matrix product `a * b`, as mathematics defines it. */
  function Product(a: Matrix, b: Matrix): Matrix
  {
    seq(4, i requires 0 <= i < 4 => seq(4, j requires 0 <= j < 4 => ProductEntry(a, b, i, j)))
  }

  /** The first `k` terms of the sum `Multiply` accumulates for entry (i, j). */
  function PartialSum(a: Matrix, b: Matrix, i: nat, j: nat, k: nat): real
    requires i < 4 && j < 4 && k <= 4
  {
    if k == 0 then 0.0 else PartialSum(a, b, i, j, k - 1) + a[i][k - 1] * b[k - 1][j]
  }

  /**
   * `Matrix4x4.multiply(a, b)`: the triple loop of the source, accumulating
   * `s += a[i][k] * b[k][j]` into a zero matrix.
   */
  method Multiply(a: Matrix, b: Matrix) returns (r: Matrix)
    ensures r == Product(a, b)
  {
    var res: seq<seq<real>> := ZeroMatrix();
    for i := 0 to 4
      invariant IsMatrix(res)
      invariant forall i', j' | 0 <= i' < i && 0 <= j' < 4 :: res[i'][j'] == ProductEntry(a, b, i', j')
    {
      for j := 0 to 4
        invariant IsMatrix(res)
        invariant forall i', j' | 0 <= i' < i && 0 <= j' < 4 :: res[i'][j'] == ProductEntry(a, b, i', j')
        invariant forall j' | 0 <= j' < j :: res[i][j'] == ProductEntry(a, b, i, j')
      {
        var s := 0.0;
        for k := 0 to 4
          invariant s == PartialSum(a, b, i, j, k)
        {
          s := s + a[i][k] * b[k][j];
        }
        assert PartialSum(a, b, i, j, 2) == a[i][0] * b[0][j] + a[i][1] * b[1][j];
        res := res[i := res[i][j := s]];
      }
    }
    r := res;
    assert forall i | 0 <= i < 4 :: r[i] == Product(a, b)[i];
  }

  /** `Matrix4x4.get_identity_matrix()`. */
  function Identity(): Matrix
  {
    [[1.0, 0.0, 0.0, 0.0],
     [0.0, 1.0, 0.0, 0.0],
     [0.0, 0.0, 1.0, 0.0],
     [0.0, 0.0, 0.0, 1.0]]
  }

  /** `Matrix4x4.get_translation(dx, dy, dz)`: the shift sits in the bottom row. */
  function Translation(dx: real, dy: real, dz: real): Matrix
  {
    [[1.0, 0.0, 0.0, 0.0],
     [0.0, 1.0, 0.0, 0.0],
     [0.0, 0.0, 1.0, 0.0],
     [dx, dy, dz, 1.0]]
  }

  /** `Matrix4x4.get_scale(sx, sy, sz)`. */
  function Scale(sx: real, sy: real, sz: real): Matrix
  {
    [[sx, 0.0, 0.0, 0.0],
     [0.0, sy, 0.0, 0.0],
     [0.0, 0.0, sz, 0.0],
     [0.0, 0.0, 0.0, 1.0]]
  }

  /**
   * `Matrix4x4.get_perspective_projection(fov, aspect, n, f)`, given
   * `tanHalf = tan(deg_to_rad(fov) / 2)` (the trigonometry is not modelled).
   * Each of the source's three divisions raises ZeroDivisionError on a zero
   * divisor: `1 / tanHalf`, `... / aspect` and `... / (f - n)`.
   */
  function PerspectiveProjection(tanHalf: real, aspect: real, n: real, f: real): (r: Result<Matrix>)
    ensures r.Success? <==> tanHalf != 0.0 && aspect != 0.0 && f != n
    ensures r.Failure? ==> r.error == ZeroDivision
    ensures r.Success? ==>
      r.value[0][3] == 0.0 && r.value[1][3] == 0.0 && r.value[2][3] == -1.0 && r.value[3][3] == 0.0
  {
    if tanHalf == 0.0 || aspect == 0.0 || f - n == 0.0 then
      Failure(ZeroDivision)
    else
      var sx := (1.0 / tanHalf) / aspect;
      var sy := 1.0 / tanHalf;
      var sz := (f + n) / (f - n);
      var dz := (-2.0 * f * n) / (f - n);
      Success([[sx, 0.0, 0.0, 0.0],
               [0.0, sy, 0.0, 0.0],
               [0.0, 0.0, sz, -1.0],
               [0.0, 0.0, dz, 0.0]])
  }
}
