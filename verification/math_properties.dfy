/**
 * Algebraic laws of the vector and matrix operations. All of them are exact:
 * every operation here is polynomial arithmetic on reals.
 */
module MathProperties {
  import opened MathObjects

  /** Adding then subtracting the same vector gives back the left operand, w included. */
  lemma AddSubRoundTrip(a: Vector3D, b: Vector3D)
    ensures Sub(Add(a, b), b) == a
    ensures Add(Sub(a, b), b) == a
  {
  }

  /** `+` and `-` never look at the right operand's w. */
  lemma AddSubIgnoreRightW(a: Vector3D, b: Vector3D, w: real)
    ensures Add(a, b) == Add(a, b.(w := w))
    ensures Sub(a, b) == Sub(a, b.(w := w))
  {
  }

  /** Scaling by n multiplies x, y, z by n, keeps w, and is undone by scaling by 1/n. */
  lemma ScalarRoundTrip(v: Vector3D, n: real)
    requires n != 0.0
    ensures MulByScalar(MulByScalar(v, n), 1.0 / n) == v
    ensures MulByScalar(v, n).w == v.w
  {
  }

  /** On x, y, z the cross product is anti-commutative; its w is the left operand's. */
  lemma CrossAntiCommutative(a: Vector3D, b: Vector3D)
    ensures Cross(a, b) == Vector3D(-Cross(b, a).x, -Cross(b, a).y, -Cross(b, a).z, a.w)
  {
  }

  /** The dot product is symmetric and ignores both operands' w. */
  lemma DotSymmetric(a: Vector3D, b: Vector3D, wa: real, wb: real)
    ensures Dot(a, b) == Dot(b, a)
    ensures Dot(a, b) == Dot(a.(w := wa), b.(w := wb))
  {
  }

  /** Row `i` of `m`, read as a homogeneous row vector. */
  function Row(m: Matrix, i: nat): Vector3D
    requires i < 4
  {
    Vector3D(m[i][0], m[i][1], m[i][2], m[i][3])
  }

  /** Row `i` of a product is row `i` of the left factor times the right factor. */
  lemma ProductRow(a: Matrix, b: Matrix, i: nat)
    requires i < 4
    ensures Row(Product(a, b), i) == MulByMatrix(Row(a, i), b)
  {
  }

  /** Two matrices with equal rows are equal. */
  lemma RowsDetermine(a: Matrix, b: Matrix)
    requires forall i | 0 <= i < 4 :: Row(a, i) == Row(b, i)
    ensures a == b
  {
    forall i | 0 <= i < 4
      ensures a[i] == b[i]
    {
      assert Row(a, i) == Row(b, i);
    }
  }

  /** The identity is a two-sided unit of the product. */
  lemma IdentityUnit(m: Matrix)
    ensures Product(Identity(), m) == m
    ensures Product(m, Identity()) == m
  {
    forall i | 0 <= i < 4
      ensures Row(Product(Identity(), m), i) == Row(m, i)
      ensures Row(Product(m, Identity()), i) == Row(m, i)
    {
      ProductRow(Identity(), m, i);
      ProductRow(m, Identity(), i);
    }
    RowsDetermine(Product(Identity(), m), m);
    RowsDetermine(Product(m, Identity()), m);
  }

  /** Multiplying by the identity leaves every vector as it was, w included. */
  lemma IdentityFixesVectors(v: Vector3D)
    ensures MulByMatrix(v, Identity()) == v
  {
  }

  /** A translation moves a point (w = 1) by (dx, dy, dz) and leaves a direction (w = 0) alone. */
  lemma TranslationMovesPoints(v: Vector3D, dx: real, dy: real, dz: real)
    ensures v.w == 1.0 ==> MulByMatrix(v, Translation(dx, dy, dz)) == Vector3D(v.x + dx, v.y + dy, v.z + dz, 1.0)
    ensures v.w == 0.0 ==> MulByMatrix(v, Translation(dx, dy, dz)) == v
    ensures MulByMatrix(v, Translation(dx, dy, dz)).w == v.w
  {
  }

  /**
   * A scale matrix scales each coordinate by its factor and keeps w; a
   * uniform one is `mul_by_scalar`, which multiplies x, y and z by the factor.
   */
  lemma ScaleScales(v: Vector3D, sx: real, sy: real, sz: real)
    ensures MulByMatrix(v, Scale(sx, sy, sz)) == Vector3D(v.x * sx, v.y * sy, v.z * sz, v.w)
    ensures MulByMatrix(v, Scale(sx, sx, sx)) == MulByScalar(v, sx)
    ensures MulByScalar(v, sx) == Vector3D(v.x * sx, v.y * sx, v.z * sx, v.w)
  {
  }

  /**
   * The sixteen products `x[k] * a[k][l] * b[l]` give the same total summed
   * row by row or column by column.
   */
  lemma Regroup(x0: real, x1: real, x2: real, x3: real,
                a00: real, a01: real, a02: real, a03: real,
                a10: real, a11: real, a12: real, a13: real,
                a20: real, a21: real, a22: real, a23: real,
                a30: real, a31: real, a32: real, a33: real,
                b0: real, b1: real, b2: real, b3: real)
    ensures x0 * (a00 * b0 + a01 * b1 + a02 * b2 + a03 * b3) + x1 * (a10 * b0 + a11 * b1 + a12 * b2 + a13 * b3)
          + x2 * (a20 * b0 + a21 * b1 + a22 * b2 + a23 * b3) + x3 * (a30 * b0 + a31 * b1 + a32 * b2 + a33 * b3)
         == (x0 * a00 + x1 * a10 + x2 * a20 + x3 * a30) * b0 + (x0 * a01 + x1 * a11 + x2 * a21 + x3 * a31) * b1
          + (x0 * a02 + x1 * a12 + x2 * a22 + x3 * a32) * b2 + (x0 * a03 + x1 * a13 + x2 * a23 + x3 * a33) * b3
  {
  }

  /** Column `j` of a product against `v`, written out as the row-by-row sum. */
  lemma ProductColumn(v: Vector3D, a: Matrix, b: Matrix, j: nat)
    requires j < 4
    ensures Column(v, Product(a, b), j) ==
        v.x * (a[0][0] * b[0][j] + a[0][1] * b[1][j] + a[0][2] * b[2][j] + a[0][3] * b[3][j])
      + v.y * (a[1][0] * b[0][j] + a[1][1] * b[1][j] + a[1][2] * b[2][j] + a[1][3] * b[3][j])
      + v.z * (a[2][0] * b[0][j] + a[2][1] * b[1][j] + a[2][2] * b[2][j] + a[2][3] * b[3][j])
      + v.w * (a[3][0] * b[0][j] + a[3][1] * b[1][j] + a[3][2] * b[2][j] + a[3][3] * b[3][j])
  {
    var p := Product(a, b);
    assert p[0][j] == ProductEntry(a, b, 0, j);
    assert p[1][j] == ProductEntry(a, b, 1, j);
    assert p[2][j] == ProductEntry(a, b, 2, j);
    assert p[3][j] == ProductEntry(a, b, 3, j);
  }

  /** Column `j` of `b` against `v * a`, written out as the column-by-column sum. */
  lemma ImageColumn(v: Vector3D, a: Matrix, b: Matrix, j: nat)
    requires j < 4
    ensures Column(MulByMatrix(v, a), b, j) ==
        (v.x * a[0][0] + v.y * a[1][0] + v.z * a[2][0] + v.w * a[3][0]) * b[0][j]
      + (v.x * a[0][1] + v.y * a[1][1] + v.z * a[2][1] + v.w * a[3][1]) * b[1][j]
      + (v.x * a[0][2] + v.y * a[1][2] + v.z * a[2][2] + v.w * a[3][2]) * b[2][j]
      + (v.x * a[0][3] + v.y * a[1][3] + v.z * a[2][3] + v.w * a[3][3]) * b[3][j]
  {
  }

  /**
   * One column of the composition law: both sides are the same sixteen
   * products `v[k] * a[k][l] * b[l][j]`, summed in two orders.
   */
  lemma ColumnOfProduct(v: Vector3D, a: Matrix, b: Matrix, j: nat)
    requires j < 4
    ensures Column(v, Product(a, b), j) == Column(MulByMatrix(v, a), b, j)
  {
    ProductColumn(v, a, b, j);
    ImageColumn(v, a, b, j);
    Regroup(v.x, v.y, v.z, v.w,
            a[0][0], a[0][1], a[0][2], a[0][3],
            a[1][0], a[1][1], a[1][2], a[1][3],
            a[2][0], a[2][1], a[2][2], a[2][3],
            a[3][0], a[3][1], a[3][2], a[3][3],
            b[0][j], b[1][j], b[2][j], b[3][j]);
  }

  /**
   * Transforming by a product is transforming by each factor in turn, left
   * factor first. This is what lets a chain of `multiply` calls stand for the
   * successive application of its factors.
   */
  lemma Composition(v: Vector3D, a: Matrix, b: Matrix)
    ensures MulByMatrix(v, Product(a, b)) == MulByMatrix(MulByMatrix(v, a), b)
  {
    ColumnOfProduct(v, a, b, 0);
    ColumnOfProduct(v, a, b, 1);
    ColumnOfProduct(v, a, b, 2);
    ColumnOfProduct(v, a, b, 3);
  }

  /** The matrix product is associative. */
  lemma ProductAssociative(a: Matrix, b: Matrix, c: Matrix)
    ensures Product(Product(a, b), c) == Product(a, Product(b, c))
  {
    forall i | 0 <= i < 4
      ensures Row(Product(Product(a, b), c), i) == Row(Product(a, Product(b, c)), i)
    {
      ProductRow(Product(a, b), c, i);
      ProductRow(a, b, i);
      ProductRow(a, Product(b, c), i);
      Composition(Row(a, i), b, c);
    }
    RowsDetermine(Product(Product(a, b), c), Product(a, Product(b, c)));
  }

  /**
   * Whatever the field of view, aspect ratio and clipping planes, the
   * perspective matrix turns a vector's -z into its w, which the later
   * divide by w turns into the perspective foreshortening.
   */
  lemma PerspectiveW(v: Vector3D, tanHalf: real, aspect: real, n: real, f: real)
    requires PerspectiveProjection(tanHalf, aspect, n, f).Success?
    ensures MulByMatrix(v, PerspectiveProjection(tanHalf, aspect, n, f).value).w == -v.z
  {
  }
}
