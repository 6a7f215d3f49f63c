/** The concrete vector and matrix cases the repository's unit tests pin down. */
module MathExamples {
  import opened MathObjects

  function M1(): Matrix
  {
    [[13.0, 2.0, 9.0, 6.0], [14.0, 3.0, 16.0, 7.0], [7.0, 18.0, 11.0, 12.0], [7.0, 1.0, 18.0, 16.0]]
  }

  function M2(): Matrix
  {
    [[18.0, 12.0, 11.0, 4.0], [14.0, 10.0, 19.0, 6.0], [13.0, 8.0, 12.0, 8.0], [15.0, 12.0, 3.0, 13.0]]
  }

  /** The matrix holding 1 to 16 row by row. */
  function OneToSixteen(): Matrix
  {
    [[1.0, 2.0, 3.0, 4.0], [5.0, 6.0, 7.0, 8.0], [9.0, 10.0, 11.0, 12.0], [13.0, 14.0, 15.0, 16.0]]
  }

  /** The product of the two integer matrices of the multiplication test. */
  lemma MultiplyExample()
    ensures Product(M1(), M2()) ==
      [[469.0, 320.0, 307.0, 214.0],
       [607.0, 410.0, 424.0, 293.0],
       [701.0, 496.0, 587.0, 380.0],
       [614.0, 430.0, 360.0, 386.0]]
  {
    var p := Product(M1(), M2());
    assert p[0] == [469.0, 320.0, 307.0, 214.0];
    assert p[1] == [607.0, 410.0, 424.0, 293.0];
    assert p[2] == [701.0, 496.0, 587.0, 380.0];
    assert p[3] == [614.0, 430.0, 360.0, 386.0];
  }

  /** Two points times the 1..16 matrix. */
  lemma MulByMatrixExamples()
    ensures MulByMatrix(Point(3.0, 7.0, 5.0), OneToSixteen()) == Vector3D(96.0, 112.0, 128.0, 144.0)
    ensures MulByMatrix(Point(-100.0, 0.0, 35.0), OneToSixteen()) == Vector3D(228.0, 164.0, 100.0, 36.0)
  {
  }

  /** Sum, difference and scalar multiples of the vector tests; w follows the left operand. */
  lemma ArithmeticExamples()
    ensures Add(Point(3.0, 5.0, 8.0), Vector3D(1.0, 10.0, 3.0, 0.0)) == Vector3D(4.0, 15.0, 11.0, 1.0)
    ensures Sub(Point(3.0, 5.0, 8.0), Vector3D(1.0, 10.0, 3.0, 0.0)) == Vector3D(2.0, -5.0, 5.0, 1.0)
    ensures MulByScalar(Point(3.0, 5.0, 8.0), 5.0) == Vector3D(15.0, 25.0, 40.0, 1.0)
    ensures MulByScalar(Vector3D(1.0, 2.0, 3.0, 0.0), 3.0) == Vector3D(3.0, 6.0, 9.0, 0.0)
  {
  }

  /** The cross product of two points of the vector tests; w comes from the left point. */
  lemma CrossExamplePoints()
    ensures Cross(Point(7.0, 17.0, 13.0), Point(-3.0, -5.0, 3.0)) == Vector3D(116.0, -60.0, 16.0, 1.0)
  {
  }

  /** The cross product of two directions of the vector tests stays a direction. */
  lemma CrossExampleDirections()
    ensures Cross(Vector3D(10.0, 11.0, 12.0, 0.0), Vector3D(3.0, 55.0, 29.0, 0.0)) == Vector3D(-341.0, -254.0, 517.0, 0.0)
  {
  }

  /** The dot product of the vector tests. */
  lemma DotExample()
    ensures Dot(Point(7.0, 17.0, 13.0), Point(-3.0, -5.0, 3.0)) == -67.0
  {
  }
}
