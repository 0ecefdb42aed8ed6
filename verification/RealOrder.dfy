/**
 Products and squares of reals as functions, with the order facts that proofs need.
 */
module RealOrder {

  function Product(x: real, y: real): real { x * y }

  function Square(x: real): real { x * x }

  lemma SquareNonNegative(x: real)
    ensures Square(x) >= 0.0
  {
  }

  lemma ScaleOrder(x: real, y: real, z: real)
    requires x <= y && z >= 0.0
    ensures Product(x, z) <= Product(y, z)
  {
  }

  lemma StrictScale(x: real, y: real, z: real)
    requires x < y && z > 0.0
    ensures Product(x, z) < Product(y, z)
  {
  }

  lemma SquareOrder(x: real, y: real)
    requires 0.0 <= x <= y
    ensures Square(x) <= Square(y)
  {
    ScaleOrder(x, y, x);
    ScaleOrder(x, y, y);
    assert Product(x, y) == Product(y, x);
  }

  lemma SquareStrict(x: real, y: real)
    requires 0.0 <= x < y
    ensures Square(x) < Square(y)
  {
    ScaleOrder(x, y, x);
    StrictScale(x, y, y);
    assert Product(x, x) == Square(x) && Product(y, y) == Square(y) && Product(x, y) == Product(y, x);
  }

  lemma RootOrder(x: real, y: real)
    requires x >= 0.0 && y >= 0.0 && Square(x) <= Square(y)
    ensures x <= y
  {
    if x > y {
      SquareStrict(y, x);
    }
  }

  lemma Divide(x: real, y: real, z: real)
    requires z > 0.0 && x <= Product(y, z)
    ensures x / z <= y
  {
    var q := x / z;
    assert x == Product(q, z);
    if q > y {
      StrictScale(y, q, z);
    }
  }
}
