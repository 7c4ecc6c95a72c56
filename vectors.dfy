/** Element-wise arithmetic on state vectors, as numpy does it on float arrays
    (here over exact reals). */
module Vectors {

  type Vector = seq<real>

  /** Element-wise sum of two vectors of one length. */
  function Add(a: Vector, b: Vector): Vector
    requires |a| == |b|
  {
    seq(|a|, i requires 0 <= i < |a| => a[i] + b[i])
  }

  /** Scalar times vector. */
  function Scale(c: real, a: Vector): Vector
  {
    seq(|a|, i requires 0 <= i < |a| => c * a[i])
  }

  /** The zero vector of length n. */
  function Zeros(n: nat): Vector
  {
    seq(n, i => 0.0)
  }

  /** a (b y) = (a b) y; the product is passed in as ab so that callers can
      name it in whatever arithmetic form they reach it. */
  lemma ScaleScale(a: real, b: real, ab: real, y: Vector)
    requires ab == a * b
    ensures Scale(a, Scale(b, y)) == Scale(ab, y)
  {
    forall i | 0 <= i < |y|
      ensures Scale(a, Scale(b, y))[i] == Scale(ab, y)[i]
    {
      calc {
        Scale(a, Scale(b, y))[i];
        a * (b * y[i]);
        (a * b) * y[i];
      }
    }
  }

  /** a y + b y = (a + b) y, with the sum passed in as s. */
  lemma AddScales(a: real, b: real, s: real, y: Vector)
    requires s == a + b
    ensures Add(Scale(a, y), Scale(b, y)) == Scale(s, y)
  {
    forall i | 0 <= i < |y|
      ensures Add(Scale(a, y), Scale(b, y))[i] == Scale(s, y)[i]
    {
      calc {
        Add(Scale(a, y), Scale(b, y))[i];
        a * y[i] + b * y[i];
        (a + b) * y[i];
      }
    }
  }

  lemma ScaleOne(y: Vector)
    ensures Scale(1.0, y) == y
  {
  }

  lemma AddZeros(y: Vector)
    ensures Add(y, Zeros(|y|)) == y
  {
  }

  lemma ScaleZeros(c: real, n: nat)
    ensures Scale(c, Zeros(n)) == Zeros(n)
  {
  }
}
