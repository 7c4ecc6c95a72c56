/** Algebraic properties of the three step formulas: the stability
    polynomial each one applies on a linear field, the rest point it leaves
    alone, and the quadrature rule it reduces to when the field depends on
    time only. */
module RkStepProperties {
  import opened Vectors
  import opened RkMethods

  /** The linear test field f(t, y) = c y. */
  function Linear(c: real): VectorField
  {
    (t: real, y: Vector) => Scale(c, y)
  }

  /** The amplification factor R(z), z = h c, of each method: one step on
      the linear field multiplies the state by R(h c). */
  function Amplification(m: StepMethod, z: real): real
  {
    match m
    case RK1 => 1.0 + z
    case RK2 => 1.0 + z + z * z / 2.0
    case RK4 => 1.0 + z + z * z / 2.0 + z * z * z / 6.0 + z * z * z * z / 24.0
  }

  /** One stage on the linear field at state a y: h f(s, a y) = (h c a) y. */
  lemma LinearStage(c: real, h: real, s: real, a: real, k: real, y: Vector)
    requires k == h * c * a
    ensures Scale(h, Linear(c)(s, Scale(a, y))) == Scale(k, y)
  {
    calc {
      Scale(h, Linear(c)(s, Scale(a, y)));
      Scale(h, Scale(c, Scale(a, y)));
      { ScaleScale(c, a, c * a, y); }
      Scale(h, Scale(c * a, y));
      { ScaleScale(h, c * a, k, y); }
      Scale(k, y);
    }
  }

  /** y + b (a y) = (1 + b a) y. */
  lemma ShiftBy(b: real, a: real, m: real, y: Vector)
    requires m == 1.0 + b * a
    ensures Add(y, Scale(b, Scale(a, y))) == Scale(m, y)
  {
    ScaleScale(b, a, b * a, y);
    ScaleOne(y);
    AddScales(1.0, b * a, m, y);
  }

  lemma {:induction false} Rk1Linear(c: real, t: real, y: Vector, h: real)
    ensures Rk1Step(Linear(c), t, y, h) == Scale(Amplification(RK1, h * c), y)
  {
    ScaleOne(y);
    var z := h * c;
    LinearStage(c, h, t, 1.0, z, y);
    ScaleScale(1.0, z, z, y);
    ShiftBy(1.0, z, 1.0 + z, y);
  }

  lemma {:induction false} Rk2Linear(c: real, t: real, y: Vector, h: real)
    ensures Rk2Step(Linear(c), t, y, h) == Scale(Amplification(RK2, h * c), y)
  {
    ScaleOne(y);
    var z := h * c;
    LinearStage(c, h, t, 1.0, z, y);
    var m2 := 1.0 + 0.5 * z;
    ShiftBy(0.5, z, m2, y);
    var a2 := z * m2;
    LinearStage(c, h, t + 0.5 * h, m2, a2, y);
    ScaleScale(1.0, a2, a2, y);
    ShiftBy(1.0, a2, 1.0 + a2, y);
    assert 1.0 + a2 == Amplification(RK2, z);
  }

  lemma {:induction false} Rk4Linear(c: real, t: real, y: Vector, h: real)
    ensures Rk4Step(Linear(c), t, y, h) == Scale(Amplification(RK4, h * c), y)
  {
    ScaleOne(y);
    var z := h * c;
    var f := Linear(c);
    var k1 := Scale(h, f(t, y));
    LinearStage(c, h, t, 1.0, z, y);
    assert k1 == Scale(z, y);
    var m2 := 1.0 + 0.5 * z;
    ShiftBy(0.5, z, m2, y);
    var a2 := z * m2;
    var k2 := Scale(h, f(t + 0.5 * h, Add(y, Scale(0.5, k1))));
    LinearStage(c, h, t + 0.5 * h, m2, a2, y);
    assert k2 == Scale(a2, y);
    var m3 := 1.0 + 0.5 * a2;
    ShiftBy(0.5, a2, m3, y);
    var a3 := z * m3;
    var k3 := Scale(h, f(t + 0.5 * h, Add(y, Scale(0.5, k2))));
    LinearStage(c, h, t + 0.5 * h, m3, a3, y);
    assert k3 == Scale(a3, y);
    var m4 := 1.0 + a3;
    ScaleScale(1.0, a3, a3, y);
    ShiftBy(1.0, a3, m4, y);
    var a4 := z * m4;
    var k4 := Scale(h, f(t + h, Add(y, k3)));
    LinearStage(c, h, t + h, m4, a4, y);
    assert k4 == Scale(a4, y);
    ScaleScale(2.0, a2, 2.0 * a2, y);
    ScaleScale(2.0, a3, 2.0 * a3, y);
    AddScales(z, 2.0 * a2, z + 2.0 * a2, y);
    AddScales(z + 2.0 * a2, 2.0 * a3, z + 2.0 * a2 + 2.0 * a3, y);
    var sum := z + 2.0 * a2 + 2.0 * a3 + a4;
    AddScales(z + 2.0 * a2 + 2.0 * a3, a4, sum, y);
    var total := 1.0 + (1.0 / 6.0) * sum;
    ShiftBy(1.0 / 6.0, sum, total, y);
    assert total == Amplification(RK4, z);
  }

  /** Whatever the method, one step on the linear field multiplies the state
      by that method's amplification factor. */
  lemma StepLinear(m: StepMethod, c: real, t: real, y: Vector, h: real)
    ensures Step(m, Linear(c), t, y, h) == Scale(Amplification(m, h * c), y)
  {
    match m
    case RK1 => Rk1Linear(c, t, y, h);
    case RK2 => Rk2Linear(c, t, y, h);
    case RK4 => Rk4Linear(c, t, y, h);
  }

  /** y is a rest point of f: f vanishes at y at every time. */
  ghost predicate AtRest(f: VectorField, y: Vector)
    requires FieldOn(f, |y|)
  {
    forall s: real :: f(s, y) == Zeros(|y|)
  }

  /** A zero slope leaves the state where it is: h 0 = 0 and y + b 0 = y. */
  lemma ZeroStage(h: real, b: real, y: Vector)
    ensures Scale(h, Zeros(|y|)) == Zeros(|y|)
    ensures Add(y, Scale(b, Zeros(|y|))) == y
  {
    ScaleZeros(h, |y|);
    ScaleZeros(b, |y|);
    AddZeros(y);
  }

  /** Every step function returns a rest point unchanged. */
  lemma {:induction false} StepAtRest(m: StepMethod, f: VectorField, t: real, y: Vector, h: real)
    requires FieldOn(f, |y|) && AtRest(f, y)
    ensures Step(m, f, t, y, h) == y
  {
    var o := Zeros(|y|);
    ZeroStage(h, 0.5, y);
    ZeroStage(1.0, 1.0, y);
    ScaleOne(o);
    var k1 := Scale(h, f(t, y));
    assert k1 == o;
    var k2 := Scale(h, f(t + 0.5 * h, Add(y, Scale(0.5, k1))));
    assert k2 == o;
    match m
    case RK1 =>
    case RK2 =>
    case RK4 =>
      var k3 := Scale(h, f(t + 0.5 * h, Add(y, Scale(0.5, k2))));
      assert k3 == o;
      var k4 := Scale(h, f(t + h, Add(y, k3)));
      assert Add(y, k3) == y;
      assert k4 == o;
      ZeroStage(2.0, 2.0, y);
      ZeroStage(1.0 / 6.0, 1.0 / 6.0, y);
      AddZeros(o);
      assert Add(Add(Add(k1, Scale(2.0, k2)), Scale(2.0, k3)), k4) == o;
  }

  /** The zero field f(t, y) = 0. */
  function ZeroField(): VectorField
  {
    (t: real, y: Vector) => Zeros(|y|)
  }

  lemma StepZeroField(m: StepMethod, t: real, y: Vector, h: real)
    ensures Step(m, ZeroField(), t, y, h) == y
  {
    StepAtRest(m, ZeroField(), t, y, h);
  }

  /** f does not depend on the state at all (dy/dt = g(t)) on states of
      length n. */
  ghost predicate TimeOnly(f: VectorField, n: nat)
    requires FieldOn(f, n)
  {
    forall s: real, y1: Vector, y2: Vector :: |y1| == n && |y2| == n ==> f(s, y1) == f(s, y2)
  }

  /** On dy/dt = g(t), the second-order step is the midpoint rule
      y + h g(t + h/2); the first stage drops out. */
  lemma {:induction false} Rk2Quadrature(f: VectorField, t: real, y: Vector, h: real)
    requires FieldOn(f, |y|) && TimeOnly(f, |y|)
    ensures Rk2Step(f, t, y, h) == Add(y, Scale(h, f(t + 0.5 * h, y)))
  {
    var k1 := Scale(h, f(t, y));
    assert f(t + 0.5 * h, Add(y, Scale(0.5, k1))) == f(t + 0.5 * h, y);
  }

  /** On dy/dt = g(t), the classical step is Simpson's rule
      y + h (g(t) + 4 g(t + h/2) + g(t + h)) / 6. */
  lemma {:induction false} Rk4Quadrature(f: VectorField, t: real, y: Vector, h: real)
    requires FieldOn(f, |y|) && TimeOnly(f, |y|)
    ensures Rk4Step(f, t, y, h)
         == Add(y, Scale(h / 6.0, Add(Add(f(t, y), Scale(4.0, f(t + 0.5 * h, y))), f(t + h, y))))
  {
    var g0, gm, g1 := f(t, y), f(t + 0.5 * h, y), f(t + h, y);
    var k1 := Scale(h, g0);
    var k2 := Scale(h, f(t + 0.5 * h, Add(y, Scale(0.5, k1))));
    assert k2 == Scale(h, gm);
    var k3 := Scale(h, f(t + 0.5 * h, Add(y, Scale(0.5, k2))));
    assert k3 == Scale(h, gm);
    var k4 := Scale(h, f(t + h, Add(y, k3)));
    assert k4 == Scale(h, g1);
    SimpsonCombination(h, g0, gm, g1);
  }

  /** (k1 + 2 k2 + 2 k3 + k4) / 6 with k1 = h g0, k2 = k3 = h gm, k4 = h g1. */
  lemma SimpsonCombination(h: real, g0: Vector, gm: Vector, g1: Vector)
    requires |g0| == |gm| == |g1|
    ensures Scale(1.0 / 6.0, Add(Add(Add(Scale(h, g0), Scale(2.0, Scale(h, gm))), Scale(2.0, Scale(h, gm))), Scale(h, g1)))
         == Scale(h / 6.0, Add(Add(g0, Scale(4.0, gm)), g1))
  {
    var sum := Add(Add(Add(Scale(h, g0), Scale(2.0, Scale(h, gm))), Scale(2.0, Scale(h, gm))), Scale(h, g1));
    var lhs := Scale(1.0 / 6.0, sum);
    var rhs := Scale(h / 6.0, Add(Add(g0, Scale(4.0, gm)), g1));
    forall i | 0 <= i < |g0|
      ensures lhs[i] == rhs[i]
    {
      assert sum[i] == h * g0[i] + 2.0 * (h * gm[i]) + 2.0 * (h * gm[i]) + h * g1[i];
      SimpsonWeights(h, g0[i], gm[i], g1[i]);
    }
  }

  lemma SimpsonWeights(h: real, a: real, b: real, c: real)
    ensures (1.0 / 6.0) * (h * a + 2.0 * (h * b) + 2.0 * (h * b) + h * c) == (h / 6.0) * (a + 4.0 * b + c)
  {
  }
}
