/** Properties of the economic models: the validity check, independence of
    time, linearity of the monetary model, and the rest points and steady
    states of each model. */
module EconomicProperties {
  import opened Outcomes
  import opened Vectors
  import opened EconomicModels

  /** Setting one parameter keeps the model valid exactly when the new value
      is positive and the other parameters are valid. */
  lemma ValidAfterSet(m: EconomicModel, k: string, v: real)
    ensures EconomicModel(m.params[k := v]).IsModelValid()
        <==> v > 0.0 && EconomicModel(m.params - {k}).IsModelValid()
  {
    var updated := m.params[k := v];
    var rest := m.params - {k};
    if v > 0.0 && EconomicModel(rest).IsModelValid() {
      forall j | j in updated
        ensures updated[j] > 0.0
      {
        if j != k {
          assert j in rest;
        }
      }
    }
    if EconomicModel(updated).IsModelValid() {
      assert updated[k] == v;
      forall j | j in rest
        ensures rest[j] > 0.0
      {
        assert rest[j] == updated[j];
      }
    }
  }

  /** None of the three models reads t. */
  lemma ModelsIgnoreTime(t1: real, t2: real, y: Vector, power: (real, real) -> real, a: real, b: real, c: real)
    ensures BusinessCycleModel(t1, y, power, a, b, c) == BusinessCycleModel(t2, y, power, a, b, c)
    ensures MonetaryPolicyModel(t1, y, a, b, c) == MonetaryPolicyModel(t2, y, a, b, c)
    ensures FiscalPolicyModel(t1, y, a, b, c) == FiscalPolicyModel(t2, y, a, b, c)
  {
  }

  /** The monetary model is a linear map of the state:
      M(a y + b z) = a M(y) + b M(z). */
  lemma MonetaryLinear(t: real, y: Vector, z: Vector, a: real, b: real,
                       phiPi: real, phiY: real, sigma: real)
    requires |y| == 2 && |z| == 2 && sigma != 0.0
    ensures var my := MonetaryPolicyModel(t, y, phiPi, phiY, sigma).value;
            var mz := MonetaryPolicyModel(t, z, phiPi, phiY, sigma).value;
            MonetaryPolicyModel(t, Add(Scale(a, y), Scale(b, z)), phiPi, phiY, sigma)
              == Ok(Add(Scale(a, my), Scale(b, mz)))
  {
    var y0, y1, z0, z1 := y[0], y[1], z[0], z[1];
    var w := Add(Scale(a, y), Scale(b, z));
    var w0, w1 := a * y0 + b * z0, a * y1 + b * z1;
    assert |w| == 2 && w[0] == w0 && w[1] == w1;
    assert w == [w0, w1];
    assert y == [y0, y1] && z == [z0, z1];
    var my0, my1 := MonetaryAt(t, y0, y1, phiPi, phiY, sigma);
    var mz0, mz1 := MonetaryAt(t, z0, z1, phiPi, phiY, sigma);
    var mw0, mw1 := MonetaryAt(t, w0, w1, phiPi, phiY, sigma);
    InflationComponentLinear(sigma, a, b, y1, z1, my0, mz0, mw0);
    GapComponentLinear(sigma, phiPi, phiY, a, b, y0, y1, z0, z1, my1, mz1, mw1);
    var rhs := Add(Scale(a, [my0, my1]), Scale(b, [mz0, mz1]));
    assert |rhs| == 2 && rhs[0] == a * my0 + b * mz0 && rhs[1] == a * my1 + b * mz1;
    assert rhs == [mw0, mw1];
  }

  /** The monetary model at the state [u0, u1], component by component. */
  lemma MonetaryAt(t: real, u0: real, u1: real, phiPi: real, phiY: real, sigma: real)
    returns (d0: real, d1: real)
    requires sigma != 0.0
    ensures d0 == sigma * u1 && d1 == -(1.0 / sigma) * (phiPi * u0 + phiY * u1)
    ensures MonetaryPolicyModel(t, [u0, u1], phiPi, phiY, sigma) == Ok([d0, d1])
  {
    d0, d1 := sigma * u1, -(1.0 / sigma) * (phiPi * u0 + phiY * u1);
    var r := MonetaryPolicyModel(t, [u0, u1], phiPi, phiY, sigma).value;
    assert |r| == 2 && r[0] == d0 && r[1] == d1;
    assert r == [d0, d1];
  }

  lemma InflationComponentLinear(sigma: real, a: real, b: real, y1: real, z1: real,
                                 my0: real, mz0: real, mw0: real)
    requires my0 == sigma * y1 && mz0 == sigma * z1 && mw0 == sigma * (a * y1 + b * z1)
    ensures mw0 == a * my0 + b * mz0
  {
  }

  lemma GapComponentLinear(sigma: real, phiPi: real, phiY: real, a: real, b: real,
                           y0: real, y1: real, z0: real, z1: real, my1: real, mz1: real, mw1: real)
    requires sigma != 0.0
    requires my1 == -(1.0 / sigma) * (phiPi * y0 + phiY * y1)
    requires mz1 == -(1.0 / sigma) * (phiPi * z0 + phiY * z1)
    requires mw1 == -(1.0 / sigma) * (phiPi * (a * y0 + b * z0) + phiY * (a * y1 + b * z1))
    ensures mw1 == a * my1 + b * mz1
  {
    var s := -(1.0 / sigma);
    var iy, iz := phiPi * y0 + phiY * y1, phiPi * z0 + phiY * z1;
    assert phiPi * (a * y0 + b * z0) + phiY * (a * y1 + b * z1) == a * iy + b * iz;
    assert s * (a * iy + b * iz) == a * (s * iy) + b * (s * iz);
  }

  /** For any sigma != 0 the zero state is a rest point of the monetary
      model; when also phi_pi != 0 it is the only one. */
  lemma MonetaryRestPoint(t: real, y: Vector, phiPi: real, phiY: real, sigma: real)
    requires |y| == 2 && sigma != 0.0
    ensures MonetaryPolicyModel(t, Zeros(2), phiPi, phiY, sigma) == Ok(Zeros(2))
    ensures phiPi != 0.0 ==> (MonetaryPolicyModel(t, y, phiPi, phiY, sigma) == Ok(Zeros(2)) <==> y == Zeros(2))
  {
    var o := Zeros(2);
    assert o == [0.0, 0.0];
    if phiPi != 0.0 && MonetaryPolicyModel(t, y, phiPi, phiY, sigma) == Ok(o) {
      var r := MonetaryPolicyModel(t, y, phiPi, phiY, sigma).value;
      assert r[0] == sigma * y[1] == 0.0;
      assert y[1] == 0.0;
      assert r[1] == -(1.0 / sigma) * (phiPi * y[0]) == 0.0;
      assert phiPi * y[0] == 0.0;
      assert y == o;
    }
  }

  /** The output derivative of the fiscal model vanishes exactly when
      tau output = g, whatever the debt. */
  lemma FiscalOutputSteady(t: real, y: Vector, g: real, tau: real, theta: real)
    requires |y| >= 2
    ensures FiscalPolicyModel(t, y, g, tau, theta).value[1] == 0.0 <==> tau * y[1] == g
    ensures forall debt: real :: FiscalPolicyModel(t, [debt, y[1]], g, tau, theta).value[1]
                                 == FiscalPolicyModel(t, y, g, tau, theta).value[1]
  {
  }

  /** output = g / tau, debt = (g - (1 - tau) output) / theta. */
  function FiscalSteadyState(g: real, tau: real, theta: real): Vector
    requires tau != 0.0 && theta != 0.0
  {
    var output := g / tau;
    [(g - (1.0 - tau) * output) / theta, output]
  }

  /** With tau != 0 and theta != 0 the fiscal model has a steady state. */
  lemma FiscalSteadyStateIsRest(t: real, g: real, tau: real, theta: real)
    requires tau != 0.0 && theta != 0.0
    ensures FiscalPolicyModel(t, FiscalSteadyState(g, tau, theta), g, tau, theta) == Ok(Zeros(2))
  {
    var y := FiscalSteadyState(g, tau, theta);
    var output, debt := y[1], y[0];
    var r := FiscalPolicyModel(t, y, g, tau, theta).value;
    assert tau * output == g;
    assert theta * debt == g - (1.0 - tau) * output;
    assert r[0] == 0.0 && r[1] == 0.0;
    assert r == [0.0, 0.0] == Zeros(2);
  }

  /** The capital derivative of the business-cycle model is
      beta (output - delta capital), whatever alpha and the power function;
      with beta != 0 it vanishes exactly when output = delta capital. */
  lemma BusinessCycleCapital(t: real, y: Vector, p1: (real, real) -> real, p2: (real, real) -> real,
                             a1: real, a2: real, beta: real, delta: real)
    requires |y| >= 2
    ensures BusinessCycleModel(t, y, p1, a1, beta, delta).value[1]
         == BusinessCycleModel(t, y, p2, a2, beta, delta).value[1]
    ensures beta != 0.0 ==>
              (BusinessCycleModel(t, y, p1, a1, beta, delta).value[1] == 0.0 <==> y[0] == delta * y[1])
  {
  }
}
