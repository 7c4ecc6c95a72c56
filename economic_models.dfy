/** The toy economic models: closed-form right-hand sides over a two-entry
    state, each with its default parameters, and the parameter-set
    validity check. */
module EconomicModels {
  import opened Outcomes
  import opened Vectors

  /** A model's named parameters, stored once when the model is built. */
  datatype EconomicModel = EconomicModel(params: map<string, real>)
  {
    /** Every parameter value is strictly positive: read per name, every
        named parameter is positive, which holds vacuously for none. */
    predicate IsModelValid(): (valid: bool)
      ensures valid <==> forall k :: k in params ==> params[k] > 0.0
      ensures params == map[] ==> valid
    {
      assert forall k :: k in params ==> params[k] in params.Values;
      forall p :: p in params.Values ==> p > 0.0
    }
  }

  /** Business cycle: y = [output, capital]. The output derivative is
      alpha capital^(alpha - 1) - delta, where `power` stands for Python's
      real exponentiation; the capital derivative is
      beta (output - delta capital). A state shorter than two entries is an
      IndexError. */
  function BusinessCycleModel(t: real, y: Vector, power: (real, real) -> real,
                              alpha: real := 0.3, beta: real := 0.95, delta: real := 0.1): (r: Result<Vector>)
    ensures r.Ok? <==> |y| >= 2
    ensures r.Err? ==> r.error == IndexError
    ensures r.Ok? ==> |r.value| == 2
  {
    if |y| < 2 then Err(IndexError)
    else
      var output, capital := y[0], y[1];
      var dyOutput := alpha * power(capital, alpha - 1.0) - delta;
      var dyCapital := beta * (output - delta * capital);
      Ok([dyOutput, dyCapital])
  }

  /** New Keynesian model: y = [inflation, output gap]. The Phillips curve
      gives sigma gap; the IS curve with a Taylor rule gives
      -(1/sigma)(phi_pi inflation + phi_y gap). A state shorter than two
      entries is an IndexError; sigma = 0 fails at the division. */
  function MonetaryPolicyModel(t: real, y: Vector,
                               phiPi: real := 1.5, phiY: real := 0.5, sigma: real := 1.0): (r: Result<Vector>)
    ensures |y| < 2 ==> r == Err(IndexError)
    ensures |y| >= 2 && sigma == 0.0 ==> r == Err(ZeroDivisionError)
    ensures r.Ok? <==> |y| >= 2 && sigma != 0.0
    ensures r.Ok? ==> |r.value| == 2
  {
    if |y| < 2 then Err(IndexError)
    else
      var inflation, outputGap := y[0], y[1];
      var dyInflation := sigma * outputGap;
      if sigma == 0.0 then Err(ZeroDivisionError)
      else
        var dyOutput := -(1.0 / sigma) * (phiPi * inflation + phiY * outputGap);
        Ok([dyInflation, dyOutput])
  }

  /** Fiscal policy: y = [debt, output]. Debt moves by
      (1 - tau) output - g + theta debt, output by g - tau output. A state
      shorter than two entries is an IndexError. */
  function FiscalPolicyModel(t: real, y: Vector,
                             g: real := 0.2, tau: real := 0.3, theta: real := 0.1): (r: Result<Vector>)
    ensures r.Ok? <==> |y| >= 2
    ensures r.Err? ==> r.error == IndexError
    ensures r.Ok? ==> |r.value| == 2
  {
    if |y| < 2 then Err(IndexError)
    else
      var debt, output := y[0], y[1];
      var dyDebt := (1.0 - tau) * output - g + theta * debt;
      var dyOutput := g - tau * output;
      Ok([dyDebt, dyOutput])
  }
}
