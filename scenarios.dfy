/** The economic models fed to the driver, as the dashboard binds their
    parameters into a two-argument field, and concrete runs of the driver. */
module Scenarios {
  import opened Outcomes
  import opened Vectors
  import opened RkMethods
  import opened RkStepProperties
  import opened RkSolveProperties
  import opened EconomicModels
  import opened EconomicProperties

  /** A model function with its parameters bound, seen as a vector field:
      defined wherever the model does not raise. */
  function AsField(model: (real, Vector) -> Result<Vector>): VectorField
  {
    (t: real, y: Vector) requires model(t, y).Ok? => model(t, y).value
  }

  function MonetaryField(phiPi: real, phiY: real, sigma: real): VectorField
  {
    AsField((t: real, y: Vector) => MonetaryPolicyModel(t, y, phiPi, phiY, sigma))
  }

  function FiscalField(g: real, tau: real, theta: real): VectorField
  {
    AsField((t: real, y: Vector) => FiscalPolicyModel(t, y, g, tau, theta))
  }

  function BusinessCycleField(power: (real, real) -> real, alpha: real, beta: real, delta: real): VectorField
  {
    AsField((t: real, y: Vector) => BusinessCycleModel(t, y, power, alpha, beta, delta))
  }

  /** The monetary model is a field on two-entry states when sigma != 0,
      and a run started at the zero state stays there. */
  lemma MonetaryRunAtRest(phiPi: real, phiY: real, sigma: real, tStart: real, tEnd: real, h: real, name: string)
    requires sigma != 0.0
    ensures FieldOn(MonetaryField(phiPi, phiY, sigma), 2)
    ensures var run := Solve(MonetaryField(phiPi, phiY, sigma), tStart, tEnd, Zeros(2), h, name);
            run.Ok? ==> forall i :: 0 <= i < |run.value.states| ==> run.value.states[i] == Zeros(2)
  {
    var f := MonetaryField(phiPi, phiY, sigma);
    forall s: real
      ensures f(s, Zeros(2)) == Zeros(2)
    {
      MonetaryRestPoint(s, Zeros(2), phiPi, phiY, sigma);
    }
    if Solve(f, tStart, tEnd, Zeros(2), h, name).Ok? {
      SolveAtRest(f, tStart, tEnd, Zeros(2), h, name);
    }
  }

  /** The fiscal model is a field on two-entry states for all parameters,
      and with tau != 0 and theta != 0 a run started at its steady state
      stays there. */
  lemma FiscalRunAtSteadyState(g: real, tau: real, theta: real, tStart: real, tEnd: real, h: real, name: string)
    requires tau != 0.0 && theta != 0.0
    ensures FieldOn(FiscalField(g, tau, theta), 2)
    ensures var ys := FiscalSteadyState(g, tau, theta);
            var run := Solve(FiscalField(g, tau, theta), tStart, tEnd, ys, h, name);
            run.Ok? ==> forall i :: 0 <= i < |run.value.states| ==> run.value.states[i] == ys
  {
    var f := FiscalField(g, tau, theta);
    var ys := FiscalSteadyState(g, tau, theta);
    forall s: real
      ensures f(s, ys) == Zeros(2)
    {
      FiscalSteadyStateIsRest(s, g, tau, theta);
    }
    if Solve(f, tStart, tEnd, ys, h, name).Ok? {
      SolveAtRest(f, tStart, tEnd, ys, h, name);
    }
  }

  /** The business-cycle model is a field on two-entry states for any
      parameters and any power function. */
  lemma BusinessCycleFieldOn(power: (real, real) -> real, alpha: real, beta: real, delta: real)
    ensures FieldOn(BusinessCycleField(power, alpha, beta, delta), 2)
  {
  }

  /** Exponential decay dy/dt = -y from y0 = [1] over [0, 1] with h = 0.1:
      ten Euler steps land exactly on (1 - 0.1)^10. */
  lemma EulerDecay()
    ensures FieldOn(Linear(-1.0), 1)
    ensures var run := Solve(Linear(-1.0), 0.0, 1.0, [1.0], 0.1, "RK1");
            run.Ok? && |run.value.states| == 11 && run.value.states[10] == [0.3486784401]
  {
    assert StepCount(0.0, 1.0, 0.1) == 10;
    SolveErrors(Linear(-1.0), 0.0, 1.0, [1.0], 0.1, "RK1");
    SolveLinear(-1.0, 0.0, 1.0, [1.0], 0.1, "RK1");
    assert Amplification(RK1, 0.1 * -1.0) == 0.9;
    assert Power(0.9, 10) == 0.3486784401;
  }

  /** "RK3" is not in the step table: the lookup fails. */
  lemma UnknownMethodFails()
    ensures FieldOn(Linear(-1.0), 1)
    ensures Solve(Linear(-1.0), 0.0, 1.0, [1.0], 0.1, "RK3") == Err(KeyError("RK3"))
  {
    assert StepCount(0.0, 1.0, 0.1) == 10;
  }

  /** A zero step fails at the division, before anything else is looked at. */
  lemma ZeroStepFails(name: string)
    ensures FieldOn(Linear(-1.0), 1)
    ensures Solve(Linear(-1.0), 0.0, 1.0, [1.0], 0.0, name) == Err(ZeroDivisionError)
  {
  }

  /** Over [0, 1] with h = 0.3 the driver takes three steps of 0.3 but
      labels the last state with t = 1, not 0.9. */
  lemma GridOutrunsSteps(c: real, y0: Vector, name: string)
    requires name in {"RK1", "RK2", "RK4"}
    ensures FieldOn(Linear(c), |y0|)
    ensures var run := Solve(Linear(c), 0.0, 1.0, y0, 0.3, name);
            && run.Ok?
            && |run.value.times| == 4 && run.value.times[3] == 1.0 && run.value.times[1] == 1.0 / 3.0
            && |run.value.states| == 4
            && run.value.states[3] == Scale(Power(Amplification(LookupMethod(name).value, 0.3 * c), 3), y0)
  {
    assert StepCount(0.0, 1.0, 0.3) == 3;
    var run := Solve(Linear(c), 0.0, 1.0, y0, 0.3, name);
    assert run.Ok? && |run.value.states| == 4;
    SolveGrid(Linear(c), 0.0, 1.0, y0, 0.3, name);
    SolveLinear(c, 0.0, 1.0, y0, 0.3, name);
  }

  /** A backward span shorter than one step: int(-0.5) is 0, so the driver
      returns the one-point trajectory, where a floor would have given -1
      steps and an IndexError. */
  lemma BackwardSpanNoSteps(y0: Vector)
    ensures FieldOn(Linear(1.0), |y0|)
    ensures StepCount(0.0, -0.05, 0.1) == 0 && ((-0.05 - 0.0) / 0.1).Floor == -1
    ensures Solve(Linear(1.0), 0.0, -0.05, y0, 0.1, "RK4") == Ok(Trajectory([0.0], [y0]))
  {
    SolveNoSteps(Linear(1.0), 0.0, -0.05, y0, 0.1, "RK4");
  }

  /** A negative step over a backward span integrates backward in time:
      [0, -1] with h = -0.1 takes ten steps. */
  lemma BackwardIntegration(c: real, y0: Vector, name: string)
    requires name in {"RK1", "RK2", "RK4"}
    ensures FieldOn(Linear(c), |y0|)
    ensures StepCount(0.0, -1.0, -0.1) == 10
    ensures var run := Solve(Linear(c), 0.0, -1.0, y0, -0.1, name);
            run.Ok? && |run.value.states| == 11 && run.value.times[10] == -1.0
  {
    assert StepCount(0.0, -1.0, -0.1) == 10;
    SolveGrid(Linear(c), 0.0, -1.0, y0, -0.1, name);
  }
}
