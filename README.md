# Fixed-step Runge–Kutta engine and toy economic models, in Dafny

This project models the numerical core of an economic-policy dashboard:

- the explicit Runge–Kutta engine of `rk_methods.py`. It has three step formulas: Euler, a midpoint-style second-order step, and classical RK4. It also has the driver `solve_ode`, which truncates `(t_end - t_start)/h` to a step count and builds a `numpy.linspace` time grid. The driver then allocates a zero buffer of `steps + 1` rows, writes `y0` into row 0, looks the method name up in its step table, and fills row `i+1` from row `i` in a loop.
- the vector fields of `economic_models.py`: the monetary-policy and fiscal-policy models, the business-cycle model, and the parameter check `EconomicModel.is_model_valid`.

All arithmetic is over Dafny's exact `real`. A state vector is a `seq<real>` (`Vectors`). A vector field is a partial function `(real, seq<real>) --> seq<real>`. The driver requires the field to be defined on, and to preserve, states of the length of `y0` (`RkMethods.FieldOn`). Python exceptions become the `Err` variant of `Outcomes.Result`:

- `ZeroDivisionError` for `h == 0` or `sigma == 0`;
- `NegativeSampleCount` for the `ValueError` numpy.linspace raises on a negative number of samples;
- `IndexError` for a write into an empty buffer or a state shorter than two entries;
- `KeyError` for an unknown method name.

The step functions and models are pure functions. The driver is a method, `RkMethods.SolveOde`. It fills an `array` of rows in a `for` loop, with loop invariants, and it is proved equal to the specification function `RkMethods.Solve`. The behaviour is stated as lemmas about `Solve`. The method name defaults to `"RK4"`, and every model parameter defaults to the value in the source. Both are Dafny default parameter values.

How `solve_ode` behaves at its edges, as the code is written:

- The step count is `int((t_end - t_start) / h)`, which truncates toward zero (`RkMethods.TruncToZero`, `RkMethods.StepCount`). For a negative non-integer quotient this differs from a floor. For example, a backward span shorter than one step gives zero steps and a one-point run (`Scenarios.BackwardSpanNoSteps`).
- The time grid is `numpy.linspace(t_start, t_end, steps + 1)`. For `steps >= 1` it ends at `t_end`, with spacing `(t_end - t_start)/steps`. With no step it is `[t_start]`, even when `t_end != t_start`. The states are advanced by `h` each step. `RkSolveProperties.LinspaceSpacing` proves that the two agree exactly when the span is a whole number of steps. `Scenarios.GridOutrunsSteps` shows a case where they do not.
- `solve_ode` does not validate `h`, the span or the method name. Failures arise in this order:
  1. the division raises `ZeroDivisionError` for `h == 0`;
  2. `linspace` raises `ValueError` when `steps + 1 < 0`;
  3. when `steps == -1`, `linspace` returns an empty grid, the buffer has no rows, and the write of row 0 raises `IndexError`;
  4. an unknown name raises `KeyError` at the table lookup.
- `solve_ode` never checks the length of `f`'s result. The model excludes a length mismatch through the `FieldOn` precondition.

## Model

| member | source | states |
|---|---|---|
| RkMethods.Rk1Step | rk_methods.py:3-6 | Euler step `y + h·f(t,y)`; the result has the length of `y` |
| RkMethods.Rk2Step | rk_methods.py:8-12 | second-order step `y + k2`, with `k2` taken at the midpoint that `k1` locates; the result has the length of `y` |
| RkMethods.Rk4Step | rk_methods.py:14-20 | classical RK4 combination `y + (k1 + 2k2 + 2k3 + k4)/6`; the result has the length of `y` |
| RkMethods.Step | rk_methods.py:30-34 | calling the step function the table holds for a method keeps the state length |
| RkMethods.LookupMethod | rk_methods.py:30-36 | the lookup succeeds exactly for "RK1", "RK2" and "RK4" (case-sensitive), and the entry found is registered under that very name |
| RkMethods.StepCount | rk_methods.py:25 | the step count is zero for a span shorter than one step in either direction, and never positive when the span and `h` have opposite signs. When they have the same sign it is the number of whole steps that fit: `h·n <= t_end - t_start < h·(n + 1)` for `h > 0` and a forward span, and `-h·n <= t_start - t_end < -h·(n + 1)` for `h < 0` and a backward span |
| RkMethods.WholeStepsFit | rk_methods.py:25 | for `x >= 0` and `h > 0`, `n = int(x/h)` satisfies `h·n <= x < h·(n + 1)` |
| RkMethods.TruncToZero | rk_methods.py:25 | `int()` on a real truncates toward zero: `0 <= n <= x < n+1` for `x >= 0`, and `n-1 < x <= n <= 0` for `x < 0` |
| RkMethods.Linspace | rk_methods.py:26 | numpy.linspace: a negative count is an error; otherwise `num` samples, the first is `start`, the last is `stop` when `num >= 2`, and consecutive samples differ by `(stop - start)/(num - 1)` |
| RkMethods.Rows | rk_methods.py:38-39 | the rows the loop writes: `steps + 1` rows of the length of `y0`, row 0 is `y0`, and row `k+1` is the step applied to row `k` at grid time `ts[k]` |
| RkMethods.Solve | rk_methods.py:22-41 | a call succeeds exactly when `h != 0`, the step count is at least 0 and the name is in the table; on success, `times` and `states` both have `steps + 1` entries, `times[0]` is `t_start` and `states[0]` is `y0` |
| RkMethods.SolveOde | rk_methods.py:22-41 | the driver (division, grid, zero buffer, row 0, lookup, stepping loop) returns exactly what `Solve` specifies, errors included |
| RkSolveProperties.SolveErrors | rk_methods.py:25-36 | `h == 0` gives ZeroDivisionError; `steps < -1` gives linspace's negative-count error; `steps == -1` gives IndexError at row 0; an unknown name gives KeyError; success exactly when `h != 0`, `steps >= 0` and the name is in the table |
| RkSolveProperties.SolveTrajectory | rk_methods.py:25-39 | on success, `times` and `states` both have `steps + 1` entries, every row has the length of `y0`, row 0 is `y0`, and row `i+1` is the selected step applied to row `i` at `times[i]` with step `h` |
| RkSolveProperties.LinspaceClosedForm | rk_methods.py:26 | the grid sample `i` is `start + i·(stop - start)/n`, and the last one is `stop` |
| RkSolveProperties.SolveGrid | rk_methods.py:25-26 | on success, the time grid is `[t_start]` when there are no steps; otherwise it is evenly spaced from `t_start` to exactly `t_end` |
| RkSolveProperties.LinspaceSpacing | rk_methods.py:26-39 | the grid spacing equals the step `h` used to advance the states if and only if `t_end - t_start = steps·h` |
| RkSolveProperties.SolveNoSteps | rk_methods.py:25-38 | a span shorter than one step in either direction (`-1 < (t_end - t_start)/h < 1`, `t_end == t_start` included) gives the one-point trajectory `([t_start], [y0])`, whatever `f` is |
| RkSolveProperties.RowsAtRest | rk_methods.py:38-39 | started at a rest point of `f`, every row the loop writes equals `y0` |
| RkSolveProperties.SolveAtRest | rk_methods.py:22-41 | started at a rest point of `f`, every state of a successful run equals `y0` |
| RkSolveProperties.SolveZeroField | rk_methods.py:22-41 | for the zero field, every state of a successful run equals `y0`, for every method |
| RkSolveProperties.StepLinearScaled | rk_methods.py:3-20 | one step on `f = c·y` from `p·y0` lands on `R(hc)·p·y0` |
| RkSolveProperties.RowsLinear | rk_methods.py:38-39 | on `f = c·y`, row `k` is `R(hc)^k · y0`, with `R` the method's amplification factor |
| RkSolveProperties.SolveLinear | rk_methods.py:22-41 | on `f = c·y`, state `i` of a successful run is `R(hc)^i · y0` |
| RkStepProperties.Rk1Linear | rk_methods.py:3-6 | on `f = c·y`, Euler multiplies the state by `1 + hc` |
| RkStepProperties.Rk2Linear | rk_methods.py:8-12 | on `f = c·y`, the second-order step multiplies the state by `1 + hc + (hc)²/2` |
| RkStepProperties.Rk4Linear | rk_methods.py:14-20 | on `f = c·y`, RK4 multiplies the state by `1 + hc + (hc)²/2 + (hc)³/6 + (hc)⁴/24` |
| RkStepProperties.StepLinear | rk_methods.py:3-20 | each table entry applies its own amplification polynomial on the linear field |
| RkStepProperties.StepAtRest | rk_methods.py:3-20 | every step function returns a rest point of `f` unchanged |
| RkStepProperties.StepZeroField | rk_methods.py:3-20 | for the zero field, every step function returns `y` |
| RkStepProperties.Rk2Quadrature | rk_methods.py:8-12 | on a field that depends only on `t`, the second-order step is the midpoint rule `y + h·g(t + h/2)`, and `k1` drops out |
| RkStepProperties.Rk4Quadrature | rk_methods.py:14-20 | on a field that depends only on `t`, RK4 is Simpson's rule `y + h·(g(t) + 4g(t+h/2) + g(t+h))/6` |
| EconomicModels.BusinessCycleModel | economic_models.py:11-25 | a state shorter than two entries is an IndexError; otherwise the result is a length-2 vector; defaults are alpha=0.3, beta=0.95, delta=0.1 |
| EconomicModels.MonetaryPolicyModel | economic_models.py:27-41 | a short state is an IndexError; `sigma == 0` is a ZeroDivisionError; otherwise the result is a length-2 vector; defaults are phi_pi=1.5, phi_y=0.5, sigma=1.0 |
| EconomicModels.FiscalPolicyModel | economic_models.py:43-57 | a short state is an IndexError; otherwise the result is a length-2 vector; defaults are g=0.2, tau=0.3, theta=0.1 |
| EconomicModels.EconomicModel.IsModelValid | economic_models.py:7-9 | a model is valid if and only if every named parameter is strictly positive; an empty parameter map is valid |
| EconomicProperties.ValidAfterSet | economic_models.py:7-9 | setting one parameter keeps a model valid if and only if the new value is positive and the other parameters are valid |
| EconomicProperties.ModelsIgnoreTime | economic_models.py:11-57 | none of the three models depends on `t` |
| EconomicProperties.MonetaryLinear | economic_models.py:27-41 | for `sigma != 0` the monetary model is a linear map: `M(a·y + b·z) = a·M(y) + b·M(z)` |
| EconomicProperties.MonetaryRestPoint | economic_models.py:33-41 | for `sigma != 0` the zero state has zero derivative; when also `phi_pi != 0` it is the only such state |
| EconomicProperties.FiscalOutputSteady | economic_models.py:49-55 | the fiscal output derivative is zero if and only if `tau·output = g`, and it does not depend on debt |
| EconomicProperties.FiscalSteadyStateIsRest | economic_models.py:43-57 | for `tau, theta != 0`, the state `output = g/tau`, `debt = (g - (1-tau)·output)/theta` has zero derivative |
| EconomicProperties.BusinessCycleCapital | economic_models.py:17-25 | the capital derivative depends on neither alpha nor the power term; for `beta != 0` it is zero if and only if `output = delta·capital` |
| Scenarios.MonetaryRunAtRest | main.py:59 | with parameters bound as the dashboard binds them and `sigma != 0`, the monetary model is a field on two-entry states, and a run from `[0, 0]` stays at `[0, 0]` |
| Scenarios.FiscalRunAtSteadyState | main.py:68 | for `tau, theta != 0`, the fiscal model is a field on two-entry states, and a run from its steady state stays there |
| Scenarios.BusinessCycleFieldOn | main.py:50 | the business-cycle model is a field on two-entry states for any parameters |
| Scenarios.EulerDecay | rk_methods.py:22-41 | for `dy/dt = -y`, `y0 = [1]` over `[0, 1]` with `h = 0.1` and "RK1", the run has 11 states and the last is exactly `[0.9^10] = [0.3486784401]` |
| Scenarios.UnknownMethodFails | rk_methods.py:36 | "RK3" fails with KeyError |
| Scenarios.ZeroStepFails | rk_methods.py:25 | `h = 0` fails with ZeroDivisionError whatever the method name |
| Scenarios.GridOutrunsSteps | rk_methods.py:25-39 | over `[0, 1]` with `h = 0.3`, the run has four grid times, `times[1]` is `1/3` and the last is `1`, while the four states are `R(0.3c)^k·y0`, so the last has advanced three steps of `0.3` (to `t = 0.9`) |
| Scenarios.BackwardIntegration | rk_methods.py:25-39 | a negative step over a backward span integrates backward: `[0, -1]` with `h = -0.1` takes ten steps, and the run has 11 states with the last grid time `-1` |
| Scenarios.BackwardSpanNoSteps | rk_methods.py:25-28 | over `[0, -0.05]` with `h = 0.1`, `int(-0.5)` is `0` where a floor would be `-1`, and the run is the one-point trajectory `([0], [y0])` |

## Left out

- IEEE floating point is not modelled: no rounding, no inf/nan, and no rounding of numpy.linspace's endpoint. The grid is its exact formula over `real`. Python's `int()` of a float is modelled as exact truncation toward zero.
- No claim about convergence order (O(h), O(h²), O(h⁴)) or closeness to `e^{-1}`. These need analysis and transcendental functions. The exact stability polynomials stand in for them.
- The step functions evaluate `f` once, twice and four times. Call counts are not observable in a pure model, so the model does not state them.
- RkMethods.SolveOde: an exception raised by `f` itself would propagate out of `solve_ode`. The model does not capture this: it requires `f` to be defined and length-preserving on states of the length of `y0` (`FieldOn`). So numpy broadcasting of a mismatched derivative is not modelled, and neither is a monetary run with `sigma == 0`.
- EconomicModels.BusinessCycleModel: Python's real exponentiation `capital**(alpha-1)` is passed in as the function parameter `power`. Nothing is proved about the output component.
- `EconomicModel` parameter values are reals. Python's comparison of non-numeric values is not modelled.
- main.py is not part of this model (Streamlit widgets, CSS loading, error display). Its lambdas that bind slider values into a field are modelled only as `Scenarios.AsField`.
- utils.py is not part of this model (plotly figures, pandas CSV export).
