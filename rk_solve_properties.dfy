/** What one call of the driver returns: its failures, the shape and rows of
    the trajectory, its time grid, and the trajectories of the rest-point
    and linear fields. */
module RkSolveProperties {
  import opened Outcomes
  import opened Vectors
  import opened RkMethods
  import opened RkStepProperties

  /** The driver fails exactly in these cases, and with these exceptions:
      h = 0 at the division, fewer than zero samples in numpy.linspace, an
      empty buffer at the write of row 0, and an unknown name at the table
      lookup. It succeeds otherwise. */
  lemma SolveErrors(f: VectorField, tStart: real, tEnd: real, y0: Vector, h: real, name: string)
    requires FieldOn(f, |y0|)
    ensures h == 0.0 ==> Solve(f, tStart, tEnd, y0, h, name) == Err(ZeroDivisionError)
    ensures h != 0.0 && StepCount(tStart, tEnd, h) < -1 ==>
              Solve(f, tStart, tEnd, y0, h, name) == Err(NegativeSampleCount(StepCount(tStart, tEnd, h) + 1))
    ensures h != 0.0 && StepCount(tStart, tEnd, h) == -1 ==>
              Solve(f, tStart, tEnd, y0, h, name) == Err(IndexError)
    ensures h != 0.0 && StepCount(tStart, tEnd, h) >= 0 && name !in {"RK1", "RK2", "RK4"} ==>
              Solve(f, tStart, tEnd, y0, h, name) == Err(KeyError(name))
    ensures Solve(f, tStart, tEnd, y0, h, name).Ok? <==>
              h != 0.0 && StepCount(tStart, tEnd, h) >= 0 && name in {"RK1", "RK2", "RK4"}
  {
  }

  /** On success: times and states both have steps + 1 entries, every row
      has the length of y0, row 0 is y0, and row i+1 is the selected step
      applied to row i at grid time times[i] with step h. */
  lemma SolveTrajectory(f: VectorField, tStart: real, tEnd: real, y0: Vector, h: real, name: string)
    requires FieldOn(f, |y0|)
    requires Solve(f, tStart, tEnd, y0, h, name).Ok?
    ensures h != 0.0 && name in {"RK1", "RK2", "RK4"}
    ensures var tr := Solve(f, tStart, tEnd, y0, h, name).value;
            var steps := StepCount(tStart, tEnd, h);
            var m := LookupMethod(name).value;
            && MethodName(m) == name
            && |tr.times| == |tr.states| == steps + 1
            && tr.states[0] == y0
            && (forall i :: 0 <= i < |tr.states| ==> |tr.states[i]| == |y0|)
            && (forall i :: 0 <= i < steps ==> tr.states[i + 1] == Step(m, f, tr.times[i], tr.states[i], h))
  {
  }

  /** A sequence that starts at start and grows by d at every index is
      start + i d at index i. */
  lemma {:induction false} EvenlySpaced(s: seq<real>, start: real, d: real, n: nat)
    requires 0 < |s| && s[0] == start
    requires forall i :: 0 <= i < |s| - 1 ==> s[i + 1] - s[i] == d
    requires n < |s|
    ensures s[n] == start + n as real * d
  {
    if n > 0 {
      EvenlySpaced(s, start, d, n - 1);
      assert s[n] - s[n - 1] == d;
    }
  }

  /** numpy.linspace's samples in closed form: start + i (stop - start) / n
      for n + 1 samples, the last one being stop. */
  lemma LinspaceClosedForm(start: real, stop: real, n: nat)
    requires n >= 1
    ensures var times := Linspace(start, stop, n + 1).value;
            && times[n] == stop
            && forall i :: 0 <= i <= n ==> times[i] == start + i as real * ((stop - start) / n as real)
  {
    var times := Linspace(start, stop, n + 1).value;
    forall i | 0 <= i <= n
      ensures times[i] == start + i as real * ((stop - start) / n as real)
    {
      EvenlySpaced(times, start, (stop - start) / n as real, i);
    }
  }

  /** The time grid runs from t_start to t_end (not to t_start + steps h),
      with spacing (t_end - t_start) / steps; with no step it is [t_start]. */
  lemma SolveGrid(f: VectorField, tStart: real, tEnd: real, y0: Vector, h: real, name: string)
    requires FieldOn(f, |y0|)
    requires Solve(f, tStart, tEnd, y0, h, name).Ok?
    ensures var times := Solve(f, tStart, tEnd, y0, h, name).value.times;
            var steps := StepCount(tStart, tEnd, h);
            && (steps == 0 ==> times == [tStart])
            && (steps >= 1 ==> times[steps] == tEnd)
            && (steps >= 1 ==> forall i :: 0 <= i <= steps ==>
                  times[i] == tStart + i as real * ((tEnd - tStart) / steps as real))
  {
    var steps := StepCount(tStart, tEnd, h);
    var times := Solve(f, tStart, tEnd, y0, h, name).value.times;
    assert times == Linspace(tStart, tEnd, steps + 1).value;
    if steps >= 1 {
      LinspaceClosedForm(tStart, tEnd, steps);
    }
  }

  /** The grid spacing (stop - start) / n equals h exactly when the span
      is n whole steps of h. The driver advances its states by h but labels
      them with this grid, so the labels are the times the states were
      computed for only when t_end - t_start = steps h. */
  lemma LinspaceSpacing(start: real, stop: real, n: nat, h: real)
    requires n >= 1
    ensures var times := Linspace(start, stop, n + 1).value;
            (forall i :: 0 <= i < n ==> times[i + 1] - times[i] == h)
              <==> stop - start == n as real * h
  {
    var times := Linspace(start, stop, n + 1).value;
    DivMul(stop - start, n as real);
    if stop - start == n as real * h {
      assert (stop - start) / n as real == h;
    } else {
      assert times[1] - times[0] != h;
    }
  }

  /** A span shorter than one step in either direction (t_end == t_start
      included) truncates to zero steps and gives the one-point trajectory
      ([t_start], [y0]); f is never evaluated. */
  lemma SolveNoSteps(f: VectorField, tStart: real, tEnd: real, y0: Vector, h: real, name: string)
    requires FieldOn(f, |y0|)
    requires h != 0.0 && -1.0 < (tEnd - tStart) / h < 1.0
    requires name in {"RK1", "RK2", "RK4"}
    ensures Solve(f, tStart, tEnd, y0, h, name) == Ok(Trajectory([tStart], [y0]))
  {
  }

  /** Every row of the loop's output is a rest point y0 of f when it starts
      there. */
  lemma {:induction false} RowsAtRest(m: StepMethod, f: VectorField, ts: seq<real>, y0: Vector, h: real, n: nat, k: nat)
    requires FieldOn(f, |y0|) && AtRest(f, y0) && n <= |ts| && k <= n
    ensures Rows(m, f, ts, y0, h, n)[k] == y0
  {
    if k > 0 {
      RowsAtRest(m, f, ts, y0, h, n, k - 1);
      StepAtRest(m, f, ts[k - 1], y0, h);
    }
  }

  /** Started at a rest point, every successful trajectory is constant. */
  lemma SolveAtRest(f: VectorField, tStart: real, tEnd: real, y0: Vector, h: real, name: string)
    requires FieldOn(f, |y0|) && AtRest(f, y0)
    requires Solve(f, tStart, tEnd, y0, h, name).Ok?
    ensures forall i :: 0 <= i < |Solve(f, tStart, tEnd, y0, h, name).value.states| ==>
              Solve(f, tStart, tEnd, y0, h, name).value.states[i] == y0
  {
    var steps := StepCount(tStart, tEnd, h);
    var m := LookupMethod(name).value;
    var times := Solve(f, tStart, tEnd, y0, h, name).value.times;
    forall i | 0 <= i <= steps
      ensures Rows(m, f, times, y0, h, steps)[i] == y0
    {
      RowsAtRest(m, f, times, y0, h, steps, i);
    }
  }

  /** For the zero field every row of every method's trajectory is y0. */
  lemma SolveZeroField(tStart: real, tEnd: real, y0: Vector, h: real, name: string)
    requires Solve(ZeroField(), tStart, tEnd, y0, h, name).Ok?
    ensures forall i :: 0 <= i < |Solve(ZeroField(), tStart, tEnd, y0, h, name).value.states| ==>
              Solve(ZeroField(), tStart, tEnd, y0, h, name).value.states[i] == y0
  {
    SolveAtRest(ZeroField(), tStart, tEnd, y0, h, name);
  }

  function Power(x: real, k: nat): real
  {
    if k == 0 then 1.0 else x * Power(x, k - 1)
  }

  /** One step on the linear field from p y0 lands on R(h c) p y0. */
  lemma StepLinearScaled(m: StepMethod, c: real, t: real, h: real, p: real, r: real, y0: Vector)
    requires r == Amplification(m, h * c) * p
    ensures Step(m, Linear(c), t, Scale(p, y0), h) == Scale(r, y0)
  {
    StepLinear(m, c, t, Scale(p, y0), h);
    ScaleScale(Amplification(m, h * c), p, r, y0);
  }

  /** On the linear field, row k is R(h c)^k y0. */
  lemma {:induction false} RowsLinear(m: StepMethod, c: real, ts: seq<real>, y0: Vector, h: real, n: nat, k: nat)
    requires n <= |ts| && k <= n
    ensures Rows(m, Linear(c), ts, y0, h, n)[k] == Scale(Power(Amplification(m, h * c), k), y0)
  {
    var rows := Rows(m, Linear(c), ts, y0, h, n);
    var q := Amplification(m, h * c);
    if k == 0 {
      ScaleOne(y0);
    } else {
      RowsLinear(m, c, ts, y0, h, n, k - 1);
      assert rows[k] == Step(m, Linear(c), ts[k - 1], Scale(Power(q, k - 1), y0), h);
      StepLinearScaled(m, c, ts[k - 1], h, Power(q, k - 1), Power(q, k), y0);
    }
  }

  /** On the linear field f(t, y) = c y, row i of a successful trajectory
      is R(h c)^i y0, with R the method's amplification factor. */
  lemma SolveLinear(c: real, tStart: real, tEnd: real, y0: Vector, h: real, name: string)
    requires Solve(Linear(c), tStart, tEnd, y0, h, name).Ok?
    ensures var states := Solve(Linear(c), tStart, tEnd, y0, h, name).value.states;
            var m := LookupMethod(name).value;
            forall i :: 0 <= i < |states| ==> states[i] == Scale(Power(Amplification(m, h * c), i), y0)
  {
    var steps := StepCount(tStart, tEnd, h);
    var m := LookupMethod(name).value;
    var times := Solve(Linear(c), tStart, tEnd, y0, h, name).value.times;
    forall i | 0 <= i <= steps
      ensures Rows(m, Linear(c), times, y0, h, steps)[i] == Scale(Power(Amplification(m, h * c), i), y0)
    {
      RowsLinear(m, c, times, y0, h, steps, i);
    }
  }
}
