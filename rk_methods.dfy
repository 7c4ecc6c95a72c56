/** The fixed-step explicit Runge-Kutta engine: three step formulas, the
    name-to-step dispatch table, and the driver that builds the time grid and
    fills the trajectory buffer row by row. All arithmetic is exact (real). */
module RkMethods {
  import opened Outcomes
  import opened Vectors

  /** The right-hand side f(t, y) of the ODE. It is a partial function: a
      Python model may raise on some inputs. */
  type VectorField = (real, Vector) --> Vector

  /** f is defined on every state of length n and returns a derivative of
      the same length. The driver requires this of the field it integrates. */
  ghost predicate FieldOn(f: VectorField, n: nat)
  {
    forall t: real, y: Vector :: |y| == n ==> f.requires(t, y) && |f(t, y)| == n
  }

  /** Euler: k1 = h f(t, y); y + k1. */
  function Rk1Step(f: VectorField, t: real, y: Vector, h: real): (r: Vector)
    requires FieldOn(f, |y|)
    ensures |r| == |y|
  {
    var k1 := Scale(h, f(t, y));
    Add(y, k1)
  }

  /** Midpoint-style second-order step: k1 only locates the midpoint and is
      not part of the returned combination y + k2. */
  function Rk2Step(f: VectorField, t: real, y: Vector, h: real): (r: Vector)
    requires FieldOn(f, |y|)
    ensures |r| == |y|
  {
    var k1 := Scale(h, f(t, y));
    var k2 := Scale(h, f(t + 0.5 * h, Add(y, Scale(0.5, k1))));
    Add(y, k2)
  }

  /** Classical fourth-order Runge-Kutta step. */
  function Rk4Step(f: VectorField, t: real, y: Vector, h: real): (r: Vector)
    requires FieldOn(f, |y|)
    ensures |r| == |y|
  {
    var k1 := Scale(h, f(t, y));
    var k2 := Scale(h, f(t + 0.5 * h, Add(y, Scale(0.5, k1))));
    var k3 := Scale(h, f(t + 0.5 * h, Add(y, Scale(0.5, k2))));
    var k4 := Scale(h, f(t + h, Add(y, k3)));
    Add(y, Scale(1.0 / 6.0, Add(Add(Add(k1, Scale(2.0, k2)), Scale(2.0, k3)), k4)))
  }

  /** The three entries of the driver's step table. */
  datatype StepMethod = RK1 | RK2 | RK4

  /** The key under which each step function is registered. */
  function MethodName(m: StepMethod): string
  {
    match m
    case RK1 => "RK1"
    case RK2 => "RK2"
    case RK4 => "RK4"
  }

  /** Dictionary lookup in the step table: exact, case-sensitive match. */
  function LookupMethod(name: string): (r: Option<StepMethod>)
    ensures r.Some? <==> name in {"RK1", "RK2", "RK4"}
    ensures r.Some? ==> MethodName(r.value) == name
  {
    if name == "RK1" then Some(RK1)
    else if name == "RK2" then Some(RK2)
    else if name == "RK4" then Some(RK4)
    else None
  }

  /** Calls the step function the table holds for m. */
  function Step(m: StepMethod, f: VectorField, t: real, y: Vector, h: real): (r: Vector)
    requires FieldOn(f, |y|)
    ensures |r| == |y|
  {
    match m
    case RK1 => Rk1Step(f, t, y, h)
    case RK2 => Rk2Step(f, t, y, h)
    case RK4 => Rk4Step(f, t, y, h)
  }

  /** Python's int() on a real: truncation toward zero. */
  function TruncToZero(x: real): (n: int)
    ensures 0.0 <= x ==> 0 <= n && n as real <= x < n as real + 1.0
    ensures x < 0.0 ==> n <= 0 && n as real - 1.0 < x <= n as real
  {
    if 0.0 <= x then x.Floor else -((-x).Floor)
  }

  /** The number of steps the driver takes: int((t_end - t_start) / h).
      When the span and h have the same sign it is the number of whole steps
      of h that fit in the span; when their signs differ it is not positive. */
  function StepCount(tStart: real, tEnd: real, h: real): (n: int)
    requires h != 0.0
    ensures 0.0 < h && tStart <= tEnd ==>
              0 <= n && h * n as real <= tEnd - tStart < h * (n as real + 1.0)
    ensures h < 0.0 && tEnd <= tStart ==>
              0 <= n && -h * n as real <= tStart - tEnd < -h * (n as real + 1.0)
    ensures (tEnd - tStart) / h < 0.0 ==> n <= 0
    ensures -1.0 < (tEnd - tStart) / h < 1.0 ==> n == 0
  {
    var q := (tEnd - tStart) / h;
    var n := TruncToZero(q);
    if 0.0 < h && tStart <= tEnd then
      WholeStepsFit(tEnd - tStart, h, n);
      n
    else if h < 0.0 && tEnd <= tStart then
      NegateQuotient(tEnd - tStart, h);
      WholeStepsFit(tStart - tEnd, -h, n);
      n
    else n
  }

  /** n = int(x / h) whole steps of a positive h fit in x >= 0, and n + 1
      do not. */
  lemma WholeStepsFit(x: real, h: real, n: int)
    requires 0.0 <= x && 0.0 < h && n == TruncToZero(x / h)
    ensures h * n as real <= x < h * (n as real + 1.0)
  {
    var q := x / h;
    DivMul(x, h);
    assert 0.0 <= q;
    ScaleBounds(n as real, q, n as real + 1.0, h);
    calc {
      h * n as real;
    <=
      h * q;
    ==
      x;
    <
      { assert h * q < h * (n as real + 1.0); }
      h * (n as real + 1.0);
    }
  }

  lemma NegateQuotient(x: real, h: real)
    requires h != 0.0
    ensures (-x) / (-h) == x / h
  {
  }

  lemma ScaleBounds(lo: real, q: real, hi: real, h: real)
    requires 0.0 < h && lo <= q < hi
    ensures h * lo <= h * q < h * hi
  {
  }

  /** numpy.linspace(start, stop, num) with its default endpoint=True:
      num evenly spaced samples from start to stop inclusive; a single sample
      is start; a negative count is a ValueError. */
  function Linspace(start: real, stop: real, num: int): (r: Result<seq<real>>)
    ensures num < 0 <==> r.Err?
    ensures r.Err? ==> r.error == NegativeSampleCount(num)
    ensures r.Ok? ==> |r.value| == num
    ensures r.Ok? && num >= 1 ==> r.value[0] == start
    ensures r.Ok? && num >= 2 ==> r.value[num - 1] == stop
    ensures r.Ok? && num >= 2 ==> forall i :: 0 <= i < num - 1 ==>
              r.value[i + 1] - r.value[i] == (stop - start) / (num - 1) as real
  {
    if num < 0 then Err(NegativeSampleCount(num))
    else if num == 1 then Ok([start])
    else
      var delta := (stop - start) / (num - 1) as real;
      var grid := seq(num, i requires 0 <= i < num => start + i as real * delta);
      assert num >= 2 ==> grid[num - 1] == stop by {
        if num >= 2 {
          DivMul(stop - start, (num - 1) as real);
        }
      }
      assert forall i :: 0 <= i < num - 1 ==> grid[i + 1] - grid[i] == delta by {
        forall i | 0 <= i < num - 1
          ensures grid[i + 1] - grid[i] == delta
        {
          assert (i + 1) as real * delta == i as real * delta + delta;
        }
      }
      Ok(grid)
  }

  lemma DivMul(x: real, d: real)
    requires d != 0.0
    ensures d * (x / d) == x
  {
  }

  /** The trajectory the driver returns: the time grid and one state per
      grid point. */
  datatype Trajectory = Trajectory(times: seq<real>, states: seq<Vector>)

  /** The first n+1 rows the stepping loop writes: row 0 is y0 and row k+1
      is the step applied to row k at grid time ts[k]. */
  function Rows(m: StepMethod, f: VectorField, ts: seq<real>, y0: Vector, h: real, n: nat): (r: seq<Vector>)
    requires FieldOn(f, |y0|) && n <= |ts|
    ensures |r| == n + 1 && r[0] == y0
    ensures forall k :: 0 <= k <= n ==> |r[k]| == |y0|
    ensures forall k :: 0 <= k < n ==> r[k + 1] == Step(m, f, ts[k], r[k], h)
  {
    if n == 0 then [y0]
    else
      var prev := Rows(m, f, ts, y0, h, n - 1);
      prev + [Step(m, f, ts[n - 1], prev[n - 1], h)]
  }

  /** What one call of the driver returns or raises, in the order the
      source runs into its failures: the division, numpy.linspace, the write
      of row 0, the table lookup. */
  function Solve(f: VectorField, tStart: real, tEnd: real, y0: Vector, h: real,
                 methodName: string := "RK4"): (r: Result<Trajectory>)
    requires FieldOn(f, |y0|)
    ensures r.Ok? <==> h != 0.0 && StepCount(tStart, tEnd, h) >= 0 && methodName in {"RK1", "RK2", "RK4"}
    ensures r.Ok? ==> && |r.value.times| == |r.value.states| == StepCount(tStart, tEnd, h) + 1
                      && r.value.times[0] == tStart && r.value.states[0] == y0
  {
    if h == 0.0 then Err(ZeroDivisionError)
    else
      var steps := StepCount(tStart, tEnd, h);
      var grid := Linspace(tStart, tEnd, steps + 1);
      if grid.Err? then Err(grid.error)
      else if steps + 1 == 0 then Err(IndexError)
      else match LookupMethod(methodName)
        case None => Err(KeyError(methodName))
        case Some(m) => Ok(Trajectory(grid.value, Rows(m, f, grid.value, y0, h, steps)))
  }

  /** The driver: allocate a zero buffer of steps+1 rows, write y0 into row
      0, look up the step function, and fill row i+1 from row i. */
  method SolveOde(f: VectorField, tStart: real, tEnd: real, y0: Vector, h: real,
                  methodName: string := "RK4") returns (r: Result<Trajectory>)
    requires FieldOn(f, |y0|)
    ensures r == Solve(f, tStart, tEnd, y0, h, methodName)
  {
    if h == 0.0 {
      return Err(ZeroDivisionError);
    }
    var steps := TruncToZero((tEnd - tStart) / h);
    var grid := Linspace(tStart, tEnd, steps + 1);
    if grid.Err? {
      return Err(grid.error);
    }
    var t := grid.value;
    var y := new Vector[steps + 1](_ => Zeros(|y0|));
    if y.Length == 0 {
      return Err(IndexError);
    }
    y[0] := y0;
    var found := LookupMethod(methodName);
    if found.None? {
      return Err(KeyError(methodName));
    }
    var stepFunc := found.value;
    for i := 0 to steps
      invariant y[..i + 1] == Rows(stepFunc, f, t, y0, h, i)
    {
      ghost var done := Rows(stepFunc, f, t, y0, h, i);
      assert y[i] == done[i];
      y[i + 1] := Step(stepFunc, f, t[i], y[i], h);
      assert y[..i + 2] == done + [y[i + 1]];
    }
    assert y[..] == y[..steps + 1];
    return Ok(Trajectory(t, y[..]));
  }
}
