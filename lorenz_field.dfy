/** The Lorenz vector field, its explicit-Euler step and the "speed" the
    attractor reports, all over exact reals. */
module LorenzField {

  /** A point in space: the attractor's position, a tracer's position and
      each entry of a trail (the sketch stores these as p5.Vector values). */
  datatype Point = Point(x: real, y: real, z: real)

  /** The system parameters sigma, rho, beta and the fixed step size dt. */
  datatype Params = Params(sigma: real, rho: real, beta: real, dt: real)

  const Origin := Point(0.0, 0.0, 0.0)

  /** The three components of the Lorenz vector field at p. */
  function DxDt(pr: Params, p: Point): real {
    pr.sigma * (p.y - p.x)
  }

  function DyDt(pr: Params, p: Point): real {
    p.x * (pr.rho - p.z) - p.y
  }

  function DzDt(pr: Params, p: Point): real {
    p.x * p.y - pr.beta * p.z
  }

  /** The displacement of one step at p: each derivative times dt. */
  function Displacement(pr: Params, p: Point): Point {
    Point(DxDt(pr, p) * pr.dt, DyDt(pr, p) * pr.dt, DzDt(pr, p) * pr.dt)
  }

  /** One explicit-Euler step: every coordinate moves by the derivative taken
      at the OLD point, times dt. */
  function Step(pr: Params, p: Point): Point {
    var d := Displacement(pr, p);
    Point(p.x + d.x, p.y + d.y, p.z + d.z)
  }

  /** The speed the attractor tracks: the squared length of the step's
      displacement at p.  The square root is not taken. */
  function Speed(pr: Params, p: Point): real {
    var d := Displacement(pr, p);
    d.x * d.x + d.y * d.y + d.z * d.z
  }

  /** The tracked speed is a magnitude: it is never negative. */
  lemma SpeedNonNegative(pr: Params, p: Point)
    ensures Speed(pr, p) >= 0.0
  {
    var d := Displacement(pr, p);
    assert d.x * d.x >= 0.0 && d.y * d.y >= 0.0 && d.z * d.z >= 0.0;
  }

  /** p is a rest point of the vector field. */
  predicate IsEquilibrium(pr: Params, p: Point) {
    DxDt(pr, p) == 0.0 && DyDt(pr, p) == 0.0 && DzDt(pr, p) == 0.0
  }

  lemma FactorZero(a: real, b: real)
    requires a * b == 0.0 && a != 0.0
    ensures b == 0.0
  {
    assert b == (a * b) / a;
  }

  /** With a non-zero step size the step fixes exactly the rest points, and
      (for non-zero sigma and beta) those are the origin and the two
      "wing centres" (c, c, rho - 1) with c * c == beta * (rho - 1). */
  lemma FixedPointsOfStep(pr: Params, p: Point)
    requires pr.sigma != 0.0 && pr.beta != 0.0 && pr.dt != 0.0
    ensures Step(pr, p) == p <==> IsEquilibrium(pr, p)
    ensures IsEquilibrium(pr, p) <==>
              p == Origin ||
              (p.x == p.y && p.z == pr.rho - 1.0 && p.x * p.x == pr.beta * (pr.rho - 1.0))
  {
    if IsEquilibrium(pr, p) {
      assert p.x == p.y;
      assert p.x * (pr.rho - 1.0 - p.z) == 0.0;
      if p.x == 0.0 {
        assert pr.beta * p.z == 0.0;
      } else {
        FactorZero(p.x, pr.rho - 1.0 - p.z);
      }
    }
  }

  /** The position after n steps from p. */
  function Iterate(pr: Params, p: Point, n: nat): Point {
    if n == 0 then p else Step(pr, Iterate(pr, p, n - 1))
  }

  /** m further steps from the point reached after n steps. */
  lemma {:induction false} IterateAdd(pr: Params, p: Point, n: nat, m: nat)
    ensures Iterate(pr, Iterate(pr, p, n), m) == Iterate(pr, p, n + m)
  {
    if m > 0 {
      IterateAdd(pr, p, n, m - 1);
    }
  }

  /** The trail of one epoch of n steps from p: the position after each step,
      the start itself excluded. */
  function Trail(pr: Params, p: Point, n: nat): (t: seq<Point>)
    ensures |t| == n
  {
    if n == 0 then [] else Trail(pr, p, n - 1) + [Iterate(pr, p, n)]
  }

  /** Point i of the trail is the position after i + 1 steps. */
  lemma {:induction false} TrailAt(pr: Params, p: Point, n: nat)
    ensures forall i :: 0 <= i < n ==> Trail(pr, p, n)[i] == Iterate(pr, p, i + 1)
  {
    if n > 0 {
      TrailAt(pr, p, n - 1);
    }
  }

  /** Each point of a trail is one step from its predecessor, and the first is
      one step from the start. */
  lemma {:induction false} TrailStepConsistency(pr: Params, p: Point, n: nat, i: nat)
    requires i < n
    ensures Trail(pr, p, n)[i] == Step(pr, if i == 0 then p else Trail(pr, p, n)[i - 1])
  {
    TrailAt(pr, p, n);
    assert Iterate(pr, p, i + 1) == Step(pr, Iterate(pr, p, i));
  }

  /** A longer epoch from the same start extends the shorter one. */
  lemma {:induction false} TrailPrefix(pr: Params, p: Point, n: nat, m: nat)
    requires m <= n
    ensures Trail(pr, p, n)[..m] == Trail(pr, p, m)
  {
    var t, s := Trail(pr, p, n), Trail(pr, p, m);
    TrailAt(pr, p, n);
    TrailAt(pr, p, m);
    assert |t[..m]| == |s|;
    forall i | 0 <= i < m ensures t[..m][i] == s[i] {
    }
  }

  /** A point of the trail, stepped m more times, is the point m places
      further along: tracers seeded on the trail and stepped with the same
      parameters ride along it. */
  lemma {:induction false} TrailShift(pr: Params, p: Point, n: nat, i: nat, m: nat)
    requires i + m < n
    ensures Iterate(pr, Trail(pr, p, n)[i], m) == Trail(pr, p, n)[i + m]
  {
    TrailAt(pr, p, n);
    IterateAdd(pr, p, i + 1, m);
  }

  /** The first step of the classic butterfly from the sketch's seed. */
  lemma ClassicFirstStep()
    ensures Trail(Params(10.0, 28.0, 8.0 / 3.0, 0.01), Point(0.01, 0.0, 1.0), 1)
            == [Point(0.009, 0.0027, 73.0 / 75.0)]
  {
  }
}
