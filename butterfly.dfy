/** The attractor object and its tracer particles: the state that the
    butterfly sketch steps, resets, samples and animates in place. */
module Butterfly {
  import opened LorenzField
  import opened Trajectory

  /** A tracer: a point that moves on its own once seeded from a trail. */
  class Particle {
    var x: real
    var y: real
    var z: real

    constructor (x: real, y: real, z: real)
      ensures GetCoordinates() == Point(x, y, z)
    {
      this.x := x;
      this.y := y;
      this.z := z;
    }

    /** Moves the tracer by the given displacement. */
    method Update(dx: real, dy: real, dz: real)
      modifies this
      ensures GetCoordinates() == Add(old(GetCoordinates()), Point(dx, dy, dz))
    {
      x := x + dx;
      y := y + dy;
      z := z + dz;
    }

    function GetCoordinates(): Point
      reads this
    {
      Point(x, y, z)
    }
  }

  /** No tracer occurs twice in the list. */
  ghost predicate Distinct(ps: seq<Particle>) {
    forall i, j :: 0 <= i < j < |ps| ==> ps[i] != ps[j]
  }

  class LorenzAttractor {
    var x: real
    var y: real
    var z: real

    var dt: real

    var sigma: real
    var rho: real
    var beta: real

    var centerX: real
    var centerY: real
    var centerZ: real

    var totalMass: int

    var minVelocity: real
    var maxVelocity: real

    var particles: seq<Particle>

    /** The tracers are distinct objects, so stepping one never moves another. */
    ghost predicate Valid()
      reads this
    {
      Distinct(particles)
    }

    /** The centroid accumulator starts at the seed, the mass at 1, the
        minimum speed at a large sentinel and the maximum at zero. */
    constructor (x: real, y: real, z: real, dt: real, sigma: real, rho: real, beta: real)
      ensures Valid()
      ensures GetCoordinates() == Point(x, y, z)
      ensures Parameters() == Params(sigma, rho, beta, dt)
      ensures GetCenterOfMass() == Point(x, y, z)
      ensures totalMass == 1
      ensures minVelocity == 10000000.0 && maxVelocity == 0.0
      ensures particles == []
    {
      this.x := x;
      this.y := y;
      this.z := z;
      this.dt := dt;
      this.sigma := sigma;
      this.rho := rho;
      this.beta := beta;
      centerX := x;
      centerY := y;
      centerZ := z;
      totalMass := 1;
      minVelocity := 10000000.0;
      maxVelocity := 0.0;
      particles := [];
    }

    function Parameters(): Params
      reads this
    {
      Params(sigma, rho, beta, dt)
    }

    function GetCoordinates(): Point
      reads this
    {
      Point(x, y, z)
    }

    function GetCenterOfMass(): Point
      reads this
    {
      Point(centerX, centerY, centerZ)
    }

    function GetParticles(): seq<Particle>
      reads this
    {
      particles
    }

    function GetRangeVelocity(): real
      reads this
    {
      maxVelocity - minVelocity
    }

    /** One Euler step of the position, all three derivatives taken at the
        position before the step; the new position is added to the centroid
        accumulator.  Nothing else changes. */
    method Update()
      modifies this`x, this`y, this`z, this`centerX, this`centerY, this`centerZ
      ensures GetCoordinates() == Step(Parameters(), old(GetCoordinates()))
      ensures GetCenterOfMass() == Add(old(GetCenterOfMass()), GetCoordinates())
    {
      var p := Point(x, y, z);
      var pr := Parameters();
      x := x + DxDt(pr, p) * dt;
      y := y + DyDt(pr, p) * dt;
      z := z + DzDt(pr, p) * dt;
      centerX := centerX + x;
      centerY := centerY + y;
      centerZ := centerZ + z;
    }

    /** Moves the position and nothing else: the centroid, the speed trackers
        and the tracers keep their values. */
    method ResetCoordinates(x: real, y: real, z: real)
      modifies this`x, this`y, this`z
      ensures GetCoordinates() == Point(x, y, z)
    {
      this.x := x;
      this.y := y;
      this.z := z;
    }

    /** The running state of an epoch in progress: the attractor's position,
        centroid accumulator and trackers, with the points visited and the
        tracer positions seeded so far. */
    ghost function Snapshot(visited: seq<Point>, samples: seq<Point>): Tally
      reads this
    {
      Tally(GetCoordinates(), visited, GetCenterOfMass(), minVelocity, maxVelocity, samples)
    }

    /** Pass i of the epoch loop: one Euler step, the new position recorded
        and folded into the speed trackers, and a fresh tracer seeded there
        when i is a multiple of the stride; exactly step i of the reference
        run. */
    method DrawPoint(i: int, particlesStep: int, ghost visited: seq<Point>, ghost samples: seq<Point>)
      returns (q: Point, ghost seeded: seq<Point>)
      requires 0 <= i && 0 < particlesStep
      modifies this`x, this`y, this`z, this`centerX, this`centerY, this`centerZ
      modifies this`minVelocity, this`maxVelocity, this`particles
      ensures q == GetCoordinates()
      ensures seeded == samples + (if i % particlesStep == 0 then [q] else [])
      ensures Snapshot(visited + [q], seeded) ==
              Observe(Parameters(), particlesStep, old(Snapshot(visited, samples)), i)
      ensures i % particlesStep != 0 ==> particles == old(particles)
      ensures i % particlesStep == 0 ==>
                |particles| > 0 && particles == old(particles) + [particles[|particles| - 1]] &&
                fresh(particles[|particles| - 1]) &&
                particles[|particles| - 1].GetCoordinates() == q
    {
      Update();
      q := GetCoordinates();

      var velocity := Speed(Parameters(), q);
      minVelocity := Min(minVelocity, velocity);
      maxVelocity := Max(maxVelocity, velocity);

      seeded := samples;
      if i % particlesStep == 0 {
        var p := new Particle(x, y, z);
        particles := particles + [p];
        seeded := seeded + [q];
      }
    }

    /** The loop of an epoch: pointsCount passes of DrawPoint, starting with
        no tracers.  Ends exactly where the reference run ends; the tracers
        are fresh, distinct and sit on the run's samples. */
    method Trace(pointsCount: int, particlesStep: int) returns (points: seq<Point>, ghost samples: seq<Point>)
      requires particles == [] && 0 <= pointsCount && 0 < particlesStep
      modifies this`x, this`y, this`z, this`centerX, this`centerY, this`centerZ
      modifies this`minVelocity, this`maxVelocity, this`particles
      ensures Run(Parameters(), particlesStep, old(Snapshot([], [])), pointsCount) ==
              Snapshot(points, samples)
      ensures |particles| == |samples| && Distinct(particles)
      ensures forall j :: 0 <= j < |particles| ==>
                fresh(particles[j]) && particles[j].GetCoordinates() == samples[j]
    {
      ghost var pr, t0 := Parameters(), Snapshot([], []);
      points, samples := [], [];
      for i := 0 to pointsCount
        invariant Run(pr, particlesStep, t0, i) == Snapshot(points, samples)
        invariant |particles| == |samples| && Distinct(particles)
        invariant forall j :: 0 <= j < |particles| ==>
                    fresh(particles[j]) && particles[j].GetCoordinates() == samples[j]
      {
        var q;
        q, samples := DrawPoint(i, particlesStep, points, samples);
        points := points + [q];
      }
    }

    /** One epoch: pointsCount Euler steps from the current position, run as
        the reference Run with stride pointsCount / particlesCount describes.
        Returns the points visited, leaves the position on the last one,
        divides the accumulated centroid by pointsCount, keeps the trackers
        the run ends with and replaces the tracers by fresh ones on the run's
        samples.  EpochProperties says what that run is. */
    method DrawPoints(pointsCount: int, particlesCount: int) returns (points: seq<Point>)
      requires 0 < pointsCount && 0 < particlesCount && pointsCount % particlesCount == 0
      modifies this`x, this`y, this`z, this`centerX, this`centerY, this`centerZ
      modifies this`totalMass, this`minVelocity, this`maxVelocity, this`particles
      ensures Valid()
      ensures totalMass == pointsCount
      ensures var r := Run(Parameters(), pointsCount / particlesCount, old(Snapshot([], [])), pointsCount);
              points == r.visited &&
              GetCoordinates() == r.position &&
              GetCenterOfMass() == Divide(r.sum, pointsCount as real) &&
              minVelocity == r.slowest && maxVelocity == r.fastest &&
              |particles| == |r.samples| &&
              forall j :: 0 <= j < |particles| ==>
                fresh(particles[j]) && particles[j].GetCoordinates() == r.samples[j]
    {
      totalMass := pointsCount;
      particles := [];

      var particlesStep := pointsCount / particlesCount;
      StrideCount(pointsCount, particlesCount);

      ghost var samples;
      points, samples := Trace(pointsCount, particlesStep);

      centerX := centerX / totalMass as real;
      centerY := centerY / totalMass as real;
      centerZ := centerZ / totalMass as real;
    }

    /** Steps every tracer once, each with the vector field at its own
        position; returns the same tracers in the same order.  The attractor's
        own position, centroid and parameters do not move. */
    method DrawParticles() returns (result: seq<Particle>)
      requires Valid()
      modifies particles
      ensures result == particles
      ensures forall j :: 0 <= j < |particles| ==>
                particles[j].GetCoordinates() ==
                Step(Parameters(), old(particles[j].GetCoordinates()))
    {
      result := [];
      for i := 0 to |particles|
        invariant result == particles[..i]
        invariant forall j :: 0 <= j < i ==>
                    particles[j].GetCoordinates() ==
                    Step(Parameters(), old(particles[j].GetCoordinates()))
        invariant forall j :: i <= j < |particles| ==>
                    particles[j].GetCoordinates() == old(particles[j].GetCoordinates())
      {
        var p := particles[i];
        var d := Displacement(Parameters(), p.GetCoordinates());
        p.Update(d.x, d.y, d.z);
        result := result + [p];
      }
    }
  }
}
