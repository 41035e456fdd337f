# Lorenz butterfly: attractor and tracers

This project models the two classes behind the "butterfly" visualisation in
`example-from-nplus1/assets/script-butterfly.js`:

- `LorenzAttractor` holds a position, the Lorenz parameters sigma, rho and
  beta, and a step size dt. `update` moves the position by one explicit-Euler
  step of the Lorenz vector field. `drawPoints` runs one epoch of such steps:
  - it returns the trail of visited points;
  - it keeps a running centroid and a running minimum and maximum "speed";
  - it reseeds a list of tracer particles at a fixed stride along the trail.
  
  `drawParticles` then moves every tracer by one step of the field taken at the
  tracer's own position.
- `Particle` is a tracer: a point with an `update` that adds a displacement.

All arithmetic is over exact reals. A `p5.Vector` and the `[x, y, z]` arrays
the getters return are the datatype `Point`.

The project has three modules:

- `LorenzField` (`lorenz_field.dfy`) holds the pure parts:
  - the three derivatives `getDxDt`, `getDyDt` and `getDzDt` (`DxDt`, `DyDt`,
    `DzDt`);
  - the Euler step (`Step`);
  - the square of the speed `getVelocity` computes (`Speed`, never negative by
    `SpeedNonNegative`);
  - repeated stepping (`Iterate`) and the trail of an epoch (`Trail`).
  
  Its lemmas say what the step fixes and how trails compose.
- `Trajectory` (`trajectory.dfy`) holds the running quantities of an epoch.
  Each is defined on its own over the trail: the centroid sum `Sum`, the speed
  trackers `MinSpeed` and `MaxSpeed`, and the stride sampling `Sampled`. The
  module also defines `Run`, a step-by-step reference run of an epoch. The
  lemmas tie `Run` to those definitions and state what an epoch promises.
- `Butterfly` (`butterfly.dfy`) holds the two classes, with the source's
  fields and methods:
  - `LorenzAttractor` has `Update`, `ResetCoordinates`, `DrawPoints` and
    `DrawParticles`, and the getters `GetCoordinates`, `GetCenterOfMass`,
    `GetParticles` and `GetRangeVelocity`;
  - `Particle` has `Update` and `GetCoordinates`.
  
  Each method's `modifies` clause names exactly the fields the source assigns.
  For example, `Update` cannot touch the trackers, the tracers or the
  parameters, and `ResetCoordinates` changes only the position.

The loop of `drawPoints` (lines 86-98) is kept as a loop, in the method
`LorenzAttractor.Trace`. Its body is the method `LorenzAttractor.DrawPoint`,
and `DrawPoints` calls `Trace` between its set-up and the final division of
the centroid. Each pass is proved equal to one step (`Observe`) of the
reference run `Run`. `DrawPoints` is proved to end in the state `Run`
describes. `EpochProperties` then states what that run is:
- the trail;
- the centroid sum;
- the bounds of the speed trackers;
- the number and places of the tracers.

The model keeps these behaviours of the code:
- The centroid accumulator starts at the seed point (lines 13-15), not at
  zero. `resetCoordinates` resets neither it nor the speed trackers
  (lines 72-76). So after a reset and a second epoch, the centroid is
  (previous centroid + sum of the new trail) / N.
- The speed is measured at the position after the step (line 90), not from
  the displacement just taken.
- The stride is the plain quotient N / P (line 84), not a rounded one.
- No invalid-argument error is raised. Counts the code cannot handle are
  excluded by a precondition instead (see below).

A tracer seeded on point i of a trail and stepped m times with the same
parameters lands exactly on point i + m (`TrailShift`). This is the source as
written: the tracer step (lines 112-114 and 131-133) is the same Euler step
as `update` (lines 64-66), and tracers are reseeded whenever the parameters
change.

## Model

| member | source | states |
|---|---|---|
| LorenzField.FixedPointsOfStep | example-from-nplus1/assets/script-butterfly.js:37-47 | with dt, sigma and beta non-zero, a step leaves p in place exactly when all three derivatives vanish; that holds exactly at the origin and at the two wing centres (c, c, rho - 1) with c * c == beta * (rho - 1) |
| LorenzField.ClassicFirstStep | example-from-nplus1/assets/script-butterfly.js:60-66 | from (0.01, 0, 1) with sigma 10, rho 28, beta 8/3 and dt 0.01, the first point of the trail is (0.009, 0.0027, 73/75) |
| LorenzField.Trail | example-from-nplus1/assets/script-butterfly.js:86-88 | an epoch of n steps yields exactly n points |
| LorenzField.TrailAt | example-from-nplus1/assets/script-butterfly.js:86-88 | point i of the trail is the position after i + 1 Euler steps from the start |
| LorenzField.TrailStepConsistency | example-from-nplus1/assets/script-butterfly.js:60-66 | each trail point is one step from its predecessor, and the first is one step from the start |
| LorenzField.IterateAdd | example-from-nplus1/assets/script-butterfly.js:60-66 | m steps after n steps are n + m steps |
| LorenzField.TrailPrefix | example-from-nplus1/assets/script-butterfly.js:86-88 | a shorter epoch from the same start is a prefix of a longer one |
| LorenzField.TrailShift | example-from-nplus1/assets/script-butterfly.js:107-119 | a trail point stepped m more times with the same parameters is the point m places further on, so tracers ride along the trail |
| LorenzField.SpeedNonNegative | example-from-nplus1/assets/script-butterfly.js:49-54 | the speed the trackers fold in is never negative |
| Trajectory.Min | example-from-nplus1/assets/script-butterfly.js:91 | the result is at most both arguments and is one of them |
| Trajectory.Max | example-from-nplus1/assets/script-butterfly.js:92 | the result is at least both arguments and is one of them |
| Trajectory.SumConcat | example-from-nplus1/assets/script-butterfly.js:67-69 | the centroid sum over two stretches of an epoch is the sum of the two sums |
| Trajectory.MinSpeedBounds | example-from-nplus1/assets/script-butterfly.js:90-91 | the minimum tracker never rises above its start or above any observed speed, and it always equals its start or one observed speed |
| Trajectory.MaxSpeedBounds | example-from-nplus1/assets/script-butterfly.js:90-92 | the maximum tracker never falls below its start or below any observed speed, and it always equals its start or one observed speed |
| Trajectory.CeilDivStep | example-from-nplus1/assets/script-butterfly.js:95-97 | looking at one more index adds a tracer exactly when that index is a multiple of the stride |
| Trajectory.StrideCount | example-from-nplus1/assets/script-butterfly.js:84 | when P divides N, the stride N / P is positive and seeds exactly P tracers over N points |
| Trajectory.SampledAt | example-from-nplus1/assets/script-butterfly.js:95-97 | stride-k sampling of a trail of length n keeps ceil(n / k) points, and sample j is point j * k |
| Trajectory.ObserveOneMore | example-from-nplus1/assets/script-butterfly.js:86-97 | one more observed point adds itself to the centroid sum, folds its speed into both trackers, and is sampled exactly when its index is a multiple of the stride |
| Trajectory.RunMatchesTrail | example-from-nplus1/assets/script-butterfly.js:86-97 | running an epoch pass by pass gives the same position, points, centroid sum, trackers and samples as taking the trail first and computing each quantity over it |
| Trajectory.EpochProperties | example-from-nplus1/assets/script-butterfly.js:78-105 | for P dividing N, an epoch from an empty start has these results: (1) it visits exactly the N-step trail and ends on its last point; (2) it adds every point to the centroid sum; (3) the minimum only fell and the maximum only rose, every observed speed lies between them, and so the range is non-negative; (4) it seeds exactly P tracers, tracer j on point j * (N / P) |
| Butterfly.Particle.constructor | example-from-nplus1/assets/script-butterfly.js:124-128 | a new tracer sits at the given point |
| Butterfly.Particle.Update | example-from-nplus1/assets/script-butterfly.js:130-134 | the tracer moves by exactly the given displacement |
| Butterfly.LorenzAttractor.constructor | example-from-nplus1/assets/script-butterfly.js:2-23 | the new attractor has: the seed as its position; the given parameters; the centroid accumulator at the seed; mass 1; minimum 10000000; maximum 0; no tracers |
| Butterfly.LorenzAttractor.Update | example-from-nplus1/assets/script-butterfly.js:60-70 | the position becomes one Euler step of the old position, all derivatives taken before any coordinate changes; the new position is added to the centroid accumulator; nothing else may change |
| Butterfly.LorenzAttractor.ResetCoordinates | example-from-nplus1/assets/script-butterfly.js:72-76 | the position becomes the arguments; the centroid, the trackers, the tracers and the parameters may not change |
| Butterfly.LorenzAttractor.DrawPoint | example-from-nplus1/assets/script-butterfly.js:87-97 | one pass of the epoch loop is exactly step i of the reference run: step, record, fold the speed into the trackers, and append one fresh tracer at the new position exactly when i is a multiple of the stride |
| Butterfly.LorenzAttractor.Trace | example-from-nplus1/assets/script-butterfly.js:86-98 | the epoch loop from an empty tracer list ends in the state the reference run ends in, with distinct, fresh tracers on its samples |
| Butterfly.LorenzAttractor.DrawPoints | example-from-nplus1/assets/script-butterfly.js:78-105 | the epoch sets mass to N and returns the reference run's points. It leaves the position, the trackers and fresh, distinct tracers where that run ends, and the centroid at the run's sum divided by N (see EpochProperties) |
| Butterfly.LorenzAttractor.DrawParticles | example-from-nplus1/assets/script-butterfly.js:107-119 | returns the same tracers in the same order, each moved by one Euler step taken at its own position; the attractor's own state may not change |

## Left out

- Floating point: coordinates are exact reals. Rounding, overflow, NaN and
  Infinity are not modelled, so nothing is said about numerical drift.
- Speed: `Math.sqrt` in `getVelocity` (line 53) is not modelled. `Speed` is
  the squared length of the step's displacement. The ordering facts about
  the trackers are the same. The stored values are squares, though, so a
  comparison with the 10000000 sentinel can come out differently than in the
  source.
- Butterfly.LorenzAttractor.DrawPoints: requires pointsCount > 0,
  particlesCount > 0 and particlesCount dividing pointsCount. The source
  divides in floating point. With zero tracers its stride is Infinity. With
  zero points the loop never runs and the accumulator, which starts at the
  seed, is divided by 0, giving plus or minus Infinity (NaN for a zero
  coordinate). A stride that is not a whole number matches `%` only at some
  indices. These float-only behaviours are not modelled.
- Butterfly.LorenzAttractor.DrawPoints: the source empties the tracer array
  in place (`length = 0`, line 82). The model gives the `particles` field a
  new sequence instead. A caller that kept the array from `getParticles`
  sees it emptied and refilled in the source, but not in the model.
- The derivative and speed methods (lines 37-54) are module functions over
  the parameters (`DxDt`, `DyDt`, `DzDt`, `Speed`), not class members. The
  getters return a `Point` in place of a fresh three-element array.
- The p5 sketch (lines 141-264) is not part of this model: the canvas, the
  sliders, the camera and the render loop.
