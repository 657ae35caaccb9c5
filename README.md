# Boids flocking core in Dafny

This project models the flocking arithmetic of the SFML boids simulation. Each boid
(`Boid` in `Main.cpp`) keeps a position, a velocity and an acceleration. It also holds:

- three per-frame aggregates: `positionDifference`, `averageVelocity` and `averagePosition`;
- four cached steering vectors: `separation`, `alignment`, `cohesion` and `center`;
- tunables, weights and on/off switches that the constructors set and nothing changes afterwards.

Every frame, `main` calls `Steer` on every boid, then `Move` on every boid.

- `Steer` scans a by-value copy of the flock. It counts the flockmates with
  `0 < distance <= perceptionRadius` and sums their away-directions, velocities and
  positions. It divides each sum by the count, or falls back to the boid's own velocity and
  position when nothing is perceived. It then rebuilds the cached vector of each enabled
  behaviour.
- `Move` folds the weighted cached vectors into the acceleration and damps it by
  `turnSpeed`. It resets the speed to `dt * moveSpeed` along `velocity + acceleration`, then
  advances the position.

The project is organised in five modules:

- `Vectors` (`vectors.dfy`): 2-vectors over `real`, plus `Magnitude`, `Normalise` and
  `Distance`. `sqrt` is a parameter of these functions; `SqrtSound(sqrt)` gives the only
  facts the proofs use: the result is non-negative and squares back to its argument.
- `Window` (`window.dfy`): `WindowSize` and the wrap-around bound `edges`.
- `Steering` (`steering.dfy`): a boid's fields as a value (`BoidState`). It also holds the
  scan over the flock (`Scan`, built from each flockmate's `Contribution`) and what `Steer`
  and `Move` compute (`Steered`, `Moved`). Finally it has the frame step: `SteerAll` and
  `MoveAll`, plus `SteerInOrder`, which steers boids one by one, each against the flock as
  it stands at that call.
- `SteeringLemmas` (`steering_lemmas.dfy`): the properties, including a reference
  definition of the neighbour filter and of the sums.
- `Boids` (`boids.dfy`): class `Boid`, whose fields `Steer` and `Move` update in place, and
  class `Flock`, the `std::vector<Boid>` of `main`. Each method is proved equal to its value
  counterpart in `Steering`.

## Model

| member | source | states |
|---|---|---|
| Window.Edges | Boids/Boids/src/Main.cpp:45-59 | both coordinates of the result lie in `[0, WindowSize]`; a coordinate already in range is returned unchanged |
| Window.EdgesIdempotent | Boids/Boids/src/Main.cpp:45-59 | bounding an already bounded position changes nothing |
| Window.EdgesFixedPoints | Boids/Boids/src/Main.cpp:45-59 | `edges` leaves a position unchanged exactly when both coordinates are on the window |
| Vectors.MagnitudeSpec | Boids/Boids/src/Main.cpp:268-272 | the magnitude is non-negative and squares to `x*x + y*y`; it is zero exactly for the zero vector |
| Vectors.MagnitudeScale | Boids/Boids/src/Main.cpp:268-272 | scaling a vector by `k >= 0` scales its magnitude by `k` |
| Vectors.Normalise | Boids/Boids/src/Main.cpp:62-66 | the result scaled back by the magnitude is the input, so it has the input's direction |
| Vectors.NormaliseUnit | Boids/Boids/src/Main.cpp:62-66 | a normalised nonzero vector has magnitude 1 |
| Vectors.DistanceSpec | Boids/Boids/src/Main.cpp:250-254 | the distance is non-negative, symmetric, and zero exactly between equal points |
| Steering.Steered | Boids/Boids/src/Main.cpp:159-228 | `Steer` keeps the settings, position, velocity and acceleration |
| SteeringLemmas.PerceivesIff | Boids/Boids/src/Main.cpp:171-172 | the neighbour test holds exactly when `0 < distance <= perceptionRadius`: a flockmate at exactly the perception radius is counted, and a coincident one never is |
| SteeringLemmas.CoincidentIgnored | Boids/Boids/src/Main.cpp:169-194 | a flockmate at the boid's own position adds nothing to `total` or to any accumulator |
| SteeringLemmas.SelfExcluded | Boids/Boids/src/Main.cpp:169-194 | inserting the boid itself anywhere in the flock leaves the count and all three sums unchanged |
| SteeringLemmas.ScanConcat | Boids/Boids/src/Main.cpp:169-194 | the scan of two concatenated flocks is the sum of their scans |
| SteeringLemmas.ScanStep | Boids/Boids/src/Main.cpp:169-194 | one more loop iteration adds exactly one flockmate's contribution |
| SteeringLemmas.ScanRemove | Boids/Boids/src/Main.cpp:169-194 | the scan of a flock is the scan without one member plus that member's contribution |
| SteeringLemmas.ScanPermutation | Boids/Boids/src/Main.cpp:169-194 | any rearrangement of the flock gives the same count and sums |
| SteeringLemmas.Neighbours | Boids/Boids/src/Main.cpp:169-173 | reference filter: a flockmate is a neighbour exactly when it is in the flock and passes the neighbour test |
| SteeringLemmas.ScanSums | Boids/Boids/src/Main.cpp:169-194 | `total` is the number of neighbours; each enabled accumulator is the sum over the neighbours; a disabled one stays zero |
| SteeringLemmas.NothingPerceived | Boids/Boids/src/Main.cpp:169-194 | with no flockmate passing the test, `total` is 0 |
| SteeringLemmas.SteeredMeans | Boids/Boids/src/Main.cpp:185-200 | with neighbours, `averageVelocity`, `averagePosition` and `positionDifference` are the means over them of velocities, positions and away-directions (zero when disabled) |
| SteeringLemmas.SteeredOrderIndependent | Boids/Boids/src/Main.cpp:159-228 | `Steer` gives the same result for any ordering of the flock |
| SteeringLemmas.NoNeighbourCancellation | Boids/Boids/src/Main.cpp:202-221 | without neighbours, the aggregates fall back to the boid's velocity and position, and every enabled separation, alignment and cohesion is zero |
| SteeringLemmas.StaleWhenDisabled | Boids/Boids/src/Main.cpp:211-227 | a disabled behaviour's cached vector is what it was before `Steer` |
| SteeringLemmas.SteeredIdempotent | Boids/Boids/src/Main.cpp:159-228 | steering twice against the same flock gives the same result as steering once |
| SteeringLemmas.PairScan | Boids/Boids/src/Main.cpp:169-194 | in a flock of the boid and one other, in either order, only the other's contribution is counted |
| SteeringLemmas.AxisDistance | Boids/Boids/src/Main.cpp:250-254 | the points (0,0) and (d,0) are `d` apart, in both directions |
| SteeringLemmas.AxisUnit | Boids/Boids/src/Main.cpp:169-181 | two boids at (0,0) and (d,0) within range each count the other, and the away-direction each contributes is the unit vector pointing away from the other: (-1,0) at the origin, (1,0) at (d,0), whatever their velocities |
| SteeringLemmas.SeparationOfOne | Boids/Boids/src/Main.cpp:196-213 | with exactly one neighbour, an enabled separation is its away-direction minus the boid's velocity |
| SteeringLemmas.TwoBoidSeparation | Boids/Boids/src/Main.cpp:169-213 | boids at (0,0) and (d,0), both moving along +x, within range: separation is (-2,0) for the left boid and zero for the right, for every `d` |
| SteeringLemmas.TwoBoidSeparationAt | Boids/Boids/src/Main.cpp:169-213 | the same scenario, given the distances the square root yields |
| SteeringLemmas.MovedSpeed | Boids/Boids/src/Main.cpp:234-240 | after `Move`, the speed is exactly `dt * moveSpeed` |
| SteeringLemmas.AccelerationCarriesOver | Boids/Boids/src/Main.cpp:234-238 | with all cached vectors zero, the new acceleration is the previous one times `turnSpeed`; it is never reset |
| SteeringLemmas.SteerInOrderFrom | Boids/Boids/src/Main.cpp:501-504 | while each boid is either untouched or steered against the frame-start flock, further steering keeps this so, and steers exactly the visited boids |
| SteeringLemmas.TwoPhaseIsolation | Boids/Boids/src/Main.cpp:501-510 | visiting every boid in any order steers each against the frame-start positions and velocities |
| SteeringLemmas.MainLoopIsolated | Boids/Boids/src/Main.cpp:501-504 | in particular, for the flock order in which `main` visits the boids |
| Boids.Boid.Default | Boids/Boids/src/Main.cpp:75-116 | the default boid is at the origin, moving along +x, with the default settings and all other vectors zero |
| Boids.Boid.constructor | Boids/Boids/src/Main.cpp:119-156 | a spawned boid has the given position, the normalised velocity, the spawn settings and all other vectors zero |
| Boids.Boid.ScanFlock | Boids/Boids/src/Main.cpp:161-194 | after the loop over the flock copy, `total` and the three aggregates are the scan of the whole flock; only the aggregates are in the frame |
| Boids.Boid.Steer | Boids/Boids/src/Main.cpp:159-228 | the new state is `Steered` of the old state and the flock copy; only the aggregate and cached fields are in the frame |
| Boids.Boid.Move | Boids/Boids/src/Main.cpp:231-241 | the new state is `Moved` of the old state; only acceleration, velocity and position are in the frame |
| Boids.Flock.constructor | Boids/Boids/src/Main.cpp:441 | the flock starts empty |
| Boids.Flock.Spawn | Boids/Boids/src/Main.cpp:453-455 | `push_back`: the flock gains one fresh boid at the end, built by the spawn constructor; the existing boids are the same objects, in the same order, with unchanged states |
| Boids.Flock.SteerPhase | Boids/Boids/src/Main.cpp:501-504 | after the `Steer` loop, every boid is steered against the frame-start flock; the result equals `SteerInOrder` over the flock's indices, which `TwoPhaseIsolation` extends to any visiting order |
| Boids.Flock.MovePhase | Boids/Boids/src/Main.cpp:507-510 | after the `Move` loop, every boid is moved from its own state |
| Boids.Flock.Frame | Boids/Boids/src/Main.cpp:501-510 | a frame moves every boid after steering every boid against the frame-start flock |

## Left out

- Rendering is not modelled: `shape`, `setPosition`, `setRotation`, `window.draw`, and the `Debug` class. It only presents the state.
- Most of `main` is not modelled: window creation, event polling, the clock and the random initial conditions. That includes the fall-through from the `KeyPressed` case into the mouse case. These are I/O and randomness. The frame step takes `dt` as a parameter, and `Flock.Spawn` takes the position and velocity.
- `Direction` is not modelled. It is an `atan`-based angle used only to rotate the shape.
- `sqrt` and `pow` are parameters. Only `SqrtSound` is assumed of `sqrt`, and nothing of `pow`: the centring weight `pow(1.5, ...)` is carried through unevaluated.
- `Distance` squares each coordinate difference with `pow(..., 2.0f)`. The model uses a product.
- `float` rounding is not modelled. Every quantity is a `real`, and a division by zero becomes a precondition rather than NaN:
  - `Normalise` requires a nonzero magnitude.
  - `Steer` requires the boid not to sit exactly on the centre point when centring is on.
  - `Move` requires `velocity + acceleration` to be nonzero.
- `Boids.Boid.Steer`: the loop over the flock is its own method, `ScanFlock`, which `Steer` calls. The flock copy is modelled as the flockmates' positions and velocities, the only fields `Steer` reads. `Frame` hands each call the flock as it stands at that call.
- The acceleration is never reset between frames (`AccelerationCarriesOver`).
- Separation sums unit away-directions, so in the two-boid scenario its size does not depend on the distance, and the boid in front gets a zero separation vector (`TwoBoidSeparation`).
- The `edges` call in `Move` is commented out, so `Edges` is modelled but the frame step does not use it.
- The fields `size` and `perceptionAngle` are not modelled. The first only sizes the shape; the second exists only as a comment.
