/** The arithmetic of one boid's frame, as values: what `Boid::Steer` computes from a
    copy of the flock, what `Boid::Move` computes from the steering vectors, and the
    frame step that steers every boid before moving any. The class in `Boids` is
    proved to do exactly this.

    `sqrt` and `pow` from `<math.h>` are parameters (see `Vectors`). */
module Steering {
  import opened Vectors
  import Window

  /** The per-boid constants the Boid constructors set and nothing changes afterwards:
      tunables, steering weights, the centring radius and the behaviour switches. */
  datatype Config = Config(
    moveSpeed: real,
    turnSpeed: real,
    perceptionRadius: real,
    separationWeight: real,
    alignmentWeight: real,
    cohesionWeight: real,
    centerWeight: real,
    centerRadius: real,
    separationEnable: bool,
    alignmentEnable: bool,
    cohesionEnable: bool,
    centerEnable: bool)

  /** `(float)(WindowSize / 2)`: integer division, then conversion. */
  const CenterRadius: real := (Window.WindowSize / 2) as real

  /** The settings of the default constructor `Boid()`. */
  const DefaultProfile: Config :=
    Config(100.0, 0.25, 50.0, 1.0, 1.0, 1.0, 1.0, CenterRadius, true, true, true, true)

  /** The settings of the constructor `Boid(position, velocity)`, used for every boid
      the program creates. */
  const SpawnedProfile: Config :=
    Config(175.0, 0.1, 60.0, 1.5, 0.25, 0.025, 0.05, CenterRadius, true, true, true, true)

  /** The point the centring behaviour steers towards. */
  function CenterPoint(cfg: Config): Vec {
    Vec(cfg.centerRadius, cfg.centerRadius)
  }

  /** What `Steer` reads of a flockmate: its position and velocity. */
  datatype Mate = Mate(position: Vec, velocity: Vec)

  /** Every field of a Boid that the simulation reads or writes. */
  datatype BoidState = BoidState(
    cfg: Config,
    position: Vec,
    velocity: Vec,
    acceleration: Vec,
    positionDifference: Vec,
    averageVelocity: Vec,
    averagePosition: Vec,
    separation: Vec,
    alignment: Vec,
    cohesion: Vec,
    center: Vec)

  function AsMate(s: BoidState): Mate {
    Mate(s.position, s.velocity)
  }

  // ---------------------------------------------------------------------------
  // The scan over the flock

  /** The neighbour test of `Steer`, as written: `distance <= perceptionRadius &&
      distance != 0`. */
  predicate Perceives(cfg: Config, self: Vec, other: Vec, sqrt: real -> real) {
    var d := Distance(self, other, sqrt);
    d <= cfg.perceptionRadius && d != 0.0
  }

  /** The running values of the scan: `total` and the three accumulators. */
  datatype Tally = Tally(total: nat, away: Vec, velocities: Vec, positions: Vec)

  const NoTally: Tally := Tally(0, Zero, Zero, Zero)

  function Plus(a: Tally, b: Tally): Tally {
    Tally(a.total + b.total, Add(a.away, b.away), Add(a.velocities, b.velocities),
          Add(a.positions, b.positions))
  }

  /** What one flockmate adds in the loop of `Steer`: nothing unless it is perceived;
      otherwise one to `total`, its away-direction, velocity and position to the
      accumulators of the enabled behaviours. */
  function Contribution(cfg: Config, self: Vec, other: Mate, sqrt: real -> real): Tally {
    var d := Distance(self, other.position, sqrt);
    if d <= cfg.perceptionRadius && d != 0.0 then
      Tally(1,
            if cfg.separationEnable then Div(Sub(self, other.position), d) else Zero,
            if cfg.alignmentEnable then other.velocity else Zero,
            if cfg.cohesionEnable then other.position else Zero)
    else
      NoTally
  }

  /** The loop of `Steer` over the flock, in the flock's order. */
  function Scan(cfg: Config, self: Vec, mates: seq<Mate>, sqrt: real -> real): Tally
    decreases |mates|
  {
    if mates == [] then NoTally
    else Plus(Scan(cfg, self, mates[..|mates| - 1], sqrt),
              Contribution(cfg, self, mates[|mates| - 1], sqrt))
  }

  // ---------------------------------------------------------------------------
  // Steer

  /** The centring weight `pow(1.5, distanceFromCenter / 10 - centerRadius / 10)`. */
  function DistanceWeight(cfg: Config, position: Vec, sqrt: real -> real,
                          pow: (real, real) -> real): real
  {
    pow(1.5, Distance(position, CenterPoint(cfg), sqrt) / 10.0 - cfg.centerRadius / 10.0)
  }

  /** The source normalises `CenterPoint - position` when centring is on; a boid
      exactly on the centre point would divide by zero. */
  predicate CenterDefined(s: BoidState, sqrt: real -> real) {
    s.cfg.centerEnable ==> Magnitude(Sub(CenterPoint(s.cfg), s.position), sqrt) != 0.0
  }

  /** The three aggregates after the scan: the means when some flockmate was
      perceived, otherwise the boid's own velocity and position. */
  function Aggregated(s: BoidState, t: Tally): BoidState {
    if t.total > 0 then
      var n := t.total as real;
      s.(positionDifference := Div(t.away, n),
         averageVelocity := Div(t.velocities, n),
         averagePosition := Div(t.positions, n))
    else
      s.(positionDifference := s.velocity,
         averageVelocity := s.velocity,
         averagePosition := s.position)
  }

  /** The last part of `Boid::Steer`: the cached vector of each enabled behaviour is
      rebuilt from the aggregates; a disabled one keeps its old value. */
  function Rebuilt(a: BoidState, sqrt: real -> real, pow: (real, real) -> real): BoidState
    requires CenterDefined(a, sqrt)
  {
    var cfg := a.cfg;
    a.(separation := if cfg.separationEnable then Sub(a.positionDifference, a.velocity)
                     else a.separation,
       alignment := if cfg.alignmentEnable then Sub(a.averageVelocity, a.velocity)
                    else a.alignment,
       cohesion := if cfg.cohesionEnable then Sub(a.averagePosition, a.position)
                   else a.cohesion,
       center := if cfg.centerEnable
                 then Scale(Normalise(Sub(CenterPoint(cfg), a.position), sqrt),
                            DistanceWeight(cfg, a.position, sqrt, pow))
                 else a.center)
  }

  /** The whole of `Boid::Steer` on a boid and the copy of the flock it is given. */
  function Steered(s: BoidState, mates: seq<Mate>, sqrt: real -> real,
                   pow: (real, real) -> real): (r: BoidState)
    requires CenterDefined(s, sqrt)
    ensures r.cfg == s.cfg && AsMate(r) == AsMate(s) && r.acceleration == s.acceleration
  {
    Rebuilt(Aggregated(s, Scan(s.cfg, s.position, mates, sqrt)), sqrt, pow)
  }

  // ---------------------------------------------------------------------------
  // Move

  /** Steps 1 and 2 of `Move`: the weighted steering vectors are added to the
      acceleration carried over from the previous frame, and the sum is damped. */
  function NextAcceleration(s: BoidState): Vec {
    var cfg := s.cfg;
    var a := Add(s.acceleration, Scale(s.separation, cfg.separationWeight));
    var a := Add(a, Scale(s.alignment, cfg.alignmentWeight));
    var a := Add(a, Scale(s.cohesion, cfg.cohesionWeight));
    var a := Add(a, Scale(s.center, cfg.centerWeight));
    Scale(a, cfg.turnSpeed)
  }

  /** `Move` normalises `velocity + acceleration`; the zero vector divides by zero. */
  predicate MoveDefined(s: BoidState, sqrt: real -> real) {
    Magnitude(Add(s.velocity, NextAcceleration(s)), sqrt) != 0.0
  }

  /** The whole of `Boid::Move` (without drawing) for a frame that took `dt` seconds. */
  function Moved(s: BoidState, dt: real, sqrt: real -> real): (r: BoidState)
    requires MoveDefined(s, sqrt)
  {
    var acceleration := NextAcceleration(s);
    var heading := Normalise(Add(s.velocity, acceleration), sqrt);
    var velocity := Scale(Scale(heading, dt), s.cfg.moveSpeed);
    s.(acceleration := acceleration, velocity := velocity,
       position := Add(s.position, velocity))
  }

  // ---------------------------------------------------------------------------
  // The frame step of `main`

  /** The positions and velocities of the flock, which is all `Steer` reads of it. */
  function Snapshot(flock: seq<BoidState>): (m: seq<Mate>)
    ensures |m| == |flock|
    ensures forall i :: 0 <= i < |flock| ==> m[i] == AsMate(flock[i])
  {
    seq(|flock|, i requires 0 <= i < |flock| => AsMate(flock[i]))
  }

  predicate AllCenterDefined(flock: seq<BoidState>, sqrt: real -> real) {
    forall i :: 0 <= i < |flock| ==> CenterDefined(flock[i], sqrt)
  }

  predicate AllMoveDefined(flock: seq<BoidState>, sqrt: real -> real) {
    forall i :: 0 <= i < |flock| ==> MoveDefined(flock[i], sqrt)
  }

  /** The steering phase: every boid steered against the flock as it stood at the
      start of the frame. */
  function SteerAll(flock: seq<BoidState>, sqrt: real -> real,
                    pow: (real, real) -> real): (r: seq<BoidState>)
    requires AllCenterDefined(flock, sqrt)
    ensures |r| == |flock|
    ensures forall i :: 0 <= i < |flock| ==> r[i] == Steered(flock[i], Snapshot(flock), sqrt, pow)
  {
    seq(|flock|, i requires 0 <= i < |flock| => Steered(flock[i], Snapshot(flock), sqrt, pow))
  }

  /** The moving phase: every boid moved on its own state. */
  function MoveAll(flock: seq<BoidState>, dt: real, sqrt: real -> real): (r: seq<BoidState>)
    requires AllMoveDefined(flock, sqrt)
    ensures |r| == |flock|
    ensures forall i :: 0 <= i < |flock| ==> r[i] == Moved(flock[i], dt, sqrt)
  {
    seq(|flock|, i requires 0 <= i < |flock| => Moved(flock[i], dt, sqrt))
  }

  /** The steering loop of `main` visiting the boids in any order: each `Steer` call
      receives a copy of the flock as it stands at that call, after the calls before
      it. */
  function SteerInOrder(flock: seq<BoidState>, order: seq<nat>, sqrt: real -> real,
                        pow: (real, real) -> real): seq<BoidState>
    requires forall k :: 0 <= k < |order| ==> order[k] < |flock|
    requires AllCenterDefined(flock, sqrt)
    decreases |order|
  {
    if order == [] then flock
    else
      var i := order[0];
      var next := flock[i := Steered(flock[i], Snapshot(flock), sqrt, pow)];
      SteerInOrder(next, order[1..], sqrt, pow)
  }

  /** The indices of a flock of `n` boids in the order `main` visits them. */
  function Indices(n: nat): (order: seq<nat>)
    ensures |order| == n
    ensures forall k :: 0 <= k < n ==> order[k] == k
  {
    seq(n, k requires 0 <= k < n => k)
  }
}
