/** The `Boid` class and the flock that `main` drives, as objects updated in place.
    Each method is proved to do what the value model in `Steering` says, so the
    properties proved there (in `SteeringLemmas`) hold of these objects. */
module Boids {
  import opened Vectors
  import opened Steering
  import SteeringLemmas

  class Boid {
    /** The tunables, weights and switches: set by the constructors, never changed. */
    const cfg: Config

    var position: Vec
    var velocity: Vec
    var acceleration: Vec

    // The aggregates `Steer` computes from the flock.
    var positionDifference: Vec
    var averageVelocity: Vec
    var averagePosition: Vec

    // The cached steering vectors `Move` folds into the acceleration.
    var separation: Vec
    var alignment: Vec
    var cohesion: Vec
    var center: Vec

    /** The boid's fields as a value. */
    function State(): BoidState
      reads this
    {
      BoidState(cfg, position, velocity, acceleration, positionDifference, averageVelocity,
                averagePosition, separation, alignment, cohesion, center)
    }

    /** `Boid()`: at the origin heading along +x, with the default settings. */
    constructor Default()
      ensures State() == BoidState(DefaultProfile, Zero, Vec(1.0, 0.0), Zero, Zero, Zero, Zero,
                                   Zero, Zero, Zero, Zero)
    {
      cfg := DefaultProfile;
      position := Zero;
      velocity := Vec(1.0, 0.0);
      acceleration := Zero;
      positionDifference, averageVelocity, averagePosition := Zero, Zero, Zero;
      separation, alignment, cohesion, center := Zero, Zero, Zero, Zero;
    }

    /** `Boid(position, velocity)`: the constructor every boid of the simulation is made
        with. The velocity is normalised to unit length (the zero vector, which the
        source would divide by zero, is excluded); every other vector starts at zero,
        the value a default-constructed `sf::Vector2f` holds. */
    constructor(position: Vec, velocity: Vec, sqrt: real -> real)
      requires Magnitude(velocity, sqrt) != 0.0
      ensures State() == BoidState(SpawnedProfile, position, Normalise(velocity, sqrt), Zero,
                                   Zero, Zero, Zero, Zero, Zero, Zero, Zero)
    {
      cfg := SpawnedProfile;
      this.position := position;
      this.velocity := Normalise(velocity, sqrt);
      acceleration := Zero;
      positionDifference, averageVelocity, averagePosition := Zero, Zero, Zero;
      separation, alignment, cohesion, center := Zero, Zero, Zero, Zero;
    }

    /** The first part of `Steer(flock)`: reset the three aggregates, then walk the
        flock copy, adding every perceived flockmate to `total` and to the aggregates
        of the enabled behaviours. The result is the scan of the whole flock. */
    method ScanFlock(flock: seq<Mate>, sqrt: real -> real) returns (total: nat)
      modifies this`positionDifference, this`averageVelocity, this`averagePosition
      ensures Tally(total, positionDifference, averageVelocity, averagePosition)
           == Scan(cfg, position, flock, sqrt)
    {
      positionDifference := Zero;
      averageVelocity := Zero;
      averagePosition := Zero;
      total := 0;

      var k := 0;
      while k < |flock|
        invariant 0 <= k <= |flock|
        invariant Tally(total, positionDifference, averageVelocity, averagePosition)
               == Scan(cfg, position, flock[..k], sqrt)
      {
        var other := flock[k];
        SteeringLemmas.ScanStep(cfg, position, flock, k, sqrt);
        var distance := Distance(position, other.position, sqrt);
        if distance <= cfg.perceptionRadius && distance != 0.0 {
          if cfg.separationEnable {
            positionDifference := Add(positionDifference, Div(Sub(position, other.position), distance));
          }
          if cfg.alignmentEnable {
            averageVelocity := Add(averageVelocity, other.velocity);
          }
          if cfg.cohesionEnable {
            averagePosition := Add(averagePosition, other.position);
          }
          total := total + 1;
        }
        k := k + 1;
      }
      assert flock[..k] == flock;
    }

    /** `Steer(flock)`: scan the flock (a copy of it, as the source passes it by value,
        of which only positions and velocities are read), form the aggregates and
        rebuild the cached vector of each enabled behaviour. Position, velocity and
        acceleration are not in the frame, so they stay as they were. */
    method Steer(flock: seq<Mate>, sqrt: real -> real, pow: (real, real) -> real)
      requires CenterDefined(State(), sqrt)
      modifies this`positionDifference, this`averageVelocity, this`averagePosition
      modifies this`separation, this`alignment, this`cohesion, this`center
      ensures State() == Steered(old(State()), flock, sqrt, pow)
    {
      ghost var aggregated := Aggregated(State(), Scan(cfg, position, flock, sqrt));
      var distanceWeight := DistanceWeight(cfg, position, sqrt, pow);
      var total := ScanFlock(flock, sqrt);

      if total > 0 {
        positionDifference := Div(positionDifference, total as real);
        averageVelocity := Div(averageVelocity, total as real);
        averagePosition := Div(averagePosition, total as real);
      } else {
        positionDifference := velocity;
        averageVelocity := velocity;
        averagePosition := position;
      }
      assert positionDifference == aggregated.positionDifference && averageVelocity == aggregated.averageVelocity && averagePosition == aggregated.averagePosition;

      if cfg.separationEnable {
        separation := Sub(positionDifference, velocity);
      }
      if cfg.alignmentEnable {
        alignment := Sub(averageVelocity, velocity);
      }
      if cfg.cohesionEnable {
        cohesion := Sub(averagePosition, position);
      }
      if cfg.centerEnable {
        center := Scale(Normalise(Sub(CenterPoint(cfg), position), sqrt), distanceWeight);
      }
    }

    /** `Move(elapsed_t, window)` without the drawing: fold the weighted steering
        vectors into the acceleration kept from the previous frame, damp it, set the
        velocity to the direction of `velocity + acceleration` at `dt * moveSpeed`, and
        advance the position. The steering caches and aggregates stay as they were. */
    method Move(dt: real, sqrt: real -> real)
      requires MoveDefined(State(), sqrt)
      modifies this`acceleration, this`velocity, this`position
      ensures State() == Moved(old(State()), dt, sqrt)
    {
      acceleration := Add(acceleration, Scale(separation, cfg.separationWeight));
      acceleration := Add(acceleration, Scale(alignment, cfg.alignmentWeight));
      acceleration := Add(acceleration, Scale(cohesion, cfg.cohesionWeight));
      acceleration := Add(acceleration, Scale(center, cfg.centerWeight));
      acceleration := Scale(acceleration, cfg.turnSpeed);
      velocity := Scale(Scale(Normalise(Add(velocity, acceleration), sqrt), dt), cfg.moveSpeed);
      position := Add(position, velocity);
    }
  }

  /** The `std::vector<Boid>` that `main` keeps: distinct boids, each updated through
      a reference by the frame loops. */
  class Flock {
    var boids: seq<Boid>

    ghost predicate Valid()
      reads this
    {
      forall i, j :: 0 <= i < j < |boids| ==> boids[i] != boids[j]
    }

    /** The states of the boids, in flock order. */
    function States(): (r: seq<BoidState>)
      reads this, boids
      ensures |r| == |boids|
      ensures forall i :: 0 <= i < |boids| ==> r[i] == boids[i].State()
    {
      seq(|boids|, i reads this, boids requires 0 <= i < |boids| => boids[i].State())
    }

    constructor()
      ensures Valid() && boids == []
    {
      boids := [];
    }

    /** `flock.push_back(Boid(position, velocity))`: a new boid at the end of the flock. */
    method Spawn(position: Vec, velocity: Vec, sqrt: real -> real)
      requires Valid()
      requires Magnitude(velocity, sqrt) != 0.0
      modifies this
      ensures Valid()
      ensures |boids| == old(|boids|) + 1 && fresh(boids[|boids| - 1])
      ensures boids[..|boids| - 1] == old(boids)
      ensures States() == old(States()) + [BoidState(SpawnedProfile, position,
                                                     Normalise(velocity, sqrt), Zero, Zero,
                                                     Zero, Zero, Zero, Zero, Zero, Zero)]
    {
      var b := new Boid(position, velocity, sqrt);
      boids := boids + [b];
      assert States()[..|boids| - 1] == old(States());
    }

    /** The first loop of a frame: `Steer` on every boid in flock order, each call
        given a copy of the flock as it stands at that call. Since `Steer` moves no
        boid, every copy shows the frame-start positions and velocities. The result is
        both `SteerAll` of the frame start and the value model of this loop,
        `SteerInOrder` over the flock's indices; `SteeringLemmas.TwoPhaseIsolation`
        extends the equality to every visiting order. */
    method SteerPhase(sqrt: real -> real, pow: (real, real) -> real)
      requires Valid()
      requires AllCenterDefined(States(), sqrt)
      modifies boids
      ensures States() == SteerAll(old(States()), sqrt, pow)
      ensures States() == SteerInOrder(old(States()), Indices(|boids|), sqrt, pow)
    {
      ghost var start := States();
      ghost var steered := SteerAll(start, sqrt, pow);
      var i := 0;
      while i < |boids|
        invariant 0 <= i <= |boids|
        invariant forall j :: 0 <= j < i ==> boids[j].State() == steered[j]
        invariant forall j :: i <= j < |boids| ==> boids[j].State() == start[j]
      {
        var copy := Snapshot(States());
        assert copy == Snapshot(start);
        boids[i].Steer(copy, sqrt, pow);
        i := i + 1;
      }
      assert States() == steered;
      SteeringLemmas.MainLoopIsolated(start, sqrt, pow);
    }

    /** The second loop of a frame: `Move` on every boid in flock order. */
    method MovePhase(dt: real, sqrt: real -> real)
      requires Valid()
      requires AllMoveDefined(States(), sqrt)
      modifies boids
      ensures States() == MoveAll(old(States()), dt, sqrt)
    {
      ghost var start := States();
      var i := 0;
      while i < |boids|
        invariant 0 <= i <= |boids|
        invariant forall j :: 0 <= j < i ==> boids[j].State() == Moved(start[j], dt, sqrt)
        invariant forall j :: i <= j < |boids| ==> boids[j].State() == start[j]
      {
        boids[i].Move(dt, sqrt);
        i := i + 1;
      }
    }

    /** One frame of the simulation loop: `Steer` on every boid, then `Move` on every
        boid. The result is every boid steered against the frame-start flock and then
        moved. */
    method Frame(dt: real, sqrt: real -> real, pow: (real, real) -> real)
      requires Valid()
      requires AllCenterDefined(States(), sqrt)
      requires AllMoveDefined(SteerAll(States(), sqrt, pow), sqrt)
      modifies boids
      ensures States() == MoveAll(SteerAll(old(States()), sqrt, pow), dt, sqrt)
    {
      SteerPhase(sqrt, pow);
      MovePhase(dt, sqrt);
    }
  }
}
