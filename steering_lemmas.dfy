/** What `Steer`, `Move` and the frame step promise, proved about the value model in
    `Steering`: the neighbour test, self-exclusion, the means, order independence,
    the no-neighbour fallback, stale caches, the renormalised speed and the isolation
    of the steering phase. */
module SteeringLemmas {
  import opened Vectors
  import opened Steering

  // ---------------------------------------------------------------------------
  // The neighbour test

  /** With a sound square root the test `distance <= perceptionRadius && distance != 0`
      is `0 < distance <= perceptionRadius`: a flockmate at exactly the perception
      radius is counted, and one at distance zero never is. */
  lemma PerceivesIff(cfg: Config, self: Vec, other: Vec, sqrt: real -> real)
    requires SqrtSound(sqrt)
    ensures Perceives(cfg, self, other, sqrt)
        <==> 0.0 < Distance(self, other, sqrt) <= cfg.perceptionRadius
    ensures Perceives(cfg, self, other, sqrt) ==> self != other
  {
    DistanceSpec(self, other, sqrt);
  }

  /** A flockmate standing where the boid stands, such as the boid's own copy in the
      flock, adds nothing to `total` or to any accumulator. */
  lemma CoincidentIgnored(cfg: Config, self: Vec, other: Mate, sqrt: real -> real)
    requires SqrtSound(sqrt)
    requires other.position == self
    ensures Contribution(cfg, self, other, sqrt) == NoTally
  {
    DistanceSpec(self, self, sqrt);
  }

  // ---------------------------------------------------------------------------
  // The scan is a sum over the flock

  /** The scan of a non-empty flock is the scan without its last flockmate plus that
      flockmate's contribution. */
  lemma ScanLast(cfg: Config, self: Vec, s: seq<Mate>, sqrt: real -> real)
    requires s != []
    ensures Scan(cfg, self, s, sqrt)
         == Plus(Scan(cfg, self, s[..|s| - 1], sqrt), Contribution(cfg, self, s[|s| - 1], sqrt))
  {
  }

  /** Scanning two parts of a flock one after the other adds their tallies. */
  lemma {:induction false} ScanConcat(cfg: Config, self: Vec, a: seq<Mate>, b: seq<Mate>,
                                      sqrt: real -> real)
    ensures Scan(cfg, self, a + b, sqrt) == Plus(Scan(cfg, self, a, sqrt), Scan(cfg, self, b, sqrt))
    decreases |b|
  {
    if b == [] {
      assert a + b == a;
      PlusNoTally(Scan(cfg, self, a, sqrt));
    } else {
      var init, last := b[..|b| - 1], b[|b| - 1];
      var c := Contribution(cfg, self, last, sqrt);
      var ab := a + b;
      ScanLast(cfg, self, ab, sqrt);
      ScanLast(cfg, self, b, sqrt);
      assert ab[..|ab| - 1] == a + init;
      assert ab[|ab| - 1] == last;
      ScanConcat(cfg, self, a, init, sqrt);
      PlusAssociative(Scan(cfg, self, a, sqrt), Scan(cfg, self, init, sqrt), c);
    }
  }

  lemma PlusAssociative(a: Tally, b: Tally, c: Tally)
    ensures Plus(Plus(a, b), c) == Plus(a, Plus(b, c))
  {
  }

  /** One more iteration of the loop of `Steer` adds one flockmate's contribution. */
  lemma ScanStep(cfg: Config, self: Vec, mates: seq<Mate>, k: nat, sqrt: real -> real)
    requires k < |mates|
    ensures Scan(cfg, self, mates[..k + 1], sqrt)
         == Plus(Scan(cfg, self, mates[..k], sqrt), Contribution(cfg, self, mates[k], sqrt))
  {
    assert mates[..k + 1][..k] == mates[..k];
  }

  lemma ScanSingle(cfg: Config, self: Vec, m: Mate, sqrt: real -> real)
    ensures Scan(cfg, self, [m], sqrt) == Contribution(cfg, self, m, sqrt)
  {
    assert [m][..0] == [];
  }

  lemma PlusNoTally(t: Tally)
    ensures Plus(t, NoTally) == t && Plus(NoTally, t) == t
  {
  }

  lemma PlusSwap(a: Tally, b: Tally, c: Tally)
    ensures Plus(Plus(a, b), c) == Plus(Plus(a, c), b)
  {
  }

  /** Scanning a flock with one flockmate taken out of the middle, then adding that
      flockmate's contribution, is scanning the whole flock. */
  lemma ScanRemove(cfg: Config, self: Vec, pre: seq<Mate>, x: Mate, suf: seq<Mate>,
                   sqrt: real -> real)
    ensures Scan(cfg, self, pre + [x] + suf, sqrt)
         == Plus(Scan(cfg, self, pre + suf, sqrt), Contribution(cfg, self, x, sqrt))
  {
    var p, c, q := Scan(cfg, self, pre, sqrt), Contribution(cfg, self, x, sqrt),
                   Scan(cfg, self, suf, sqrt);
    ScanConcat(cfg, self, pre + [x], suf, sqrt);
    ScanConcat(cfg, self, pre, [x], sqrt);
    ScanSingle(cfg, self, x, sqrt);
    ScanConcat(cfg, self, pre, suf, sqrt);
    PlusSwap(p, c, q);
  }

  /** Self-exclusion: inserting the boid itself (or any flockmate at its position)
      anywhere in the flock changes nothing the scan computes. */
  lemma SelfExcluded(cfg: Config, self: Vec, a: seq<Mate>, b: seq<Mate>, other: Mate,
                     sqrt: real -> real)
    requires SqrtSound(sqrt)
    requires other.position == self
    ensures Scan(cfg, self, a + [other] + b, sqrt) == Scan(cfg, self, a + b, sqrt)
  {
    ScanRemove(cfg, self, a, other, b, sqrt);
    CoincidentIgnored(cfg, self, other, sqrt);
    PlusNoTally(Scan(cfg, self, a + b, sqrt));
  }

  /** Order independence of the scan: any rearrangement of the flock gives the same
      count and the same sums. */
  lemma {:induction false} ScanPermutation(cfg: Config, self: Vec, a: seq<Mate>, b: seq<Mate>,
                                           sqrt: real -> real)
    requires multiset(a) == multiset(b)
    ensures Scan(cfg, self, a, sqrt) == Scan(cfg, self, b, sqrt)
    decreases |a|
  {
    if a == [] {
      assert |b| == |multiset(b)| == 0;
    } else {
      var n := |a|;
      var x := a[n - 1];
      assert a == a[..n - 1] + [x];
      assert x in multiset(b);
      var k :| 0 <= k < |b| && b[k] == x;
      var pre, suf := b[..k], b[k + 1..];
      assert b == pre + [x] + suf;
      assert multiset(a[..n - 1]) == multiset(pre + suf) by {
        assert multiset(a[..n - 1]) == multiset(a) - multiset{x};
        assert multiset(pre + suf) == multiset(b) - multiset{x};
      }
      ScanPermutation(cfg, self, a[..n - 1], pre + suf, sqrt);
      ScanRemove(cfg, self, pre, x, suf, sqrt);
    }
  }

  // ---------------------------------------------------------------------------
  // A reference definition: filter the neighbours, then sum

  /** The flockmates the boid perceives, in flock order. */
  function Neighbours(cfg: Config, self: Vec, mates: seq<Mate>, sqrt: real -> real): (ns: seq<Mate>)
    ensures |ns| <= |mates|
    ensures forall m :: m in ns <==> m in mates && Perceives(cfg, self, m.position, sqrt)
    decreases |mates|
  {
    if mates == [] then []
    else
      var init, last := mates[..|mates| - 1], mates[|mates| - 1];
      assert mates == init + [last];
      Neighbours(cfg, self, init, sqrt)
        + (if Perceives(cfg, self, last.position, sqrt) then [last] else [])
  }

  function SumVelocities(ms: seq<Mate>): Vec
    decreases |ms|
  {
    if ms == [] then Zero else Add(SumVelocities(ms[..|ms| - 1]), ms[|ms| - 1].velocity)
  }

  function SumPositions(ms: seq<Mate>): Vec
    decreases |ms|
  {
    if ms == [] then Zero else Add(SumPositions(ms[..|ms| - 1]), ms[|ms| - 1].position)
  }

  /** The sum of the unit directions pointing from each of `ms` to `self`. */
  function SumAway(self: Vec, ms: seq<Mate>, sqrt: real -> real): Vec
    requires forall m :: m in ms ==> Distance(self, m.position, sqrt) != 0.0
    decreases |ms|
  {
    if ms == [] then Zero
    else
      var last := ms[|ms| - 1];
      assert last in ms;
      Add(SumAway(self, ms[..|ms| - 1], sqrt),
          Div(Sub(self, last.position), Distance(self, last.position, sqrt)))
  }

  /** The scan counts exactly the perceived flockmates and, for each enabled
      behaviour, sums their away-directions, velocities or positions; the
      accumulator of a disabled behaviour stays zero. */
  lemma {:induction false} ScanSums(cfg: Config, self: Vec, mates: seq<Mate>, sqrt: real -> real)
    ensures var t := Scan(cfg, self, mates, sqrt);
            var ns := Neighbours(cfg, self, mates, sqrt);
            t.total == |ns|
            && t.away == (if cfg.separationEnable then SumAway(self, ns, sqrt) else Zero)
            && t.velocities == (if cfg.alignmentEnable then SumVelocities(ns) else Zero)
            && t.positions == (if cfg.cohesionEnable then SumPositions(ns) else Zero)
    decreases |mates|
  {
    if mates != [] {
      var init, last := mates[..|mates| - 1], mates[|mates| - 1];
      ScanSums(cfg, self, init, sqrt);
      var ns0 := Neighbours(cfg, self, init, sqrt);
      if Perceives(cfg, self, last.position, sqrt) {
        var ns := ns0 + [last];
        assert Neighbours(cfg, self, mates, sqrt) == ns;
        assert ns[..|ns| - 1] == ns0 && ns[|ns| - 1] == last;
        assert Contribution(cfg, self, last, sqrt).total == 1;
      } else {
        assert Neighbours(cfg, self, mates, sqrt) == ns0;
        assert Contribution(cfg, self, last, sqrt) == NoTally;
      }
    }
  }

  /** When no flockmate is perceived the scan finds nothing. */
  lemma {:induction false} NothingPerceived(cfg: Config, self: Vec, mates: seq<Mate>, sqrt: real -> real)
    requires forall k :: 0 <= k < |mates| ==> !Perceives(cfg, self, mates[k].position, sqrt)
    ensures Scan(cfg, self, mates, sqrt).total == 0
    decreases |mates|
  {
    if mates != [] {
      NothingPerceived(cfg, self, mates[..|mates| - 1], sqrt);
    }
  }

  // ---------------------------------------------------------------------------
  // Steer

  /** Means: when some flockmate is perceived, `averageVelocity` and `averagePosition`
      are the means of the perceived flockmates' velocities and positions and
      `positionDifference` the mean of their away-directions (zero for a disabled
      behaviour, whose accumulator is never added to). */
  lemma SteeredMeans(s: BoidState, mates: seq<Mate>, sqrt: real -> real,
                     pow: (real, real) -> real)
    requires CenterDefined(s, sqrt)
    ensures var r := Steered(s, mates, sqrt, pow);
            var ns := Neighbours(s.cfg, s.position, mates, sqrt);
            |ns| > 0 ==>
              var n := |ns| as real;
              r.positionDifference
                == (if s.cfg.separationEnable then Div(SumAway(s.position, ns, sqrt), n) else Zero)
              && r.averageVelocity
                == (if s.cfg.alignmentEnable then Div(SumVelocities(ns), n) else Zero)
              && r.averagePosition
                == (if s.cfg.cohesionEnable then Div(SumPositions(ns), n) else Zero)
  {
    var t := Scan(s.cfg, s.position, mates, sqrt);
    ScanSums(s.cfg, s.position, mates, sqrt);
    if t.total > 0 {
      DivZero(t.total as real);
    }
  }

  /** No-neighbour cancellation: with no flockmate perceived the aggregates fall back
      to the boid's own velocity and position, so every enabled separation, alignment
      and cohesion vector is exactly zero. */
  lemma NoNeighbourCancellation(s: BoidState, mates: seq<Mate>, sqrt: real -> real,
                                pow: (real, real) -> real)
    requires CenterDefined(s, sqrt)
    requires forall k :: 0 <= k < |mates| ==> !Perceives(s.cfg, s.position, mates[k].position, sqrt)
    ensures var r := Steered(s, mates, sqrt, pow);
            r.positionDifference == s.velocity && r.averageVelocity == s.velocity
            && r.averagePosition == s.position
            && (s.cfg.separationEnable ==> r.separation == Zero)
            && (s.cfg.alignmentEnable ==> r.alignment == Zero)
            && (s.cfg.cohesionEnable ==> r.cohesion == Zero)
  {
    NothingPerceived(s.cfg, s.position, mates, sqrt);
  }

  /** Stale caches: a disabled behaviour keeps the vector it had before `Steer`. */
  lemma StaleWhenDisabled(s: BoidState, mates: seq<Mate>, sqrt: real -> real,
                          pow: (real, real) -> real)
    requires CenterDefined(s, sqrt)
    ensures var r := Steered(s, mates, sqrt, pow);
            (!s.cfg.separationEnable ==> r.separation == s.separation)
            && (!s.cfg.alignmentEnable ==> r.alignment == s.alignment)
            && (!s.cfg.cohesionEnable ==> r.cohesion == s.cohesion)
            && (!s.cfg.centerEnable ==> r.center == s.center)
  {
  }

  /** Order independence of `Steer`: the outputs depend on the flock only as a
      multiset. */
  lemma SteeredOrderIndependent(s: BoidState, a: seq<Mate>, b: seq<Mate>, sqrt: real -> real,
                                pow: (real, real) -> real)
    requires CenterDefined(s, sqrt)
    requires multiset(a) == multiset(b)
    ensures Steered(s, a, sqrt, pow) == Steered(s, b, sqrt, pow)
  {
    ScanPermutation(s.cfg, s.position, a, b, sqrt);
  }

  /** Steering twice against the same flock gives what steering once does: `Steer`
      reads of the boid only what it does not write. */
  lemma SteeredIdempotent(s: BoidState, mates: seq<Mate>, sqrt: real -> real,
                          pow: (real, real) -> real)
    requires CenterDefined(s, sqrt)
    ensures CenterDefined(Steered(s, mates, sqrt, pow), sqrt)
    ensures Steered(Steered(s, mates, sqrt, pow), mates, sqrt, pow) == Steered(s, mates, sqrt, pow)
  {
  }

  /** A flock of the boid itself and one other flockmate, in either order, counts
      what that flockmate contributes. */
  lemma PairScan(cfg: Config, me: Mate, other: Mate, sqrt: real -> real)
    requires SqrtSound(sqrt)
    ensures Scan(cfg, me.position, [me, other], sqrt) == Contribution(cfg, me.position, other, sqrt)
    ensures Scan(cfg, me.position, [other, me], sqrt) == Contribution(cfg, me.position, other, sqrt)
  {
    CoincidentIgnored(cfg, me.position, me, sqrt);
    PairScanOf(cfg, me, other, sqrt);
  }

  lemma PairScanOf(cfg: Config, me: Mate, other: Mate, sqrt: real -> real)
    requires Contribution(cfg, me.position, me, sqrt) == NoTally
    ensures Scan(cfg, me.position, [me, other], sqrt) == Contribution(cfg, me.position, other, sqrt)
    ensures Scan(cfg, me.position, [other, me], sqrt) == Contribution(cfg, me.position, other, sqrt)
  {
    var c := Contribution(cfg, me.position, other, sqrt);
    PlusNoTally(c);
    assert [me, other] == [me] + [other];
    assert [other, me] == [other] + [me];
    ScanConcat(cfg, me.position, [me], [other], sqrt);
    ScanConcat(cfg, me.position, [other], [me], sqrt);
    ScanSingle(cfg, me.position, me, sqrt);
    ScanSingle(cfg, me.position, other, sqrt);
  }

  lemma AxisDistance(d: real, sqrt: real -> real)
    requires SqrtSound(sqrt)
    requires 0.0 < d
    ensures Distance(Vec(0.0, 0.0), Vec(d, 0.0), sqrt) == d
    ensures Distance(Vec(d, 0.0), Vec(0.0, 0.0), sqrt) == d
  {
    assert SquaredLength(Vec(d, 0.0)) == d * d;
    SqrtUnique(sqrt, d * d, d);
    DistanceSpec(Vec(0.0, 0.0), Vec(d, 0.0), sqrt);
  }

  /** The away-directions between (0,0) and (d,0), once the distances are known. */
  lemma AxisUnitAt(cfg: Config, d: real, v: Vec, w: Vec, sqrt: real -> real)
    requires cfg.separationEnable
    requires 0.0 < d <= cfg.perceptionRadius
    requires Distance(Vec(0.0, 0.0), Vec(d, 0.0), sqrt) == d
    requires Distance(Vec(d, 0.0), Vec(0.0, 0.0), sqrt) == d
    ensures Contribution(cfg, Vec(0.0, 0.0), Mate(Vec(d, 0.0), v), sqrt).total == 1
    ensures Contribution(cfg, Vec(0.0, 0.0), Mate(Vec(d, 0.0), v), sqrt).away == Vec(-1.0, 0.0)
    ensures Contribution(cfg, Vec(d, 0.0), Mate(Vec(0.0, 0.0), w), sqrt).total == 1
    ensures Contribution(cfg, Vec(d, 0.0), Mate(Vec(0.0, 0.0), w), sqrt).away == Vec(1.0, 0.0)
  {
  }

  /** Two boids `d` apart on the x axis, within range, each perceive the other, and
      each away-direction is a unit vector along the axis, pointing away from the
      other boid: (-1,0) for the boid at the origin, (1,0) for the one at (d,0). */
  lemma AxisUnit(cfg: Config, d: real, v: Vec, w: Vec, sqrt: real -> real)
    requires SqrtSound(sqrt)
    requires cfg.separationEnable
    requires 0.0 < d <= cfg.perceptionRadius
    ensures Contribution(cfg, Vec(0.0, 0.0), Mate(Vec(d, 0.0), v), sqrt).total == 1
    ensures Contribution(cfg, Vec(0.0, 0.0), Mate(Vec(d, 0.0), v), sqrt).away == Vec(-1.0, 0.0)
    ensures Contribution(cfg, Vec(d, 0.0), Mate(Vec(0.0, 0.0), w), sqrt).total == 1
    ensures Contribution(cfg, Vec(d, 0.0), Mate(Vec(0.0, 0.0), w), sqrt).away == Vec(1.0, 0.0)
  {
    AxisDistance(d, sqrt);
    AxisUnitAt(cfg, d, v, w, sqrt);
  }

  /** With exactly one flockmate perceived, an enabled separation is that
      flockmate's away-direction minus the boid's velocity. */
  lemma SeparationOfOne(s: BoidState, mates: seq<Mate>, sqrt: real -> real,
                        pow: (real, real) -> real)
    requires CenterDefined(s, sqrt)
    requires s.cfg.separationEnable
    requires Scan(s.cfg, s.position, mates, sqrt).total == 1
    ensures Steered(s, mates, sqrt, pow).separation
         == Sub(Scan(s.cfg, s.position, mates, sqrt).away, s.velocity)
  {
  }

  /** A boid of the scenario below at `p`, heading along +x, with every other vector
      zero. */
  function AtRest(cfg: Config, p: Vec): BoidState {
    BoidState(cfg, p, Vec(1.0, 0.0), Zero, Zero, Zero, Zero, Zero, Zero, Zero, Zero)
  }

  /** The two-boid scenario: boids at (0,0) and (d,0), both heading along +x, with
      `0 < d <= perceptionRadius`. The left boid's separation is (-2,0) and the right
      boid's is zero, whatever `d` is: each away-direction is a unit vector. */
  lemma TwoBoidSeparation(cfg: Config, d: real, sqrt: real -> real, pow: (real, real) -> real)
    requires SqrtSound(sqrt)
    requires cfg.separationEnable
    requires 0.0 < d <= cfg.perceptionRadius
    requires CenterDefined(AtRest(cfg, Vec(0.0, 0.0)), sqrt)
    requires CenterDefined(AtRest(cfg, Vec(d, 0.0)), sqrt)
    ensures var left := AtRest(cfg, Vec(0.0, 0.0));
            var right := AtRest(cfg, Vec(d, 0.0));
            var flock := [AsMate(left), AsMate(right)];
            Steered(left, flock, sqrt, pow).separation == Vec(-2.0, 0.0)
            && Steered(right, flock, sqrt, pow).separation == Zero
  {
    AxisDistance(d, sqrt);
    var o, p := Vec(0.0, 0.0), Vec(d, 0.0);
    var v := Vec(1.0, 0.0);
    CoincidentIgnored(cfg, o, Mate(o, v), sqrt);
    CoincidentIgnored(cfg, p, Mate(p, v), sqrt);
    TwoBoidSeparationAt(cfg, d, sqrt, pow);
  }

  /** The scenario once the square root has been evaluated where it is needed. */
  lemma TwoBoidSeparationAt(cfg: Config, d: real, sqrt: real -> real, pow: (real, real) -> real)
    requires cfg.separationEnable
    requires 0.0 < d <= cfg.perceptionRadius
    requires Distance(Vec(0.0, 0.0), Vec(d, 0.0), sqrt) == d
    requires Distance(Vec(d, 0.0), Vec(0.0, 0.0), sqrt) == d
    requires Contribution(cfg, Vec(0.0, 0.0), Mate(Vec(0.0, 0.0), Vec(1.0, 0.0)), sqrt) == NoTally
    requires Contribution(cfg, Vec(d, 0.0), Mate(Vec(d, 0.0), Vec(1.0, 0.0)), sqrt) == NoTally
    requires CenterDefined(AtRest(cfg, Vec(0.0, 0.0)), sqrt)
    requires CenterDefined(AtRest(cfg, Vec(d, 0.0)), sqrt)
    ensures var left := AtRest(cfg, Vec(0.0, 0.0));
            var right := AtRest(cfg, Vec(d, 0.0));
            var flock := [AsMate(left), AsMate(right)];
            Steered(left, flock, sqrt, pow).separation == Vec(-2.0, 0.0)
            && Steered(right, flock, sqrt, pow).separation == Zero
  {
    var left := AtRest(cfg, Vec(0.0, 0.0));
    var right := AtRest(cfg, Vec(d, 0.0));
    var l, r := AsMate(left), AsMate(right);
    AxisUnitAt(cfg, d, left.velocity, right.velocity, sqrt);
    PairScanOf(cfg, l, r, sqrt);
    PairScanOf(cfg, r, l, sqrt);
    SeparationOfOne(left, [l, r], sqrt, pow);
    SeparationOfOne(right, [l, r], sqrt, pow);
  }

  // ---------------------------------------------------------------------------
  // Move

  /** Velocity renormalisation: after `Move` the speed is `dt * moveSpeed`, whatever
      the previous speed was. */
  lemma MovedSpeed(s: BoidState, dt: real, sqrt: real -> real)
    requires SqrtSound(sqrt)
    requires MoveDefined(s, sqrt)
    requires 0.0 <= dt && 0.0 <= s.cfg.moveSpeed
    ensures Magnitude(Moved(s, dt, sqrt).velocity, sqrt) == dt * s.cfg.moveSpeed
  {
    var heading := Normalise(Add(s.velocity, NextAcceleration(s)), sqrt);
    NormaliseUnit(Add(s.velocity, NextAcceleration(s)), sqrt);
    MagnitudeScale(heading, dt, sqrt);
    MagnitudeScale(Scale(heading, dt), s.cfg.moveSpeed, sqrt);
  }

  /** The acceleration is never reset: with every steering vector zero it is the
      previous frame's acceleration damped by `turnSpeed`. */
  lemma AccelerationCarriesOver(s: BoidState)
    requires s.separation == Zero && s.alignment == Zero && s.cohesion == Zero
    requires s.center == Zero
    ensures NextAcceleration(s) == Scale(s.acceleration, s.cfg.turnSpeed)
  {
  }

  // ---------------------------------------------------------------------------
  // The frame step

  /** The induction behind `TwoPhaseIsolation`: while every boid is either untouched
      or already steered against the frame-start flock, the copy each `Steer` call
      receives still shows the frame-start positions and velocities. */
  lemma {:induction false} SteerInOrderFrom(start: seq<BoidState>, flock: seq<BoidState>,
                                            order: seq<nat>, sqrt: real -> real,
                                            pow: (real, real) -> real)
    requires AllCenterDefined(start, sqrt) && AllCenterDefined(flock, sqrt)
    requires |flock| == |start|
    requires forall k :: 0 <= k < |order| ==> order[k] < |flock|
    requires forall i :: 0 <= i < |flock| ==>
               flock[i] == start[i] || flock[i] == Steered(start[i], Snapshot(start), sqrt, pow)
    ensures var r := SteerInOrder(flock, order, sqrt, pow);
            |r| == |flock|
            && forall i :: 0 <= i < |r| ==>
                 r[i] == if i in order then Steered(start[i], Snapshot(start), sqrt, pow) else flock[i]
    decreases |order|
  {
    if order != [] {
      var i := order[0];
      assert Snapshot(flock) == Snapshot(start);
      var steered := Steered(start[i], Snapshot(start), sqrt, pow);
      SteeredIdempotent(start[i], Snapshot(start), sqrt, pow);
      assert Steered(flock[i], Snapshot(flock), sqrt, pow) == steered;
      var next := flock[i := steered];
      SteerInOrderFrom(start, next, order[1..], sqrt, pow);
      forall j | 0 <= j < |flock|
        ensures j in order <==> j == i || j in order[1..]
      {
        assert order == [i] + order[1..];
      }
    }
  }

  /** Two-phase isolation: however the steering loop orders its visits, as long as it
      visits every boid, each boid ends up steered against the positions and
      velocities the flock had at the start of the frame. */
  lemma {:induction false} TwoPhaseIsolation(flock: seq<BoidState>, order: seq<nat>, sqrt: real -> real,
                          pow: (real, real) -> real)
    requires AllCenterDefined(flock, sqrt)
    requires forall k :: 0 <= k < |order| ==> order[k] < |flock|
    requires forall i :: 0 <= i < |flock| ==> i in order
    ensures SteerInOrder(flock, order, sqrt, pow) == SteerAll(flock, sqrt, pow)
  {
    SteerInOrderFrom(flock, flock, order, sqrt, pow);
  }

  /** In particular for the order in which `main` visits the flock. */
  lemma MainLoopIsolated(flock: seq<BoidState>, sqrt: real -> real, pow: (real, real) -> real)
    requires AllCenterDefined(flock, sqrt)
    ensures SteerInOrder(flock, Indices(|flock|), sqrt, pow) == SteerAll(flock, sqrt, pow)
  {
    var order := Indices(|flock|);
    forall i | 0 <= i < |flock|
      ensures i in order
    {
      assert order[i] == i;
    }
    TwoPhaseIsolation(flock, order, sqrt, pow);
  }
}
