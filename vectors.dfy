/** Two-dimensional vectors over the reals, standing in for SFML's `sf::Vector2f`,
    and the geometry helpers of the Boid class: magnitude, normalisation and distance.

    The square root of `<math.h>` cannot be computed here, so every member that needs
    it takes it as a parameter `sqrt`; `SqrtSound(sqrt)` states the only facts the
    proofs rely on. */
module Vectors {

  datatype Vec = Vec(x: real, y: real)

  const Zero: Vec := Vec(0.0, 0.0)

  function Add(a: Vec, b: Vec): Vec { Vec(a.x + b.x, a.y + b.y) }

  function Sub(a: Vec, b: Vec): Vec { Vec(a.x - b.x, a.y - b.y) }

  function Scale(v: Vec, k: real): Vec { Vec(v.x * k, v.y * k) }

  function Div(v: Vec, k: real): Vec
    requires k != 0.0
  {
    Vec(v.x / k, v.y / k)
  }

  /** The square of the Euclidean length of `v`; needs no square root. */
  function SquaredLength(v: Vec): real { v.x * v.x + v.y * v.y }

  /** What the proofs assume of the library square root on non-negative arguments:
      it is non-negative and squares back to its argument. */
  ghost predicate SqrtSound(sqrt: real -> real) {
    forall a :: 0.0 <= a ==> 0.0 <= sqrt(a) && sqrt(a) * sqrt(a) == a
  }

  /** The product of two positive reals is positive. The nonlinear facts below are
      all reduced to this one, with the product passed in as `c`, which keeps each
      of the solver's nonlinear steps small. */
  lemma ProductPositive(a: real, b: real, c: real)
    requires 0.0 < a && 0.0 < b && a * b == c
    ensures 0.0 < c
  {
  }

  lemma ProductNonNegative(a: real, b: real, c: real)
    requires 0.0 <= a && 0.0 <= b && a * b == c
    ensures 0.0 <= c
  {
  }

  lemma SquareSign(a: real, c: real)
    requires a * a == c
    ensures 0.0 <= c
    ensures a != 0.0 ==> 0.0 < c
  {
    if 0.0 < a {
      ProductPositive(a, a, c);
    } else if a < 0.0 {
      assert (-a) * (-a) == c;
      ProductPositive(-a, -a, c);
    }
  }

  /** Dividing the zero vector gives the zero vector. */
  lemma DivZero(k: real)
    requires k != 0.0
    ensures Div(Zero, k) == Zero
  {
  }

  /** Two non-negative reals with equal squares are equal. */
  lemma SquareInjective(s: real, r: real)
    requires 0.0 <= s && 0.0 <= r && s * s == r * r
    ensures s == r
  {
    if r < s {
      assert (s - r) * (s + r) == s * s - r * r;
      ProductPositive(s - r, s + r, (s - r) * (s + r));
    } else if s < r {
      assert (r - s) * (r + s) == r * r - s * s;
      ProductPositive(r - s, r + s, (r - s) * (r + s));
    }
  }

  /** A non-negative square root is unique: a sound `sqrt` returns exactly `r`. */
  lemma SqrtUnique(sqrt: real -> real, a: real, r: real)
    requires SqrtSound(sqrt)
    requires 0.0 <= r && r * r == a
    ensures sqrt(a) == r
  {
    assert 0.0 <= a;
    SquareInjective(sqrt(a), r);
  }

  /** The squared length is non-negative, and positive for every vector but zero. */
  lemma SquaredLengthSign(v: Vec)
    ensures 0.0 <= SquaredLength(v)
    ensures v != Zero ==> 0.0 < SquaredLength(v)
  {
    SquareSign(v.x, v.x * v.x);
    SquareSign(v.y, v.y * v.y);
  }

  /** `Boid::Magnitude`: the Euclidean length of `v`. */
  function Magnitude(v: Vec, sqrt: real -> real): real {
    sqrt(v.x * v.x + v.y * v.y)
  }

  /** The two facts `SqrtSound` states, at one argument. */
  lemma SqrtAt(sqrt: real -> real, a: real)
    requires SqrtSound(sqrt) && 0.0 <= a
    ensures 0.0 <= sqrt(a) && sqrt(a) * sqrt(a) == a
  {
  }

  /** A non-negative root of the squared length is zero exactly for the zero vector. */
  lemma RootOfSquaredLength(v: Vec, m: real)
    requires 0.0 <= m && m * m == SquaredLength(v)
    ensures m == 0.0 <==> v == Zero
  {
    SquaredLengthSign(v);
    SquareSign(m, SquaredLength(v));
  }

  /** With a sound square root, the magnitude is the non-negative root of the
      squared length, and it is zero exactly for the zero vector. */
  lemma MagnitudeSpec(v: Vec, sqrt: real -> real)
    requires SqrtSound(sqrt)
    ensures 0.0 <= Magnitude(v, sqrt)
    ensures Magnitude(v, sqrt) * Magnitude(v, sqrt) == SquaredLength(v)
    ensures Magnitude(v, sqrt) == 0.0 <==> v == Zero
  {
    var m := Magnitude(v, sqrt);
    assert 0.0 <= m && m * m == SquaredLength(v) by {
      SquaredLengthSign(v);
      SqrtAt(sqrt, SquaredLength(v));
    }
    RootOfSquaredLength(v, m);
  }

  /** `Boid::Normalise`: `v` divided by its magnitude. The zero vector, for which the
      source divides by zero, is excluded by the precondition. */
  function Normalise(v: Vec, sqrt: real -> real): (u: Vec)
    requires Magnitude(v, sqrt) != 0.0
    ensures Scale(u, Magnitude(v, sqrt)) == v
  {
    Div(v, Magnitude(v, sqrt))
  }

  lemma CancelPositive(l: real, k: real)
    requires 0.0 < k && l * k == k
    ensures l == 1.0
  {
    if 1.0 < l {
      ProductPositive(l - 1.0, k, (l - 1.0) * k);
    } else if l < 1.0 {
      ProductPositive(1.0 - l, k, (1.0 - l) * k);
    }
  }

  /** Scaling a vector by `m` scales its squared length by `k == m * m`. */
  lemma SquaredLengthScale(u: Vec, m: real, v: Vec, k: real)
    requires Scale(u, m) == v && k == m * m
    ensures SquaredLength(v) == SquaredLength(u) * k
  {
    assert (u.x * m) * (u.x * m) == (u.x * u.x) * k;
    assert (u.y * m) * (u.y * m) == (u.y * u.y) * k;
  }

  /** A normalised vector has unit magnitude. */
  lemma NormaliseUnit(v: Vec, sqrt: real -> real)
    requires SqrtSound(sqrt)
    requires Magnitude(v, sqrt) != 0.0
    ensures Magnitude(Normalise(v, sqrt), sqrt) == 1.0
  {
    var m := Magnitude(v, sqrt);
    var u := Normalise(v, sqrt);
    var k := m * m;
    MagnitudeSpec(v, sqrt);
    assert k == SquaredLength(v);
    SquareSign(m, k);
    SquaredLengthScale(u, m, v, k);
    CancelPositive(SquaredLength(u), k);
    SqrtUnique(sqrt, SquaredLength(u), 1.0);
  }

  /** Scaling by a non-negative factor scales the magnitude by that factor. */
  lemma MagnitudeScale(v: Vec, k: real, sqrt: real -> real)
    requires SqrtSound(sqrt)
    requires 0.0 <= k
    ensures Magnitude(Scale(v, k), sqrt) == k * Magnitude(v, sqrt)
  {
    MagnitudeSpec(v, sqrt);
    var m := Magnitude(v, sqrt);
    var w := Scale(v, k);
    SquaredLengthScale(v, k, w, k * k);
    assert (k * m) * (k * m) == (k * k) * (m * m);
    ProductNonNegative(k, m, k * m);
    SqrtUnique(sqrt, SquaredLength(w), k * m);
  }

  /** `Boid::Distance`: the Euclidean distance from `from` to `to`. The source squares
      each coordinate difference with `pow(…, 2.0f)`; here that is a product. */
  function Distance(from: Vec, to: Vec, sqrt: real -> real): real {
    Magnitude(Sub(to, from), sqrt)
  }

  /** Distance is non-negative, zero exactly between equal points, and the same
      measured in either direction. */
  lemma DistanceSpec(a: Vec, b: Vec, sqrt: real -> real)
    requires SqrtSound(sqrt)
    ensures 0.0 <= Distance(a, b, sqrt)
    ensures Distance(a, b, sqrt) == 0.0 <==> a == b
    ensures Distance(a, b, sqrt) == Distance(b, a, sqrt)
  {
    MagnitudeSpec(Sub(b, a), sqrt);
    assert Sub(b, a) == Scale(Sub(a, b), -1.0);
    SquaredLengthScale(Sub(a, b), -1.0, Sub(b, a), 1.0);
  }
}
