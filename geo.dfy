/**
  Route length over a sequence of positions. The great-circle distance
  (haversine, Earth radius 6 371 000 m) is a parameter `dist`: its
  floating-point formula is not part of this model.
 */
module Geo {

  /** A coordinate pair in decimal degrees. */
  datatype Position = Position(lat: real, lon: real)

  /** A distance between two positions, in meters. */
  type Metric = (Position, Position) -> real

  /** The length of the path through `ps` in order, built leg by leg from the front. */
  function PathLength(ps: seq<Position>, dist: Metric): real
    decreases |ps|
  {
    if |ps| < 2 then 0.0
    else PathLength(ps[..|ps| - 1], dist) + dist(ps[|ps| - 2], ps[|ps| - 1])
  }

  /** The legs of the path: leg `i` joins position `i` to position `i + 1`. */
  function Legs(ps: seq<Position>, dist: Metric): seq<real> {
    if |ps| < 2 then []
    else seq(|ps| - 1, i requires 0 <= i < |ps| - 1 => dist(ps[i], ps[i + 1]))
  }

  function Sum(xs: seq<real>): real {
    if xs == [] then 0.0 else xs[0] + Sum(xs[1..])
  }

  lemma {:induction false} SumSnoc(xs: seq<real>, x: real)
    ensures Sum(xs + [x]) == Sum(xs) + x
  {
    if xs == [] {
      assert [] + [x] == [x];
    } else {
      assert (xs + [x])[1..] == xs[1..] + [x];
      SumSnoc(xs[1..], x);
    }
  }

  /** The path length is the sum, over i = 1 .. n-1, of dist(ps[i-1], ps[i]). */
  lemma {:induction false} PathLengthIsSumOfLegs(ps: seq<Position>, dist: Metric)
    ensures PathLength(ps, dist) == Sum(Legs(ps, dist))
  {
    if |ps| >= 2 {
      var init := ps[..|ps| - 1];
      PathLengthIsSumOfLegs(init, dist);
      if |init| < 2 {
        assert Legs(ps, dist) == [dist(ps[0], ps[1])];
        assert Legs(ps, dist)[1..] == [];
      } else {
        assert Legs(ps, dist) == Legs(init, dist) + [dist(ps[|ps| - 2], ps[|ps| - 1])];
        SumSnoc(Legs(init, dist), dist(ps[|ps| - 2], ps[|ps| - 1]));
      }
    }
  }

  /** Joining two paths adds exactly one leg, from the last position of the first to the first of the second. */
  lemma {:induction false} PathLengthAppend(a: seq<Position>, b: seq<Position>, dist: Metric)
    requires a != [] && b != []
    ensures PathLength(a + b, dist) == PathLength(a, dist) + dist(a[|a| - 1], b[0]) + PathLength(b, dist)
    decreases |b|
  {
    if |b| == 1 {
      assert (a + b)[..|a + b| - 1] == a;
    } else {
      var b' := b[..|b| - 1];
      PathLengthAppend(a, b', dist);
      assert (a + b)[..|a + b| - 1] == a + b';
      assert b'[0] == b[0];
    }
  }

  /** With a distance that is never negative (as haversine's is), the route length is never negative. */
  lemma {:induction false} PathLengthNonNegative(ps: seq<Position>, dist: Metric)
    requires forall p, q :: dist(p, q) >= 0.0
    ensures PathLength(ps, dist) >= 0.0
    decreases |ps|
  {
    if |ps| >= 2 {
      PathLengthNonNegative(ps[..|ps| - 1], dist);
    }
  }
}
