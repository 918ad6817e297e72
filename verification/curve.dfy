/** The link curve: a cubic Hermite polyline between two points with fixed horizontal tangents. */
module Curve {
  import opened Geometry

  /** Sample count used for every committed link and for the live drag preview. */
  const LinkSteps: nat := 12

  /** Both end tangents point right, whatever the relative placement of the endpoints. */
  const Tangent := Vec2(80.0, 0.0)

  function H1(t: real): real { 2.0 * t * t * t - 3.0 * t * t + 1.0 }
  function H2(t: real): real { -2.0 * t * t * t + 3.0 * t * t }
  function H3(t: real): real { t * t * t - 2.0 * t * t + t }
  function H4(t: real): real { t * t * t - t * t }

  /** The curve's point at parameter `t`. */
  function CurvePoint(p1: Vec2, p2: Vec2, t: real): Vec2 {
    Vec2(H1(t) * p1.x + H2(t) * p2.x + H3(t) * Tangent.x + H4(t) * Tangent.x,
         H1(t) * p1.y + H2(t) * p2.y + H3(t) * Tangent.y + H4(t) * Tangent.y)
  }

  /** The polyline handed to the path stroker: `steps + 1` samples at t = step/steps, starting
      exactly at `p1` and ending exactly at `p2`. */
  function Hermite(p1: Vec2, p2: Vec2, steps: nat): (r: seq<Vec2>)
    requires steps >= 1
    ensures |r| == steps + 1
    ensures r[0] == p1 && r[steps] == p2
  {
    var r := seq(steps + 1, k requires 0 <= k <= steps => CurvePoint(p1, p2, k as real / steps as real));
    DivSelf(steps as real);
    r
  }

  lemma DivSelf(s: real)
    requires s > 0.0
    ensures s / s == 1.0
  {
  }

  lemma DivHalf(m: real)
    requires m > 0.0
    ensures m / (2.0 * m) == 0.5
  {
  }

  /** The two point weights sum to one at every parameter. */
  lemma WeightsPartitionUnity(t: real)
    ensures H1(t) + H2(t) == 1.0
  {
  }

  /** Both tangents are horizontal, so a link between two points at the same height is drawn
      as a flat line at that height. */
  lemma FlatLinkStaysFlat(p1: Vec2, p2: Vec2, steps: nat)
    requires steps >= 1 && p1.y == p2.y
    ensures forall k :: 0 <= k < |Hermite(p1, p2, steps)| ==> Hermite(p1, p2, steps)[k].y == p1.y
  {
    var r := Hermite(p1, p2, steps);
    forall k | 0 <= k < |r|
      ensures r[k].y == p1.y
    {
      FlatPoint(p1, p2, k as real / steps as real);
    }
  }

  /** A single curve point between two points at the same height lies at that height. */
  lemma FlatPoint(p1: Vec2, p2: Vec2, t: real)
    requires p1.y == p2.y
    ensures CurvePoint(p1, p2, t).y == p1.y
  {
    var a, b := H1(t), H2(t);
    WeightsPartitionUnity(t);
    assert CurvePoint(p1, p2, t).y == a * p1.y + b * p1.y;
    assert a * p1.y + b * p1.y == (a + b) * p1.y;
  }

  /** With an even sample count the middle sample is the midpoint of the chord: the two equal
      tangents cancel at t = 1/2. */
  lemma MiddleSampleOnChord(p1: Vec2, p2: Vec2, steps: nat)
    requires steps >= 2 && steps % 2 == 0
    ensures Hermite(p1, p2, steps)[steps / 2] == Vec2((p1.x + p2.x) / 2.0, (p1.y + p2.y) / 2.0)
  {
    var m := (steps / 2) as real;
    assert steps as real == 2.0 * m;
    DivHalf(m);
    assert H1(0.5) == 0.5 && H2(0.5) == 0.5 && H3(0.5) + H4(0.5) == 0.0;
  }

  /** From (0,0) to (100,0) in four steps: five samples, the ends exact, the middle on the
      chord, and the first quarter sample short of the straight line's 25, since the 80-unit
      tangents are shorter than the 100-unit chord. */
  lemma FourStepExample()
    ensures var r := Hermite(Origin, Vec2(100.0, 0.0), 4);
            && |r| == 5
            && r[0] == Origin && r[4] == Vec2(100.0, 0.0)
            && r[2] == Vec2(50.0, 0.0)
            && r[1] == Vec2(23.125, 0.0)
  {
    MiddleSampleOnChord(Origin, Vec2(100.0, 0.0), 4);
    assert 1 as real / 4 as real == 0.25;
  }
}
