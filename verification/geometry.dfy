/**
 Bearing arithmetic of the street classifier in app.py: the bearing of a
 node pair folded into [0, 180) with Python's float `%`, and the "almost
 orthogonal street" test `es_recta`.

 `math.degrees(math.atan2(dy, dx))` is not computed here: it is a parameter
 `f` of type `Atan2`, and `IsAtan2Degrees(f)` lists the facts about it that
 the model relies on.
 */
module Geometry {

  /** A node position as osmnx stores it: `x` is the longitude, `y` the latitude. */
  datatype Coord = Coord(x: real, y: real)

  /** `math.degrees(math.atan2(dy, dx))`, arguments in that order. */
  type Atan2 = (real, real) -> real

  function Abs(r: real): real {
    if r < 0.0 then -r else r
  }

  function Min(a: real, b: real): real {
    if a <= b then a else b
  }

  /** `k` whole half-turns of 180 degrees. */
  function HalfTurns(k: int): real {
    (k as real) * 180.0
  }

  /** `a` differs from zero by a whole number of half-turns. */
  ghost predicate IsHalfTurnMultiple(a: real) {
    exists k: int :: a == HalfTurns(k)
  }

  /**
   Python's float remainder `a % 180`: the result takes the sign of the
   divisor, so it always lies in [0, 180).
   */
  function Mod180(a: real): (r: real)
    ensures 0.0 <= r < 180.0
    ensures IsHalfTurnMultiple(a - r)
  {
    var q := (a / 180.0).Floor;
    assert a - (a - 180.0 * (q as real)) == HalfTurns(q);
    a - 180.0 * (q as real)
  }

  /** The remainder is the only value in [0, 180) that differs from `a` by whole half-turns. */
  lemma Mod180Unique(a: real, r: real, k: int)
    requires 0.0 <= r < 180.0
    requires a == r + HalfTurns(k)
    ensures Mod180(a) == r
  {
    var kr := k as real;
    assert a == r + kr * 180.0;
    assert a / 180.0 == r / 180.0 + kr;
    assert 0.0 <= r / 180.0 < 1.0;
    assert (a / 180.0).Floor == k;
  }

  /** Turning a bearing by half a turn either way does not change its remainder. */
  lemma Mod180Shift(a: real)
    ensures Mod180(a + 180.0) == Mod180(a)
    ensures Mod180(a - 180.0) == Mod180(a)
  {
    var r := Mod180(a);
    var k: int :| a - r == HalfTurns(k);
    Mod180Unique(a + 180.0, r, k + 1);
    Mod180Unique(a - 180.0, r, k - 1);
  }

  /** The direction opposite to a bearing in (-180, 180], kept in that range. */
  function Opposite(d: real): real {
    if d > 0.0 then d - 180.0 else d + 180.0
  }

  /**
   What the model assumes of `math.degrees(math.atan2(y, x))`: values in
   (-180, 180]; 0 at the origin and due east, 180 due west, 90 due north,
   -90 due south; and reversing the vector turns the bearing by 180 degrees.
   */
  ghost predicate IsAtan2Degrees(f: Atan2) {
    && (forall y: real, x: real :: -180.0 < f(y, x) <= 180.0)
    && f(0.0, 0.0) == 0.0
    && (forall x: real :: x > 0.0 ==> f(0.0, x) == 0.0)
    && (forall x: real :: x < 0.0 ==> f(0.0, x) == 180.0)
    && (forall y: real :: y > 0.0 ==> f(y, 0.0) == 90.0)
    && (forall y: real :: y < 0.0 ==> f(y, 0.0) == -90.0)
    && (forall y: real, x: real :: y != 0.0 || x != 0.0 ==> f(-y, -x) == Opposite(f(y, x)))
  }

  /** `angulo(u, v)`: the bearing from `p` to `q`, folded into [0, 180) by `% 180`. */
  function Angle(f: Atan2, p: Coord, q: Coord): (r: real)
    ensures 0.0 <= r < 180.0
    ensures IsHalfTurnMultiple(f(q.y - p.y, q.x - p.x) - r)
  {
    Mod180(f(q.y - p.y, q.x - p.x))
  }

  /** How far a folded bearing is from the nearest of 0, 90 and 180 degrees. */
  function AxisGap(a: real): real {
    Min(Min(Abs(a), Abs(a - 90.0)), Abs(a - 180.0))
  }

  /**
   `es_recta(u, v, tolerancia_angulo, tolerancia_dist)`: an east-west street
   (bearing within `angleTol` of 0 or 180) whose latitudes differ by at most
   `distTol`, or a north-south street (bearing within `angleTol` of 90) whose
   longitudes differ by at most `distTol`. All comparisons are inclusive.
   */
  predicate EsRecta(f: Atan2, p: Coord, q: Coord, angleTol: real, distTol: real)
    ensures EsRecta(f, p, q, angleTol, distTol) ==> AxisGap(Angle(f, p, q)) <= angleTol
    ensures EsRecta(f, p, q, angleTol, distTol) ==> Abs(p.y - q.y) <= distTol || Abs(p.x - q.x) <= distTol
  {
    var ang := Angle(f, p, q);
    || ((Abs(ang - 0.0) <= angleTol || Abs(ang - 180.0) <= angleTol) && Abs(p.y - q.y) <= distTol)
    || (Abs(ang - 90.0) <= angleTol && Abs(p.x - q.x) <= distTol)
  }

  /**
   Reversing an edge does not change its folded bearing: the raw bearing
   turns by 180 degrees, which `% 180` erases.
   */
  lemma AngleSymmetric(f: Atan2, p: Coord, q: Coord)
    requires IsAtan2Degrees(f)
    ensures Angle(f, q, p) == Angle(f, p, q)
  {
    var dy, dx := q.y - p.y, q.x - p.x;
    assert p.y - q.y == -dy && p.x - q.x == -dx;
    if dy != 0.0 || dx != 0.0 {
      var b := f(dy, dx);
      assert f(-dy, -dx) == Opposite(b);
      Mod180Shift(b);
    }
  }

  /** `es_recta(u, v) == es_recta(v, u)` for every pair of tolerances. */
  lemma EsRectaSymmetric(f: Atan2, p: Coord, q: Coord, angleTol: real, distTol: real)
    requires IsAtan2Degrees(f)
    ensures EsRecta(f, p, q, angleTol, distTol) == EsRecta(f, q, p, angleTol, distTol)
  {
    AngleSymmetric(f, p, q);
    assert Abs(p.y - q.y) == Abs(q.y - p.y);
    assert Abs(p.x - q.x) == Abs(q.x - p.x);
  }

  /** Loosening either tolerance never rejects an edge that was accepted. */
  lemma EsRectaMonotone(f: Atan2, p: Coord, q: Coord, angleTol: real, distTol: real, angleTol': real, distTol': real)
    requires angleTol <= angleTol' && distTol <= distTol'
    ensures EsRecta(f, p, q, angleTol, distTol) ==> EsRecta(f, p, q, angleTol', distTol')
  {
  }

  /** An edge running due east or due west (or of zero length) passes for any non-negative tolerances. */
  lemma EastWestStreetAccepted(f: Atan2, p: Coord, q: Coord, angleTol: real, distTol: real)
    requires IsAtan2Degrees(f)
    requires p.y == q.y
    requires angleTol >= 0.0 && distTol >= 0.0
    ensures EsRecta(f, p, q, angleTol, distTol)
  {
    Mod180Unique(0.0, 0.0, 0);
    Mod180Unique(180.0, 0.0, 1);
    assert Angle(f, p, q) == 0.0;
  }

  /** An edge running due north or due south passes for any non-negative tolerances. */
  lemma NorthSouthStreetAccepted(f: Atan2, p: Coord, q: Coord, angleTol: real, distTol: real)
    requires IsAtan2Degrees(f)
    requires p.x == q.x && p.y != q.y
    requires angleTol >= 0.0 && distTol >= 0.0
    ensures EsRecta(f, p, q, angleTol, distTol)
  {
    Mod180Unique(90.0, 90.0, 0);
    Mod180Unique(-90.0, 90.0, -1);
    assert Angle(f, p, q) == 90.0;
  }

  /** Inside the east-west band only (away from 90), the edge is kept exactly when its latitudes are close. */
  lemma EastWestBand(f: Atan2, p: Coord, q: Coord, angleTol: real, distTol: real)
    requires var a := Angle(f, p, q); (Abs(a) <= angleTol || Abs(a - 180.0) <= angleTol) && Abs(a - 90.0) > angleTol
    ensures EsRecta(f, p, q, angleTol, distTol) <==> Abs(p.y - q.y) <= distTol
  {
  }

  /** Inside the north-south band only (away from 0 and 180), the edge is kept exactly when its longitudes are close. */
  lemma NorthSouthBand(f: Atan2, p: Coord, q: Coord, angleTol: real, distTol: real)
    requires var a := Angle(f, p, q); Abs(a - 90.0) <= angleTol && Abs(a) > angleTol && Abs(a - 180.0) > angleTol
    ensures EsRecta(f, p, q, angleTol, distTol) <==> Abs(p.x - q.x) <= distTol
  {
  }

  /**
   When neither coordinate spreads by more than the distance tolerance (with
   the default of 9 degrees, any street shorter than about 1000 km), only
   the bearing decides: the edge is kept exactly when it lies within the
   angle tolerance of an axis.
   */
  lemma ShortStreetsAngleOnly(f: Atan2, p: Coord, q: Coord, angleTol: real, distTol: real)
    requires Abs(p.y - q.y) <= distTol && Abs(p.x - q.x) <= distTol
    ensures EsRecta(f, p, q, angleTol, distTol) <==> AxisGap(Angle(f, p, q)) <= angleTol
  {
  }

  /** With the default tolerances a 45-degree street is rejected, whatever its length. */
  lemma DiagonalRejected(f: Atan2, p: Coord, q: Coord)
    requires Angle(f, p, q) == 45.0
    ensures !EsRecta(f, p, q, 9.0, 9.0)
  {
  }

  /** The same for the raw bearing: a street heading north-east or south-west is rejected. */
  lemma DiagonalBearingRejected(f: Atan2, p: Coord, q: Coord)
    requires f(q.y - p.y, q.x - p.x) == 45.0 || f(q.y - p.y, q.x - p.x) == -135.0
    ensures !EsRecta(f, p, q, 9.0, 9.0)
  {
    var b := f(q.y - p.y, q.x - p.x);
    if b == 45.0 {
      Mod180Unique(b, 45.0, 0);
    } else {
      Mod180Unique(b, 45.0, -1);
    }
    DiagonalRejected(f, p, q);
  }

  /**
   A coarse stand-in for `atan2` in degrees that only distinguishes the
   four half-planes: it is not the real function, but it has every property
   `IsAtan2Degrees` asks for, which shows those assumptions are consistent.
   */
  function CoarseDegrees(y: real, x: real): real {
    if y > 0.0 then 90.0
    else if y < 0.0 then -90.0
    else if x < 0.0 then 180.0
    else 0.0
  }

  /** `CoarseDegrees` meets every assumption the model makes about `atan2`. */
  lemma CoarseIsAtan2Degrees()
    ensures IsAtan2Degrees(CoarseDegrees)
  {
  }
}
