/** The angle primitive of the trainer: the unsigned angle at a vertex between
    two rays, folded into [0, 180] degrees. */
module Geometry {

  /** An image-plane point (normalised x and y). */
  datatype Point = Point(x: real, y: real)

  /** The bearing of the vector (dx, dy) in degrees, as `atan2(dy, dx)` converted
      from radians. The trigonometry itself is not modelled: a bearing function is
      any total function whose values lie in [-180, 180], the range of atan2. */
  type Bearing = f: (real, real) -> real
    | forall dy: real, dx: real :: -180.0 <= f(dy, dx) <= 180.0
    witness (dy: real, dx: real) => 0.0

  function Abs(x: real): (r: real)
    ensures r >= 0.0 && (r == x || r == -x)
  {
    if x < 0.0 then -x else x
  }

  /** Bearing from `b` to `c` minus bearing from `b` to `a`, in degrees. */
  function RawDifference(a: Point, b: Point, c: Point, atan2: Bearing): (d: real)
    ensures -360.0 <= d <= 360.0
  {
    atan2(c.y - b.y, c.x - b.x) - atan2(a.y - b.y, a.x - b.x)
  }

  /** Absolute value, then a reflex angle (> 180) is replaced by 360 minus it. */
  function Fold(raw: real): real
  {
    var angle := Abs(raw);
    if angle > 180.0 then 360.0 - angle else angle
  }

  /** `calculate_angle(a, b, c)`: the angle at vertex `b`. */
  function Angle(a: Point, b: Point, c: Point, atan2: Bearing): (r: real)
    ensures 0.0 <= r <= 180.0
  {
    FoldRange(RawDifference(a, b, c, atan2));
    Fold(RawDifference(a, b, c, atan2))
  }

  /** Any difference of two bearings folds into [0, 180]; the fold is the
      smaller of the two ways round the circle. */
  lemma FoldRange(raw: real)
    requires -360.0 <= raw <= 360.0
    ensures 0.0 <= Fold(raw) <= 180.0
    ensures Fold(raw) <= Abs(raw) && Fold(raw) <= 360.0 - Abs(raw)
    ensures Fold(raw) == Abs(raw) || Fold(raw) == 360.0 - Abs(raw)
  {
  }

  /** The fold forgets the sign of the difference. */
  lemma FoldEven(raw: real)
    ensures Fold(-raw) == Fold(raw)
  {
  }

  /** The fold does not depend on which way round a full turn the difference
      was taken: shifting it by 360 degrees gives the same angle. */
  lemma FoldFullTurn(raw: real)
    requires -360.0 <= raw <= 0.0
    ensures Fold(raw + 360.0) == Fold(raw)
  {
  }

  /** Swapping the two end points gives the same angle. */
  lemma AngleSymmetric(a: Point, b: Point, c: Point, atan2: Bearing)
    ensures Angle(a, b, c, atan2) == Angle(c, b, a, atan2)
  {
    FoldEven(RawDifference(a, b, c, atan2));
  }

  /** A straight line through the vertex (bearings half a turn apart) measures
      180 degrees, and coinciding bearings measure 0. */
  lemma AngleExtremes(a: Point, b: Point, c: Point, atan2: Bearing)
    ensures Abs(RawDifference(a, b, c, atan2)) == 180.0 ==> Angle(a, b, c, atan2) == 180.0
    ensures RawDifference(a, b, c, atan2) == 0.0 ==> Angle(a, b, c, atan2) == 0.0
    ensures Abs(RawDifference(a, b, c, atan2)) == 360.0 ==> Angle(a, b, c, atan2) == 0.0
  {
  }
}
