/** The complete IoU (train.py `bbox_ciou`), the localisation score. It
    orders the corners on each axis first, guards its IoU with `1e-9`, and
    subtracts a centre-distance penalty and an aspect-ratio penalty. */
module CompleteIou {
  import opened Numeric
  import opened Geometry

  /** The overlap and distance terms of the CIoU, before the aspect-ratio
      term: the guarded IoU, the squared diagonal of the enclosing box, and
      the squared distance between the centres. */
  datatype CiouTerms = CiouTerms(iou: real, c2: real, p2: real)

  /** The centre of a box lies inside its ordered corners. */
  lemma CentreInside(b: Box)
    ensures Ordered(ToCorners(b)).x0 <= b.x <= Ordered(ToCorners(b)).x1
    ensures Ordered(ToCorners(b)).y0 <= b.y <= Ordered(ToCorners(b)).y1
  {
  }

  /** The IoU inside `bbox_ciou`: areas from the ordered corners and a
      `1e-9` guard on the union, so it is defined for every pair and lies
      in [0, 1). */
  function GuardedIou(ca: Corners, cb: Corners): (r: real)
    requires IsOrdered(ca) && IsOrdered(cb)
    ensures 0.0 <= r < 1.0
  {
    var inter := Intersection(ca, cb);
    var union := Area(ca) + Area(cb) - inter;
    IntersectionWithinAreas(ca, cb);
    DivideBounds(inter, union + Guard, 0.0, 1.0);
    GuardedRatioBelowOne(inter, union);
    inter / (union + Guard)
  }

  /** Squared diagonal of a box (`enclose_c2` for the enclosing box). */
  function Diagonal(e: Corners): (r: real)
    ensures r >= 0.0
  {
    Sq(Width(e)) + Sq(Height(e))
  }

  /** Squared distance between the centres (`p2`); zero exactly when the
      centres coincide. */
  function CentreDistance(a: Box, b: Box): (r: real)
    ensures r >= 0.0
    ensures r == 0.0 <==> a.x == b.x && a.y == b.y
  {
    SqZero(a.x - b.x);
    SqZero(a.y - b.y);
    Sq(a.x - b.x) + Sq(a.y - b.y)
  }

  /** Both centres lie in the enclosing box, so their distance is at most
      its diagonal. */
  lemma CentreDistanceWithinDiagonal(a: Box, b: Box)
    ensures CentreDistance(a, b) <= Diagonal(Enclose(Ordered(ToCorners(a)), Ordered(ToCorners(b))))
  {
    var e := Enclose(Ordered(ToCorners(a)), Ordered(ToCorners(b)));
    CentreInside(a);
    CentreInside(b);
    SqMonotone(a.x - b.x, Width(e));
    SqMonotone(a.y - b.y, Height(e));
  }

  /** Everything `bbox_ciou` computes before the aspect-ratio term. The
      guarded IoU lies in [0, 1) for any signs of w and h, the centre
      distance never exceeds the enclosing diagonal, and the centre
      distance is zero exactly when the centres coincide. */
  function CiouGeometry(a: Box, b: Box): (t: CiouTerms)
    ensures 0.0 <= t.iou < 1.0
    ensures 0.0 <= t.p2 <= t.c2
    ensures t.p2 == 0.0 <==> a.x == b.x && a.y == b.y
  {
    var ca := Ordered(ToCorners(a));
    var cb := Ordered(ToCorners(b));
    CentreDistanceWithinDiagonal(a, b);
    CiouTerms(GuardedIou(ca, cb), Diagonal(Enclose(ca, cb)), CentreDistance(a, b))
  }

  lemma GuardedRatioBelowOne(inter: real, union: real)
    requires 0.0 <= inter <= union
    ensures inter / (union + Guard) < 1.0
  {
    var d := union + Guard;
    var q := inter / d;
    assert q * d == inter;
    assert (1.0 - q) * d == d - inter;
  }

  /** When the first box has positive size the enclosing diagonal is
      positive, so `p2 / enclose_c2` is defined. */
  lemma DiagonalPositive(a: Box, b: Box)
    requires a.w != 0.0
    ensures CiouGeometry(a, b).c2 > 0.0
  {
    var ca := Ordered(ToCorners(a));
    var cb := Ordered(ToCorners(b));
    var e := Enclose(ca, cb);
    assert Width(e) >= Width(ca) == Abs(a.w) > 0.0;
    SqPositive(Width(e));
  }

  /** The aspect-ratio consistency term
      `v = 4 (atan(w1 / (h1 + 1e-9)) - atan(w2 / (h2 + 1e-9)))² / pi²`. */
  function AspectTerm(a: Box, b: Box, t: Transcendentals): (v: real)
    requires Sound(t)
    requires a.h + Guard != 0.0 && b.h + Guard != 0.0
    ensures v >= 0.0
  {
    SqPositive(t.pi);
    var atan1 := t.atan(a.w / (a.h + Guard));
    var atan2 := t.atan(b.w / (b.h + Guard));
    4.0 * Sq(atan1 - atan2) / Sq(t.pi)
  }

  /** The normalised centre distance `p2 / enclose_c2`, in [0, 1]. */
  function DistancePenalty(g: CiouTerms): (r: real)
    requires 0.0 <= g.p2 <= g.c2 && g.c2 != 0.0
    ensures 0.0 <= r <= 1.0
    ensures r == g.p2 / g.c2
  {
    DivideBounds(g.p2, g.c2, 0.0, 1.0);
    g.p2 / g.c2
  }

  /** The aspect-ratio penalty `alpha · v` with `alpha = v / (1 - iou + v)`;
      non-negative when v is and the IoU is below 1. */
  function AspectPenalty(v: real, iou: real): (r: real)
    requires v >= 0.0 && iou < 1.0
    ensures r >= 0.0
  {
    PenaltyNonNegative(v, iou);
    v / (1.0 - iou + v) * v
  }

  /** The complete `bbox_ciou`: IoU minus the normalised centre distance
      minus the aspect-ratio penalty. `atan` and pi are abstract. The source
      guards `w / (h + 1e-9)` but not `p2 / enclose_c2`, so both must be
      non-zero. The penalty is never negative, so the CIoU is at most the
      IoU less the normalised centre distance, and below 1. */
  function Ciou(a: Box, b: Box, t: Transcendentals): (r: real)
    requires Sound(t)
    requires a.h + Guard != 0.0 && b.h + Guard != 0.0
    requires CiouGeometry(a, b).c2 != 0.0
    ensures r <= CiouGeometry(a, b).iou - CiouGeometry(a, b).p2 / CiouGeometry(a, b).c2
    ensures r < 1.0
  {
    var g := CiouGeometry(a, b);
    g.iou - DistancePenalty(g) - AspectPenalty(AspectTerm(a, b, t), g.iou)
  }

  /** `a·v` with `a = v / (1 - iou + v)` is non-negative when v is. */
  lemma PenaltyNonNegative(v: real, iou: real)
    requires v >= 0.0 && iou < 1.0
    ensures 1.0 - iou + v > 0.0
    ensures v / (1.0 - iou + v) * v >= 0.0
  {
    var d := 1.0 - iou + v;
    var alpha := v / d;
    assert alpha * d == v;
    assert alpha >= 0.0;
    MulNonNegative(alpha, v);
  }

  lemma GuardedIouSymmetric(ca: Corners, cb: Corners)
    requires IsOrdered(ca) && IsOrdered(cb)
    ensures GuardedIou(ca, cb) == GuardedIou(cb, ca)
  {
    IntersectionSymmetric(ca, cb);
  }

  lemma CentreDistanceSymmetric(a: Box, b: Box)
    ensures CentreDistance(a, b) == CentreDistance(b, a)
  {
    SqNegate(a.x - b.x);
    SqNegate(a.y - b.y);
    assert -(a.x - b.x) == b.x - a.x;
    assert -(a.y - b.y) == b.y - a.y;
  }

  lemma CiouGeometrySymmetric(a: Box, b: Box)
    ensures CiouGeometry(b, a) == CiouGeometry(a, b)
  {
    var ca := Ordered(ToCorners(a));
    var cb := Ordered(ToCorners(b));
    GuardedIouSymmetric(ca, cb);
    assert Enclose(ca, cb) == Enclose(cb, ca);
    CentreDistanceSymmetric(a, b);
  }

  lemma AspectTermSymmetric(a: Box, b: Box, t: Transcendentals)
    requires Sound(t)
    requires a.h + Guard != 0.0 && b.h + Guard != 0.0
    ensures AspectTerm(b, a, t) == AspectTerm(a, b, t)
  {
    var atan1 := t.atan(a.w / (a.h + Guard));
    var atan2 := t.atan(b.w / (b.h + Guard));
    SqNegate(atan1 - atan2);
    assert -(atan1 - atan2) == atan2 - atan1;
  }

  /** CIoU does not depend on which box comes first. */
  lemma CiouSymmetric(a: Box, b: Box, t: Transcendentals)
    requires Sound(t)
    requires a.h + Guard != 0.0 && b.h + Guard != 0.0
    requires CiouGeometry(a, b).c2 != 0.0
    ensures CiouGeometry(b, a).c2 != 0.0
    ensures Ciou(b, a, t) == Ciou(a, b, t)
  {
    CiouGeometrySymmetric(a, b);
    AspectTermSymmetric(a, b, t);
  }
}
