/** Box geometry shared by both overlap measures of the loss (train.py
    `bbox_iou` and `bbox_ciou`). A box reaches the loss in centre form
    (x, y, w, h); both measures turn it into corner form first. */
module Geometry {
  import opened Numeric

  /** An axis-aligned box in centre form. */
  datatype Box = Box(x: real, y: real, w: real, h: real)

  /** A box in corner form: (x0, y0) top-left, (x1, y1) bottom-right. */
  datatype Corners = Corners(x0: real, y0: real, x1: real, y1: real)

  predicate HasNonNegativeSize(b: Box)
  {
    b.w >= 0.0 && b.h >= 0.0
  }

  predicate HasPositiveSize(b: Box)
  {
    b.w > 0.0 && b.h > 0.0
  }

  predicate IsOrdered(c: Corners)
  {
    c.x0 <= c.x1 && c.y0 <= c.y1
  }

  /** `outer` covers `inner` on both axes. */
  predicate Contains(outer: Corners, inner: Corners)
  {
    outer.x0 <= inner.x0 && inner.x1 <= outer.x1 && outer.y0 <= inner.y0 && inner.y1 <= outer.y1
  }

  /** Back from corners to centre form. */
  function FromCorners(c: Corners): (b: Box)
    ensures b.w == c.x1 - c.x0 && b.h == c.y1 - c.y0
    ensures 2.0 * b.x == c.x0 + c.x1 && 2.0 * b.y == c.y0 + c.y1
  {
    Box((c.x0 + c.x1) / 2.0, (c.y0 + c.y1) / 2.0, c.x1 - c.x0, c.y1 - c.y0)
  }

  /** Centre form to corners: half the width and height on either side of
      the centre. The conversion loses nothing. */
  function ToCorners(b: Box): (c: Corners)
    ensures HasNonNegativeSize(b) <==> IsOrdered(c)
  {
    Corners(b.x - b.w * 0.5, b.y - b.h * 0.5, b.x + b.w * 0.5, b.y + b.h * 0.5)
  }

  lemma CornersRoundTrip(b: Box)
    ensures FromCorners(ToCorners(b)) == b
  {
  }

  /** The per-axis min/max of `bbox_ciou`: whatever the signs of the width
      and height, the result is ordered, keeps the centre, and spans the
      absolute width and height; corners already in order are unchanged. */
  function Ordered(c: Corners): (r: Corners)
    ensures IsOrdered(r)
    ensures r.x0 + r.x1 == c.x0 + c.x1 && r.y0 + r.y1 == c.y0 + c.y1
    ensures r.x1 - r.x0 == Abs(c.x1 - c.x0) && r.y1 - r.y0 == Abs(c.y1 - c.y0)
    ensures IsOrdered(c) ==> r == c
  {
    Corners(Min(c.x0, c.x1), Min(c.y0, c.y1), Max(c.x0, c.x1), Max(c.y0, c.y1))
  }

  function Width(c: Corners): real
  {
    c.x1 - c.x0
  }

  function Height(c: Corners): real
  {
    c.y1 - c.y0
  }

  /** Area of a box in centre form, w·h. */
  function BoxArea(b: Box): real
  {
    b.w * b.h
  }

  lemma BoxAreaPositive(b: Box)
    requires HasPositiveSize(b)
    ensures BoxArea(b) > 0.0
  {
    MulPositive(b.w, b.h);
  }

  lemma BoxAreaNonNegative(b: Box)
    requires HasNonNegativeSize(b)
    ensures BoxArea(b) >= 0.0
  {
    MulNonNegative(b.w, b.h);
  }

  /** Area of a box given by its corners. */
  function Area(c: Corners): real
  {
    Width(c) * Height(c)
  }

  /** Length shared by the intervals [a0, a1] and [b0, b1], clamped at zero
      (`tf.maximum(right_down - left_up, 0.0)` on one axis). */
  function Overlap(a0: real, a1: real, b0: real, b1: real): (r: real)
    ensures r >= 0.0
    ensures a0 <= a1 ==> r <= a1 - a0
    ensures b0 <= b1 ==> r <= b1 - b0
  {
    Max(Min(a1, b1) - Max(a0, b0), 0.0)
  }

  /** Two intervals share a positive length exactly when both are proper
      and each starts before the other ends. */
  lemma OverlapPositive(a0: real, a1: real, b0: real, b1: real)
    ensures Overlap(a0, a1, b0, b1) > 0.0 <==> a0 < a1 && b0 < b1 && a0 < b1 && b0 < a1
  {
  }

  /** Area of the intersection of two boxes given by their corners. */
  function Intersection(a: Corners, b: Corners): (r: real)
    ensures r >= 0.0
  {
    MulNonNegative(Overlap(a.x0, a.x1, b.x0, b.x1), Overlap(a.y0, a.y1, b.y0, b.y1));
    Overlap(a.x0, a.x1, b.x0, b.x1) * Overlap(a.y0, a.y1, b.y0, b.y1)
  }

  lemma OverlapSymmetric(a0: real, a1: real, b0: real, b1: real)
    ensures Overlap(a0, a1, b0, b1) == Overlap(b0, b1, a0, a1)
  {
  }

  lemma IntersectionSymmetric(a: Corners, b: Corners)
    ensures Intersection(a, b) == Intersection(b, a)
  {
    OverlapSymmetric(a.x0, a.x1, b.x0, b.x1);
    OverlapSymmetric(a.y0, a.y1, b.y0, b.y1);
  }

  /** The smallest box that holds both (`enclose_left_up`, `enclose_right_down`). */
  function Enclose(a: Corners, b: Corners): (e: Corners)
    ensures Contains(e, a) && Contains(e, b)
  {
    Corners(Min(a.x0, b.x0), Min(a.y0, b.y0), Max(a.x1, b.x1), Max(a.y1, b.y1))
  }

  lemma EncloseIsSmallest(a: Corners, b: Corners, o: Corners)
    requires Contains(o, a) && Contains(o, b)
    ensures Contains(o, Enclose(a, b))
  {
  }

  /** For ordered corners the intersection is no larger than either area. */
  lemma IntersectionWithinAreas(a: Corners, b: Corners)
    requires IsOrdered(a) && IsOrdered(b)
    ensures 0.0 <= Intersection(a, b) <= Area(a)
    ensures Intersection(a, b) <= Area(b)
  {
    var ox := Overlap(a.x0, a.x1, b.x0, b.x1);
    var oy := Overlap(a.y0, a.y1, b.y0, b.y1);
    MulMonotone(ox, oy, Width(a), Height(a));
    MulMonotone(ox, oy, Width(b), Height(b));
  }

  /** Corner form keeps the area. */
  lemma CornerArea(b: Box)
    ensures Area(ToCorners(b)) == BoxArea(b)
  {
    var c := ToCorners(b);
    assert Width(c) == b.w && Height(c) == b.h;
  }
}
