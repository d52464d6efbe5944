/** The plain IoU (train.py `bbox_iou`), used to pick negative anchors. It
    takes the corners as they come and divides by the union with no
    guard. */
module PlainIou {
  import opened Numeric
  import opened Geometry

  /** The union as `bbox_iou` computes it: areas straight from the widths and heights, the
      intersection from the unordered corners. */
  function PlainUnion(a: Box, b: Box): real
  {
    BoxArea(a) + BoxArea(b) - Intersection(ToCorners(a), ToCorners(b))
  }

  /** `bbox_iou` for one pair of boxes. The source divides with no guard;
      a zero union has no real-valued result. */
  function Iou(a: Box, b: Box): real
    requires PlainUnion(a, b) != 0.0
  {
    1.0 * Intersection(ToCorners(a), ToCorners(b)) / PlainUnion(a, b)
  }

  /** With non-negative sizes the intersection is no larger than either
      box, so the union is at least each box's area and at least the
      intersection. */
  lemma UnionCoversBoth(a: Box, b: Box)
    requires HasNonNegativeSize(a) && HasNonNegativeSize(b)
    ensures BoxArea(a) <= PlainUnion(a, b) && BoxArea(b) <= PlainUnion(a, b)
    ensures Intersection(ToCorners(a), ToCorners(b)) <= PlainUnion(a, b)
  {
    IntersectionWithinAreas(ToCorners(a), ToCorners(b));
    CornerArea(a);
    CornerArea(b);
  }

  /** A box of positive size against one of non-negative size (a decoded
      prediction against a possibly zero-padded ground truth) always has a
      positive union, so the unguarded division is defined. */
  lemma UnionPositive(a: Box, b: Box)
    requires HasPositiveSize(a) && HasNonNegativeSize(b)
    ensures PlainUnion(a, b) > 0.0
  {
    UnionCoversBoth(a, b);
    BoxAreaPositive(a);
  }

  /** For boxes of non-negative size the IoU lies in [0, 1], and it is 0
      exactly when the boxes do not overlap. */
  lemma IouBounds(a: Box, b: Box)
    requires HasNonNegativeSize(a) && HasNonNegativeSize(b)
    requires PlainUnion(a, b) != 0.0
    ensures 0.0 <= Iou(a, b) <= 1.0
    ensures Iou(a, b) == 0.0 <==> Intersection(ToCorners(a), ToCorners(b)) == 0.0
  {
    UnionCoversBoth(a, b);
    var inter := Intersection(ToCorners(a), ToCorners(b));
    var union := PlainUnion(a, b);
    DivideBounds(inter, union, 0.0, 1.0);
    if inter != 0.0 {
      assert inter / union > 0.0;
    }
  }

  lemma IouSymmetric(a: Box, b: Box)
    requires PlainUnion(a, b) != 0.0
    ensures PlainUnion(b, a) == PlainUnion(a, b)
    ensures Iou(a, b) == Iou(b, a)
  {
    IntersectionSymmetric(ToCorners(a), ToCorners(b));
  }

  /** A box of positive size overlaps itself completely. */
  lemma IouSelf(a: Box)
    requires HasPositiveSize(a)
    ensures PlainUnion(a, a) != 0.0
    ensures Iou(a, a) == 1.0
  {
    var c := ToCorners(a);
    var area := BoxArea(a);
    assert Overlap(c.x0, c.x1, c.x0, c.x1) == a.w;
    assert Overlap(c.y0, c.y1, c.y0, c.y1) == a.h;
    assert Intersection(c, c) == area;
    assert PlainUnion(a, a) == area;
    BoxAreaPositive(a);
    calc {
      Iou(a, a);
      == 1.0 * area / area;
      == 1.0;
    }
  }
}
