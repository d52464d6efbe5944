/** The anchor decoder (train.py `decode`): turns one head's raw output into
    absolute boxes, objectness and class probabilities.

    A head tensor of shape (batch, n, n, A·(5 + C)) is reshaped to
    (batch, n, n, A, 5 + C). Here each image's part is a sequence of
    per-anchor records in row-major order, so the record at index k belongs
    to grid row i, column j and anchor slot a with k = (i·n + j)·A + a. */
module Decode {
  import opened Numeric
  import opened Geometry

  /** The 5 + C raw channels of one anchor: offsets, log-scales, the
      objectness logit and the class logits. */
  datatype RawAnchor = RawAnchor(dx: real, dy: real, dw: real, dh: real, conf: real, classes: seq<real>)

  /** The decoded channels of one anchor: absolute box, objectness and the
      independent per-class probabilities. */
  datatype Prediction = Prediction(box: Box, conf: real, classes: seq<real>)

  /** One anchor's prior width and height, in input pixels. */
  datatype AnchorShape = AnchorShape(w: real, h: real)

  // ---------------------------------------------------------------------
  // Layout of one image's anchors
  // ---------------------------------------------------------------------

  function FlatIndex(i: nat, j: nat, a: nat, n: nat, anchors: nat): nat
  {
    (i * n + j) * anchors + a
  }

  function RowOf(k: nat, n: nat, anchors: nat): nat
    requires n > 0 && anchors > 0
  {
    k / anchors / n
  }

  function ColumnOf(k: nat, n: nat, anchors: nat): nat
    requires n > 0 && anchors > 0
  {
    k / anchors % n
  }

  function SlotOf(k: nat, anchors: nat): nat
    requires anchors > 0
  {
    k % anchors
  }

  /** Row, column and slot recover the cell and anchor a record was stored
      for. */
  lemma LayoutRoundTrip(i: nat, j: nat, a: nat, n: nat, anchors: nat)
    requires i < n && j < n && a < anchors
    ensures FlatIndex(i, j, a, n, anchors) < n * n * anchors
    ensures RowOf(FlatIndex(i, j, a, n, anchors), n, anchors) == i
    ensures ColumnOf(FlatIndex(i, j, a, n, anchors), n, anchors) == j
    ensures SlotOf(FlatIndex(i, j, a, n, anchors), anchors) == a
  {
    var cell := i * n + j;
    var k := cell * anchors + a;
    DivModUnique(k, cell, a, anchors);
    DivModUnique(cell, i, j, n);
    assert cell < n * n by {
      IntMulMonotone(i, n - 1, n);
      IntMulSucc(n - 1, n);
    }
    assert k < n * n * anchors by {
      IntMulMonotone(cell, n * n - 1, anchors);
      IntMulSucc(n * n - 1, anchors);
    }
  }

  /** Every index of the flattened layout is some (row, column, slot). */
  lemma LayoutCovers(k: nat, n: nat, anchors: nat)
    requires n > 0 && anchors > 0 && k < n * n * anchors
    ensures RowOf(k, n, anchors) < n && ColumnOf(k, n, anchors) < n && SlotOf(k, anchors) < anchors
    ensures FlatIndex(RowOf(k, n, anchors), ColumnOf(k, n, anchors), SlotOf(k, anchors), n, anchors) == k
  {
    var cell := k / anchors;
    DivBelow(k, n * n, anchors);
    DivBelow(cell, n, n);
  }

  // ---------------------------------------------------------------------
  // The grid offsets
  // ---------------------------------------------------------------------

  /** `y = tile(range(n)[:, newaxis], [1, n])`: the row index at every cell. */
  function GridY(n: nat): (y: seq<seq<nat>>)
    ensures |y| == n && forall i :: 0 <= i < n ==> |y[i]| == n
  {
    seq(n, i => seq(n, j => i))
  }

  /** `x = tile(range(n)[newaxis, :], [n, 1])`: the column index at every cell. */
  function GridX(n: nat): (x: seq<seq<nat>>)
    ensures |x| == n && forall i :: 0 <= i < n ==> |x[i]| == n
  {
    seq(n, i => seq(n, j => j))
  }

  /** `xy_grid` at flattened index k: the pair (x, y) read from the two grids
      at the record's cell, the same for every anchor slot of that cell. */
  function GridAt(k: nat, n: nat, anchors: nat): (nat, nat)
    requires n > 0 && anchors > 0 && k < n * n * anchors
  {
    LayoutCovers(k, n, anchors);
    var i, j := RowOf(k, n, anchors), ColumnOf(k, n, anchors);
    (GridX(n)[i][j], GridY(n)[i][j])
  }

  /** `xy_grid` tiled over the anchors of one image and flattened. */
  function XyGrid(n: nat, anchors: nat): (g: seq<(nat, nat)>)
    requires n > 0 && anchors > 0
    ensures |g| == n * n * anchors
  {
    seq(n * n * anchors, k requires 0 <= k < n * n * anchors => GridAt(k, n, anchors))
  }

  /** The cell in row i and column j gets the offset (x = j, y = i), for every
      anchor slot a. */
  lemma GridOffsetOfCell(i: nat, j: nat, a: nat, n: nat, anchors: nat)
    requires i < n && j < n && a < anchors
    ensures FlatIndex(i, j, a, n, anchors) < |XyGrid(n, anchors)|
    ensures XyGrid(n, anchors)[FlatIndex(i, j, a, n, anchors)] == (j, i)
  {
    LayoutRoundTrip(i, j, a, n, anchors);
  }

  // ---------------------------------------------------------------------
  // Decoding
  // ---------------------------------------------------------------------

  /** `(sigmoid(d) + grid) · stride` on one axis. */
  function CentreAt(s: real, offset: nat, stride: real): real
  {
    (s + offset as real) * stride
  }

  /** `exp(d) · anchor` on one axis. */
  function ScaledPrior(e: real, prior: real): real
  {
    e * prior
  }

  /** `tf.sigmoid` applied to each class logit on its own (no softmax: the
      classes are independent). */
  function SigmoidEach(logits: seq<real>, t: Transcendentals): (probs: seq<real>)
    ensures |probs| == |logits|
  {
    seq(|logits|, c requires 0 <= c < |logits| => t.sigmoid(logits[c]))
  }

  lemma SigmoidEachInRange(logits: seq<real>, t: Transcendentals)
    requires Sound(t)
    ensures forall c :: 0 <= c < |logits| ==> 0.0 < SigmoidEach(logits, t)[c] < 1.0
  {
    forall c | 0 <= c < |logits|
      ensures 0.0 < SigmoidEach(logits, t)[c] < 1.0
    {
      var u := logits[c];
      assert 0.0 < t.sigmoid(u) < 1.0;
      assert SigmoidEach(logits, t)[c] == t.sigmoid(u);
    }
  }

  /** One anchor: `(sigmoid(dxdy) + grid) · stride`, `exp(dwdh) · anchor`,
      `sigmoid` on the objectness and on each class logit. */
  function DecodeAnchor(r: RawAnchor, offset: (nat, nat), shape: AnchorShape, stride: real, t: Transcendentals): (p: Prediction)
    ensures |p.classes| == |r.classes|
  {
    Prediction(
      Box(CentreAt(t.sigmoid(r.dx), offset.0, stride),
          CentreAt(t.sigmoid(r.dy), offset.1, stride),
          ScaledPrior(t.exp(r.dw), shape.w),
          ScaledPrior(t.exp(r.dh), shape.h)),
      t.sigmoid(r.conf),
      SigmoidEach(r.classes, t))
  }

  /** `decode` for one image of the batch. */
  function DecodeImage(raw: seq<RawAnchor>, n: nat, anchors: seq<AnchorShape>, stride: real, t: Transcendentals): (p: seq<Prediction>)
    requires n > 0 && |anchors| > 0 && |raw| == n * n * |anchors|
    ensures |p| == |raw|
    ensures forall k :: 0 <= k < |p| ==> |p[k].classes| == |raw[k].classes|
  {
    var grid := XyGrid(n, |anchors|);
    seq(|raw|, k requires 0 <= k < |raw| => DecodeAnchor(raw[k], grid[k], anchors[SlotOf(k, |anchors|)], stride, t))
  }

  /** `decode` for the whole batch: each image is decoded on its own with the
      same grid and anchors. */
  function DecodeBatch(conv: seq<seq<RawAnchor>>, n: nat, anchors: seq<AnchorShape>, stride: real, t: Transcendentals): (p: seq<seq<Prediction>>)
    requires n > 0 && |anchors| > 0
    requires forall b :: 0 <= b < |conv| ==> |conv[b]| == n * n * |anchors|
    ensures |p| == |conv|
    ensures forall b :: 0 <= b < |p| ==> |p[b]| == |conv[b]| && p[b] == DecodeImage(conv[b], n, anchors, stride, t)
  {
    seq(|conv|, b requires 0 <= b < |conv| => DecodeImage(conv[b], n, anchors, stride, t))
  }

  lemma DecodeImageAt(raw: seq<RawAnchor>, n: nat, anchors: seq<AnchorShape>, stride: real, t: Transcendentals, k: nat)
    requires n > 0 && |anchors| > 0 && |raw| == n * n * |anchors|
    requires k < |raw|
    ensures DecodeImage(raw, n, anchors, stride, t)[k]
         == DecodeAnchor(raw[k], XyGrid(n, |anchors|)[k], anchors[SlotOf(k, |anchors|)], stride, t)
  {
  }

  predicate PositiveAnchors(anchors: seq<AnchorShape>)
  {
    forall a :: 0 <= a < |anchors| ==> anchors[a].w > 0.0 && anchors[a].h > 0.0
  }

  /** The grid cell a point falls in, at the given stride: (row, column). */
  function CellOf(b: Box, stride: real): (int, int)
    requires stride > 0.0
  {
    ((b.y / stride).Floor, (b.x / stride).Floor)
  }

  lemma FloorInCell(x: real, j: int, stride: real)
    requires stride > 0.0
    requires j as real * stride < x < (j + 1) as real * stride
    ensures (x / stride).Floor == j
  {
    var q := x / stride;
    assert q * stride == x;
    CancelPositive(j as real, q, stride);
    CancelPositive(q, (j + 1) as real, stride);
  }

  /** An offset strictly inside (0, 1) puts the centre strictly inside
      the cell, and the cell index is recovered by flooring. */
  lemma CentreInCell(s: real, j: nat, stride: real)
    requires 0.0 < s < 1.0 && stride > 0.0
    ensures j as real * stride < CentreAt(s, j, stride) < (j + 1) as real * stride
    ensures (CentreAt(s, j, stride) / stride).Floor == j
  {
    var x := CentreAt(s, j, stride);
    assert x == s * stride + j as real * stride;
    assert ((j + 1) as real) * stride == stride + j as real * stride;
    MulPositive(s, stride);
    MulPositive(1.0 - s, stride);
    FloorInCell(x, j, stride);
  }

  /** One anchor decoded at grid offset (x = j, y = i) has its centre
      strictly inside cell (i, j). */
  lemma AnchorCentreInCell(r: RawAnchor, i: nat, j: nat, shape: AnchorShape, stride: real, t: Transcendentals)
    requires Sound(t) && stride > 0.0
    ensures var p := DecodeAnchor(r, (j, i), shape, stride, t);
      && j as real * stride < p.box.x < (j + 1) as real * stride
      && i as real * stride < p.box.y < (i + 1) as real * stride
      && CellOf(p.box, stride) == (i, j)
  {
    var sx, sy := t.sigmoid(r.dx), t.sigmoid(r.dy);
    assert 0.0 < sx < 1.0 && 0.0 < sy < 1.0;
    CentreInCell(sx, j, stride);
    CentreInCell(sy, i, stride);
  }

  /** With the logistic function strictly inside (0, 1), the decoded centre
      of the anchor in row i, column j lies strictly inside that cell:
      j·stride < x < (j + 1)·stride and i·stride < y < (i + 1)·stride, so
      the cell can be read back from the prediction. */
  lemma DecodedCentreInCell(raw: seq<RawAnchor>, n: nat, anchors: seq<AnchorShape>, stride: real, t: Transcendentals,
                            i: nat, j: nat, a: nat)
    requires Sound(t) && stride > 0.0
    requires n > 0 && |anchors| > 0 && |raw| == n * n * |anchors|
    requires i < n && j < n && a < |anchors|
    ensures FlatIndex(i, j, a, n, |anchors|) < |raw|
    ensures var p := DecodeImage(raw, n, anchors, stride, t)[FlatIndex(i, j, a, n, |anchors|)];
      && j as real * stride < p.box.x < (j + 1) as real * stride
      && i as real * stride < p.box.y < (i + 1) as real * stride
      && CellOf(p.box, stride) == (i, j)
  {
    var k := FlatIndex(i, j, a, n, |anchors|);
    GridOffsetOfCell(i, j, a, n, |anchors|);
    DecodeImageAt(raw, n, anchors, stride, t, k);
    AnchorCentreInCell(raw[k], i, j, anchors[SlotOf(k, |anchors|)], stride, t);
  }

  /** One decoded anchor is well formed. */
  lemma AnchorWellFormed(r: RawAnchor, offset: (nat, nat), shape: AnchorShape, stride: real, t: Transcendentals)
    requires Sound(t) && shape.w > 0.0 && shape.h > 0.0
    ensures var p := DecodeAnchor(r, offset, shape, stride, t);
      && HasPositiveSize(p.box)
      && 0.0 < p.conf < 1.0
      && forall c :: 0 <= c < |p.classes| ==> 0.0 < p.classes[c] < 1.0
  {
    var p := DecodeAnchor(r, offset, shape, stride, t);
    ScaledPriorPositive(t.exp(r.dw), shape.w);
    ScaledPriorPositive(t.exp(r.dh), shape.h);
    SigmoidEachInRange(r.classes, t);
  }

  lemma ScaledPriorPositive(e: real, prior: real)
    requires e > 0.0 && prior > 0.0
    ensures ScaledPrior(e, prior) > 0.0
  {
    MulPositive(e, prior);
  }

  /** Decoded anchors are well formed: boxes of positive size (given
      positive anchor priors), objectness and every class probability
      strictly between 0 and 1. */
  lemma DecodedWellFormed(raw: seq<RawAnchor>, n: nat, anchors: seq<AnchorShape>, stride: real, t: Transcendentals, k: nat)
    requires Sound(t) && PositiveAnchors(anchors)
    requires n > 0 && |anchors| > 0 && |raw| == n * n * |anchors|
    requires k < |raw|
    ensures var p := DecodeImage(raw, n, anchors, stride, t)[k];
      && HasPositiveSize(p.box)
      && 0.0 < p.conf < 1.0
      && forall c :: 0 <= c < |p.classes| ==> 0.0 < p.classes[c] < 1.0
  {
    DecodeImageAt(raw, n, anchors, stride, t, k);
    AnchorWellFormed(raw[k], XyGrid(n, |anchors|)[k], anchors[SlotOf(k, |anchors|)], stride, t);
  }

  /** An all-zero raw output decodes, with sigmoid(0) = 0.5 and exp(0) = 1,
      to objectness and class probabilities 0.5, the anchor prior as width
      and height, and the centre of its cell. */
  lemma ZeroOutputDecodesToPrior(raw: seq<RawAnchor>, n: nat, anchors: seq<AnchorShape>, stride: real, t: Transcendentals,
                                 i: nat, j: nat, a: nat)
    requires t.sigmoid(0.0) == 0.5 && t.exp(0.0) == 1.0
    requires n > 0 && |anchors| > 0 && |raw| == n * n * |anchors|
    requires i < n && j < n && a < |anchors|
    requires FlatIndex(i, j, a, n, |anchors|) < |raw|
    requires var r := raw[FlatIndex(i, j, a, n, |anchors|)];
      r.dx == 0.0 && r.dy == 0.0 && r.dw == 0.0 && r.dh == 0.0 && r.conf == 0.0
      && forall c :: 0 <= c < |r.classes| ==> r.classes[c] == 0.0
    ensures var p := DecodeImage(raw, n, anchors, stride, t)[FlatIndex(i, j, a, n, |anchors|)];
      && p.box == Box((j as real + 0.5) * stride, (i as real + 0.5) * stride, anchors[a].w, anchors[a].h)
      && p.conf == 0.5
      && forall c :: 0 <= c < |p.classes| ==> p.classes[c] == 0.5
  {
    GridOffsetOfCell(i, j, a, n, |anchors|);
    LayoutRoundTrip(i, j, a, n, |anchors|);
    DecodeImageAt(raw, n, anchors, stride, t, FlatIndex(i, j, a, n, |anchors|));
  }
}
