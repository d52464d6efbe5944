/** The per-head loss (train.py `loss_layer`). Every anchor of every grid
    cell contributes to three losses:

    - localisation: `respond_bbox · (2 - w·h / input_size²) · (1 - CIoU)`;
    - class: `respond_bbox ·` the sigmoid cross-entropy of each class;
    - objectness: `respond_bbox · -log(conf + 1e-9)` for positives plus
      `respond_bgd · -log(1 - conf + 1e-9)` for negatives, where
      `respond_bgd = (1 - respond_bbox) · [max IoU with the ground truths < threshold]`.

    Each loss is summed over one image's anchors and averaged over the batch. */
module LossLayer {
  import opened Numeric
  import opened Reduce
  import opened Geometry
  import opened PlainIou
  import opened CompleteIou
  import opened Decode

  /** The label channels of one anchor, from the target encoder: the box it
      is responsible for, the objectness indicator `respond_bbox`, and the
      class targets. */
  datatype LabelAnchor = LabelAnchor(box: Box, respond: real, classes: seq<real>)

  /** The three loss components, in the order the loss returns them. */
  datatype Losses = Losses(ciou: real, conf: real, prob: real)

  /** `tf.reduce_max` of an anchor's IoUs over the ground-truth axis. Over an
      empty axis TensorFlow yields minus infinity, written `NoTruth`. */
  datatype BestOverlap = NoTruth | Best(iou: real)

  /** How the objectness loss treats an anchor. */
  datatype Role = Positive | Negative | Ignored

  function Plus(a: Losses, b: Losses): Losses
  {
    Losses(a.ciou + b.ciou, a.conf + b.conf, a.prob + b.prob)
  }

  // ---------------------------------------------------------------------
  // Negative mining
  // ---------------------------------------------------------------------

  /** Every plain IoU of the prediction against a ground truth is defined. */
  predicate IouDefinedFor(p: Box, gts: seq<Box>)
  {
    forall g :: 0 <= g < |gts| ==> PlainUnion(p, gts[g]) != 0.0
  }

  /** Ground-truth boxes, real or zero padding, have non-negative size. */
  predicate ValidTruths(gts: seq<Box>)
  {
    forall g :: 0 <= g < |gts| ==> HasNonNegativeSize(gts[g])
  }

  /** A prediction of positive size, as `decode` produces, has a defined IoU
      with every valid ground truth. */
  lemma IouDefinedForDecoded(p: Box, gts: seq<Box>)
    requires HasPositiveSize(p) && ValidTruths(gts)
    ensures IouDefinedFor(p, gts)
  {
    forall g | 0 <= g < |gts|
      ensures PlainUnion(p, gts[g]) != 0.0
    {
      UnionPositive(p, gts[g]);
    }
  }

  /** `max_iou`: the largest IoU of the prediction with any ground truth. */
  function MaxIou(p: Box, gts: seq<Box>): (m: BestOverlap)
    requires IouDefinedFor(p, gts)
    ensures m.NoTruth? <==> gts == []
    ensures m.Best? ==> exists g :: 0 <= g < |gts| && m.iou == Iou(p, gts[g])
    ensures m.Best? ==> forall g :: 0 <= g < |gts| ==> Iou(p, gts[g]) <= m.iou
    decreases |gts|
  {
    if gts == [] then NoTruth
    else
      assert IouDefinedFor(p, gts[1..]) by {
        forall g | 0 <= g < |gts[1..]|
          ensures PlainUnion(p, gts[1..][g]) != 0.0
        {
          assert gts[1..][g] == gts[g + 1];
        }
      }
      var first := Iou(p, gts[0]);
      match MaxIou(p, gts[1..])
      case NoTruth => Best(first)
      case Best(v) =>
        assert forall g :: 1 <= g < |gts| ==> Iou(p, gts[g]) <= v by {
          forall g | 1 <= g < |gts|
            ensures Iou(p, gts[g]) <= v
          {
            assert gts[g] == gts[1..][g - 1];
          }
        }
        assert Max(first, v) == first || exists g :: 1 <= g < |gts| && v == Iou(p, gts[g]) by {
          var g' :| 0 <= g' < |gts[1..]| && v == Iou(p, gts[1..][g']);
          assert gts[1..][g'] == gts[g' + 1];
        }
        Best(Max(first, v))
  }

  /** `max_iou < iou_loss_thresh`; minus infinity is below every threshold. */
  predicate BelowThreshold(m: BestOverlap, thresh: real)
  {
    m.NoTruth? || m.iou < thresh
  }

  /** The maximum is below the threshold exactly when every single IoU is. */
  lemma BelowThresholdIffEveryTruthBelow(p: Box, gts: seq<Box>, thresh: real)
    requires IouDefinedFor(p, gts)
    ensures BelowThreshold(MaxIou(p, gts), thresh)
        <==> forall g :: 0 <= g < |gts| ==> Iou(p, gts[g]) < thresh
  {
    var m := MaxIou(p, gts);
    if m.Best? && m.iou >= thresh {
      var g :| 0 <= g < |gts| && m.iou == Iou(p, gts[g]);
      assert !(Iou(p, gts[g]) < thresh);
    }
  }

  /** `respond_bgd`: the weight of an anchor as a background example. */
  function BackgroundWeight(respond: real, best: BestOverlap, thresh: real): real
  {
    (1.0 - respond) * (if BelowThreshold(best, thresh) then 1.0 else 0.0)
  }

  /** The classification the two masks are meant to implement, stated from
      the definitions rather than from the masks: a responsible anchor is
      positive; any other anchor is negative when its IoU with every ground
      truth is below the threshold, and ignored when some ground truth
      reaches the threshold. */
  function RoleOf(respond: real, p: Box, gts: seq<Box>, thresh: real): Role
    requires IouDefinedFor(p, gts)
  {
    if respond == 1.0 then Positive
    else if forall g :: 0 <= g < |gts| ==> Iou(p, gts[g]) < thresh then Negative
    else Ignored
  }

  /** Some ground truth overlaps the prediction at least as much as the threshold. */
  predicate ReachesThreshold(p: Box, gts: seq<Box>, thresh: real)
  {
    exists g :: 0 <= g < |gts| && PlainUnion(p, gts[g]) != 0.0 && Iou(p, gts[g]) >= thresh
  }

  /** An anchor that some ground truth overlaps enough gets no background weight. */
  lemma IgnoredAnchorHasNoWeight(respond: real, p: Box, gts: seq<Box>, thresh: real)
    requires IouDefinedFor(p, gts)
    ensures ReachesThreshold(p, gts, thresh) ==> BackgroundWeight(respond, MaxIou(p, gts), thresh) == 0.0
  {
    BelowThresholdIffEveryTruthBelow(p, gts, thresh);
  }

  /** With a 0/1 objectness indicator, `respond_bbox` and `respond_bgd` are
      0/1 masks that are never both 1, and together they split the anchors
      exactly into positives, negatives and ignored anchors. */
  lemma MasksPartitionAnchors(respond: real, p: Box, gts: seq<Box>, thresh: real)
    requires respond == 0.0 || respond == 1.0
    requires IouDefinedFor(p, gts)
    ensures var bgd := BackgroundWeight(respond, MaxIou(p, gts), thresh);
      && (bgd == 0.0 || bgd == 1.0)
      && respond * bgd == 0.0
      && (RoleOf(respond, p, gts, thresh) == Positive <==> respond == 1.0)
      && (RoleOf(respond, p, gts, thresh) == Negative <==> bgd == 1.0)
      && (RoleOf(respond, p, gts, thresh) == Ignored <==> respond == 0.0 && bgd == 0.0)
  {
    BelowThresholdIffEveryTruthBelow(p, gts, thresh);
  }

  // ---------------------------------------------------------------------
  // One anchor's contributions
  // ---------------------------------------------------------------------

  /** The box covers no more area than the whole network input. */
  predicate FitsInput(b: Box, inputSize: real)
  {
    BoxArea(b) <= Sq(inputSize)
  }

  /** `bbox_loss_scale = 2 - w·h / input_size²`: small boxes weigh up to
      twice as much as boxes covering the whole input. */
  function LossScale(truth: Box, inputSize: real): (r: real)
    requires inputSize > 0.0
    ensures HasNonNegativeSize(truth) && FitsInput(truth, inputSize) ==> 1.0 <= r <= 2.0
  {
    SqPositive(inputSize);
    AreaRatioBounds(truth, inputSize);
    2.0 - BoxArea(truth) / Sq(inputSize)
  }

  /** A box of non-negative size that fits the input covers a fraction
      between 0 and 1 of it. */
  lemma AreaRatioBounds(truth: Box, inputSize: real)
    requires inputSize > 0.0
    ensures Sq(inputSize) > 0.0
    ensures HasNonNegativeSize(truth) && FitsInput(truth, inputSize) ==>
      0.0 <= BoxArea(truth) / Sq(inputSize) <= 1.0
  {
    SqPositive(inputSize);
    if HasNonNegativeSize(truth) && FitsInput(truth, inputSize) {
      BoxAreaNonNegative(truth);
      DivideBounds(BoxArea(truth), Sq(inputSize), 0.0, 1.0);
    }
  }

  /** `sigmoid_cross_entropy_with_logits(labels = z, logits = x)` in the
      overflow-safe form TensorFlow evaluates:
      `max(x, 0) - x·z + log(1 + exp(-|x|))`. */
  function SigmoidCrossEntropy(z: real, x: real, t: Transcendentals): real
  {
    Max(x, 0.0) - x * z + t.log(1.0 + t.exp(-Abs(x)))
  }

  /** What the loss needs of one anchor: a decoded box of positive size, a
      label box of non-negative size, and as many class targets as class
      logits. */
  predicate ValidAnchor(r: RawAnchor, p: Prediction, l: LabelAnchor)
  {
    HasPositiveSize(p.box) && HasNonNegativeSize(l.box) && |l.classes| == |r.classes|
  }

  /** The CIoU of a valid prediction against its label box is defined. */
  lemma CiouDefined(p: Box, l: Box)
    requires HasPositiveSize(p) && HasNonNegativeSize(l)
    ensures p.h + Guard != 0.0 && l.h + Guard != 0.0
    ensures CiouGeometry(p, l).c2 != 0.0
  {
    DiagonalPositive(p, l);
  }

  /** `bbox_loss_scale · (1 - ciou)`: the CIoU loss of one anchor before the
      indicator masks it; it is positive for a label box that fits the input,
      because the CIoU stays below 1. */
  function ScaledCiouLoss(p: Box, truth: Box, inputSize: real, t: Transcendentals): (r: real)
    requires Sound(t) && inputSize > 0.0
    requires HasPositiveSize(p) && HasNonNegativeSize(truth)
    ensures FitsInput(truth, inputSize) ==> r > 0.0
  {
    CiouDefined(p, truth);
    var scale := LossScale(truth, inputSize);
    var ciou := Ciou(p, truth, t);
    var miss := 1.0 - ciou;
    MulPositiveWhen(FitsInput(truth, inputSize), scale, miss);
    scale * miss
  }

  /** Localisation term of one anchor: the scaled CIoU loss, masked by the
      indicator. */
  function LocalisationTerm(p: Prediction, l: LabelAnchor, inputSize: real, t: Transcendentals): (r: real)
    requires Sound(t) && inputSize > 0.0
    requires HasPositiveSize(p.box) && HasNonNegativeSize(l.box)
    ensures l.respond == 0.0 ==> r == 0.0
    ensures l.respond > 0.0 && FitsInput(l.box, inputSize) ==> r > 0.0
    ensures l.respond >= 0.0 && FitsInput(l.box, inputSize) ==> r >= 0.0
  {
    var loss := ScaledCiouLoss(p.box, l.box, inputSize, t);
    MulPositiveWhen(FitsInput(l.box, inputSize), l.respond, loss);
    l.respond * loss
  }

  /** Class term of one anchor, summed over its classes. */
  function ClassTerm(r: RawAnchor, l: LabelAnchor, t: Transcendentals): (v: real)
    requires |l.classes| == |r.classes|
    ensures l.respond == 0.0 ==> v == 0.0
  {
    var terms := seq(|r.classes|, c requires 0 <= c < |r.classes| =>
      l.respond * SigmoidCrossEntropy(l.classes[c], r.classes[c], t));
    SumOfZeros(terms);
    Sum(terms)
  }

  /** Objectness term of one anchor: the positive part weighted by
      `respond_bbox`, the negative part by `respond_bgd`. */
  function ObjectnessTerm(p: Prediction, respond: real, bgd: real, t: Transcendentals): (r: real)
    ensures respond == 0.0 && bgd == 0.0 ==> r == 0.0
  {
    respond * (0.0 - t.log(p.conf + Guard)) + bgd * (0.0 - t.log(1.0 - p.conf + Guard))
  }

  /** All three contributions of one anchor. An anchor that is not
      responsible contributes no localisation and no class loss; one that is
      also above the threshold for some ground truth (ignored) contributes
      no objectness loss either. */
  function AnchorLoss(r: RawAnchor, p: Prediction, l: LabelAnchor, gts: seq<Box>,
                      inputSize: real, thresh: real, t: Transcendentals): (loss: Losses)
    requires Sound(t) && inputSize > 0.0
    requires ValidAnchor(r, p, l) && ValidTruths(gts)
    ensures l.respond == 0.0 ==> loss.ciou == 0.0 && loss.prob == 0.0
    ensures l.respond == 0.0 && ReachesThreshold(p.box, gts, thresh) ==> loss.conf == 0.0
    ensures l.respond >= 0.0 && FitsInput(l.box, inputSize) ==> loss.ciou >= 0.0
  {
    IouDefinedForDecoded(p.box, gts);
    var bgd := BackgroundWeight(l.respond, MaxIou(p.box, gts), thresh);
    IgnoredAnchorHasNoWeight(l.respond, p.box, gts, thresh);
    var ciou := LocalisationTerm(p, l, inputSize, t);
    var conf := ObjectnessTerm(p, l.respond, bgd, t);
    var prob := ClassTerm(r, l, t);
    Losses(ciou, conf, prob)
  }

  // ---------------------------------------------------------------------
  // One image, one head
  // ---------------------------------------------------------------------

  /** One image's anchors line up with its predictions and labels, and every
      anchor is valid. */
  predicate ValidImage(raws: seq<RawAnchor>, preds: seq<Prediction>, labels: seq<LabelAnchor>)
  {
    && |preds| == |raws| && |labels| == |raws|
    && forall k :: 0 <= k < |raws| ==> ValidAnchor(raws[k], preds[k], labels[k])
  }

  lemma ValidImageTail(raws: seq<RawAnchor>, preds: seq<Prediction>, labels: seq<LabelAnchor>)
    requires ValidImage(raws, preds, labels) && raws != []
    ensures ValidImage(raws[1..], preds[1..], labels[1..])
  {
    forall k | 0 <= k < |raws| - 1
      ensures ValidAnchor(raws[1..][k], preds[1..][k], labels[1..][k])
    {
      assert ValidAnchor(raws[k + 1], preds[k + 1], labels[k + 1]);
    }
  }

  /** `reduce_sum` over one image's anchors (and classes). */
  function ImageLoss(raws: seq<RawAnchor>, preds: seq<Prediction>, labels: seq<LabelAnchor>, gts: seq<Box>,
                     inputSize: real, thresh: real, t: Transcendentals): Losses
    requires Sound(t) && inputSize > 0.0 && ValidTruths(gts)
    requires ValidImage(raws, preds, labels)
    decreases |raws|
  {
    if raws == [] then Losses(0.0, 0.0, 0.0)
    else
      ValidImageTail(raws, preds, labels);
      Plus(AnchorLoss(raws[0], preds[0], labels[0], gts, inputSize, thresh, t),
           ImageLoss(raws[1..], preds[1..], labels[1..], gts, inputSize, thresh, t))
  }

  /** One anchor's localisation and class losses do not depend on the
      ground truths or the threshold, and vanish when it is not responsible. */
  lemma AnchorLocality(r: RawAnchor, p: Prediction, l: LabelAnchor, gts: seq<Box>,
                       r': RawAnchor, p': Prediction, l': LabelAnchor, gts': seq<Box>,
                       inputSize: real, thresh: real, thresh': real, t: Transcendentals)
    requires Sound(t) && inputSize > 0.0 && ValidTruths(gts) && ValidTruths(gts')
    requires ValidAnchor(r, p, l) && ValidAnchor(r', p', l')
    requires l'.respond == l.respond
    requires l.respond != 0.0 ==> r' == r && p' == p && l' == l
    ensures AnchorLoss(r', p', l', gts', inputSize, thresh', t).ciou == AnchorLoss(r, p, l, gts, inputSize, thresh, t).ciou
    ensures AnchorLoss(r', p', l', gts', inputSize, thresh', t).prob == AnchorLoss(r, p, l, gts, inputSize, thresh, t).prob
  {
  }

  /** The localisation and class losses of an image look only at its
      responsible anchors: two images whose indicators agree everywhere,
      and whose anchors agree wherever the indicator is non-zero, have the
      same localisation and class losses, whatever their other anchors and
      their ground-truth lists hold. */
  lemma {:induction false} OnlyResponsibleAnchorsCount(
    raws: seq<RawAnchor>, preds: seq<Prediction>, labels: seq<LabelAnchor>, gts: seq<Box>,
    raws': seq<RawAnchor>, preds': seq<Prediction>, labels': seq<LabelAnchor>, gts': seq<Box>,
    inputSize: real, thresh: real, thresh': real, t: Transcendentals)
    requires Sound(t) && inputSize > 0.0 && ValidTruths(gts) && ValidTruths(gts')
    requires ValidImage(raws, preds, labels) && ValidImage(raws', preds', labels')
    requires |raws'| == |raws|
    requires forall k :: 0 <= k < |raws| ==> labels'[k].respond == labels[k].respond
    requires forall k :: 0 <= k < |raws| && labels[k].respond != 0.0 ==>
      raws'[k] == raws[k] && preds'[k] == preds[k] && labels'[k] == labels[k]
    ensures ImageLoss(raws', preds', labels', gts', inputSize, thresh', t).ciou
         == ImageLoss(raws, preds, labels, gts, inputSize, thresh, t).ciou
    ensures ImageLoss(raws', preds', labels', gts', inputSize, thresh', t).prob
         == ImageLoss(raws, preds, labels, gts, inputSize, thresh, t).prob
    decreases |raws|
  {
    if raws != [] {
      ValidImageTail(raws, preds, labels);
      ValidImageTail(raws', preds', labels');
      AnchorLocality(raws[0], preds[0], labels[0], gts, raws'[0], preds'[0], labels'[0], gts', inputSize, thresh, thresh', t);
      forall k | 0 <= k < |raws| - 1
        ensures labels'[1..][k].respond == labels[1..][k].respond
        ensures labels[1..][k].respond != 0.0 ==>
          raws'[1..][k] == raws[1..][k] && preds'[1..][k] == preds[1..][k] && labels'[1..][k] == labels[1..][k]
      {
        assert labels'[1..][k] == labels'[k + 1] && labels[1..][k] == labels[k + 1];
        assert raws'[1..][k] == raws'[k + 1] && raws[1..][k] == raws[k + 1];
        assert preds'[1..][k] == preds'[k + 1] && preds[1..][k] == preds[k + 1];
      }
      OnlyResponsibleAnchorsCount(
        raws[1..], preds[1..], labels[1..], gts,
        raws'[1..], preds'[1..], labels'[1..], gts',
        inputSize, thresh, thresh', t);
    }
  }

  /** An image without responsible anchors, such as one without objects,
      has no localisation and no class loss. */
  lemma {:induction false} NoResponsibleNoLocalisation(
    raws: seq<RawAnchor>, preds: seq<Prediction>, labels: seq<LabelAnchor>, gts: seq<Box>,
    inputSize: real, thresh: real, t: Transcendentals)
    requires Sound(t) && inputSize > 0.0 && ValidTruths(gts)
    requires ValidImage(raws, preds, labels)
    requires forall k :: 0 <= k < |labels| ==> labels[k].respond == 0.0
    ensures ImageLoss(raws, preds, labels, gts, inputSize, thresh, t).ciou == 0.0
    ensures ImageLoss(raws, preds, labels, gts, inputSize, thresh, t).prob == 0.0
    decreases |raws|
  {
    if raws != [] {
      ValidImageTail(raws, preds, labels);
      NoResponsibleNoLocalisation(raws[1..], preds[1..], labels[1..], gts, inputSize, thresh, t);
    }
  }

  /** With non-negative indicators and label boxes no larger than the
      input, an image's localisation loss is non-negative. */
  lemma {:induction false} ImageLocalisationNonNegative(
    raws: seq<RawAnchor>, preds: seq<Prediction>, labels: seq<LabelAnchor>, gts: seq<Box>,
    inputSize: real, thresh: real, t: Transcendentals)
    requires Sound(t) && inputSize > 0.0 && ValidTruths(gts)
    requires ValidImage(raws, preds, labels)
    requires forall k :: 0 <= k < |labels| ==>
      labels[k].respond >= 0.0 && FitsInput(labels[k].box, inputSize)
    ensures ImageLoss(raws, preds, labels, gts, inputSize, thresh, t).ciou >= 0.0
    decreases |raws|
  {
    if raws != [] {
      ValidImageTail(raws, preds, labels);
      ImageLocalisationNonNegative(raws[1..], preds[1..], labels[1..], gts, inputSize, thresh, t);
    }
  }

  // ---------------------------------------------------------------------
  // Counting roles
  // ---------------------------------------------------------------------

  /** Every anchor's indicator is 0 or 1. */
  predicate BinaryIndicators(labels: seq<LabelAnchor>)
  {
    forall k :: 0 <= k < |labels| ==> labels[k].respond == 0.0 || labels[k].respond == 1.0
  }

  /** Every decoded box has a defined IoU with every ground truth. */
  predicate IouDefinedForAll(preds: seq<Prediction>, gts: seq<Box>)
  {
    forall k :: 0 <= k < |preds| ==> IouDefinedFor(preds[k].box, gts)
  }

  lemma IouDefinedForTail(preds: seq<Prediction>, gts: seq<Box>)
    requires IouDefinedForAll(preds, gts) && preds != []
    ensures IouDefinedForAll(preds[1..], gts)
  {
    forall k | 0 <= k < |preds| - 1
      ensures IouDefinedFor(preds[1..][k].box, gts)
    {
      assert preds[1..][k] == preds[k + 1];
    }
  }

  /** Number of anchors of one image with the given role. */
  function CountRole(preds: seq<Prediction>, labels: seq<LabelAnchor>, gts: seq<Box>, thresh: real, role: Role): (c: nat)
    requires |labels| == |preds| && IouDefinedForAll(preds, gts)
    ensures c <= |preds|
    decreases |preds|
  {
    if preds == [] then 0
    else
      IouDefinedForTail(preds, gts);
      (if RoleOf(labels[0].respond, preds[0].box, gts, thresh) == role then 1 else 0)
      + CountRole(preds[1..], labels[1..], gts, thresh, role)
  }

  /** Number of anchors of one image whose background mask `respond_bgd` is 1. */
  function CountBackground(preds: seq<Prediction>, labels: seq<LabelAnchor>, gts: seq<Box>, thresh: real): (c: nat)
    requires |labels| == |preds| && IouDefinedForAll(preds, gts)
    ensures c <= |preds|
    decreases |preds|
  {
    if preds == [] then 0
    else
      IouDefinedForTail(preds, gts);
      (if BackgroundWeight(labels[0].respond, MaxIou(preds[0].box, gts), thresh) == 1.0 then 1 else 0)
      + CountBackground(preds[1..], labels[1..], gts, thresh)
  }

  /** Positives, negatives and ignored anchors add up to all anchors, and
      the anchors the background mask selects are exactly the negatives. */
  lemma {:induction false} RolesCoverImage(preds: seq<Prediction>, labels: seq<LabelAnchor>, gts: seq<Box>, thresh: real)
    requires |labels| == |preds| && IouDefinedForAll(preds, gts) && BinaryIndicators(labels)
    ensures CountRole(preds, labels, gts, thresh, Positive)
          + CountRole(preds, labels, gts, thresh, Negative)
          + CountRole(preds, labels, gts, thresh, Ignored) == |preds|
    ensures CountBackground(preds, labels, gts, thresh) == CountRole(preds, labels, gts, thresh, Negative)
    decreases |preds|
  {
    if preds != [] {
      IouDefinedForTail(preds, gts);
      assert BinaryIndicators(labels[1..]) by {
        forall k | 0 <= k < |labels| - 1
          ensures labels[1..][k].respond == 0.0 || labels[1..][k].respond == 1.0
        {
          assert labels[1..][k] == labels[k + 1];
        }
      }
      MasksPartitionAnchors(labels[0].respond, preds[0].box, gts, thresh);
      RolesCoverImage(preds[1..], labels[1..], gts, thresh);
    }
  }

  /** One responsible anchor and every prediction below the threshold for
      every ground truth: nothing is ignored, and the other N - 1 anchors
      are all negatives. */
  lemma OneResponsibleRestNegative(preds: seq<Prediction>, labels: seq<LabelAnchor>, gts: seq<Box>, thresh: real)
    requires |labels| == |preds| && IouDefinedForAll(preds, gts) && BinaryIndicators(labels)
    requires CountRole(preds, labels, gts, thresh, Positive) == 1
    requires forall k, g :: 0 <= k < |preds| && 0 <= g < |gts| ==> Iou(preds[k].box, gts[g]) < thresh
    ensures CountRole(preds, labels, gts, thresh, Ignored) == 0
    ensures CountBackground(preds, labels, gts, thresh) == |preds| - 1
  {
    NoneIgnored(preds, labels, gts, thresh);
    RolesCoverImage(preds, labels, gts, thresh);
  }

  lemma {:induction false} NoneIgnored(preds: seq<Prediction>, labels: seq<LabelAnchor>, gts: seq<Box>, thresh: real)
    requires |labels| == |preds| && IouDefinedForAll(preds, gts)
    requires forall k, g :: 0 <= k < |preds| && 0 <= g < |gts| ==> Iou(preds[k].box, gts[g]) < thresh
    ensures CountRole(preds, labels, gts, thresh, Ignored) == 0
    decreases |preds|
  {
    if preds != [] {
      IouDefinedForTail(preds, gts);
      assert forall k, g :: 0 <= k < |preds| - 1 && 0 <= g < |gts| ==> Iou(preds[1..][k].box, gts[g]) < thresh by {
        forall k, g | 0 <= k < |preds| - 1 && 0 <= g < |gts|
          ensures Iou(preds[1..][k].box, gts[g]) < thresh
        {
          assert preds[1..][k] == preds[k + 1];
        }
      }
      NoneIgnored(preds[1..], labels[1..], gts, thresh);
    }
  }

  // ---------------------------------------------------------------------
  // The whole head
  // ---------------------------------------------------------------------

  /** The batch of one head lines up, image by image. */
  predicate ValidHead(conv: seq<seq<RawAnchor>>, pred: seq<seq<Prediction>>, targets: seq<seq<LabelAnchor>>, bboxes: seq<seq<Box>>)
  {
    && |pred| == |conv| && |targets| == |conv| && |bboxes| == |conv|
    && forall b :: 0 <= b < |conv| ==> ValidImage(conv[b], pred[b], targets[b]) && ValidTruths(bboxes[b])
  }

  /** Each image's losses, in batch order. */
  function PerImageLosses(conv: seq<seq<RawAnchor>>, pred: seq<seq<Prediction>>, targets: seq<seq<LabelAnchor>>,
                          bboxes: seq<seq<Box>>, inputSize: real, thresh: real, t: Transcendentals): (ls: seq<Losses>)
    requires Sound(t) && inputSize > 0.0
    requires ValidHead(conv, pred, targets, bboxes)
    ensures |ls| == |conv|
    ensures forall b :: 0 <= b < |conv| ==>
      ls[b] == ImageLoss(conv[b], pred[b], targets[b], bboxes[b], inputSize, thresh, t)
  {
    seq(|conv|, b requires 0 <= b < |conv| => ImageLoss(conv[b], pred[b], targets[b], bboxes[b], inputSize, thresh, t))
  }

  function CiouParts(ls: seq<Losses>): (s: seq<real>)
    ensures |s| == |ls| && forall b :: 0 <= b < |ls| ==> s[b] == ls[b].ciou
  {
    seq(|ls|, b requires 0 <= b < |ls| => ls[b].ciou)
  }

  function ConfParts(ls: seq<Losses>): (s: seq<real>)
    ensures |s| == |ls| && forall b :: 0 <= b < |ls| ==> s[b] == ls[b].conf
  {
    seq(|ls|, b requires 0 <= b < |ls| => ls[b].conf)
  }

  function ProbParts(ls: seq<Losses>): (s: seq<real>)
    ensures |s| == |ls| && forall b :: 0 <= b < |ls| ==> s[b] == ls[b].prob
  {
    seq(|ls|, b requires 0 <= b < |ls| => ls[b].prob)
  }

  /** `input_size = stride · output_size`: the side of the network input in
      pixels. */
  function InputSize(stride: real, n: nat): (r: real)
    requires stride > 0.0 && n > 0
    ensures r > 0.0
  {
    MulPositive(stride, n as real);
    stride * n as real
  }

  /** `tf.reduce_mean` of each component over the batch. */
  function BatchMean(ls: seq<Losses>): Losses
    requires |ls| > 0
  {
    Losses(Mean(CiouParts(ls)), Mean(ConfParts(ls)), Mean(ProbParts(ls)))
  }

  /** `loss_layer`: each component summed per image, then averaged over the
      batch; the input size is the stride times the grid size. */
  function HeadLoss(conv: seq<seq<RawAnchor>>, pred: seq<seq<Prediction>>, targets: seq<seq<LabelAnchor>>,
                    bboxes: seq<seq<Box>>, stride: real, n: nat, thresh: real, t: Transcendentals): Losses
    requires Sound(t) && stride > 0.0 && n > 0 && |conv| > 0
    requires ValidHead(conv, pred, targets, bboxes)
  {
    BatchMean(PerImageLosses(conv, pred, targets, bboxes, InputSize(stride, n), thresh, t))
  }

  /** The head's localisation loss is non-negative when every indicator is
      non-negative and no label box is larger than the input. */
  lemma HeadLocalisationNonNegative(conv: seq<seq<RawAnchor>>, pred: seq<seq<Prediction>>, targets: seq<seq<LabelAnchor>>,
                                    bboxes: seq<seq<Box>>, stride: real, n: nat, thresh: real, t: Transcendentals)
    requires Sound(t) && stride > 0.0 && n > 0 && |conv| > 0
    requires ValidHead(conv, pred, targets, bboxes)
    requires forall b, k :: 0 <= b < |targets| && 0 <= k < |targets[b]| ==>
      targets[b][k].respond >= 0.0 && FitsInput(targets[b][k].box, InputSize(stride, n))
    ensures HeadLoss(conv, pred, targets, bboxes, stride, n, thresh, t).ciou >= 0.0
  {
    var inputSize := InputSize(stride, n);
    var ls := PerImageLosses(conv, pred, targets, bboxes, inputSize, thresh, t);
    var parts := CiouParts(ls);
    forall b | 0 <= b < |conv|
      ensures parts[b] >= 0.0
    {
      ImageLocalisationNonNegative(conv[b], pred[b], targets[b], bboxes[b], inputSize, thresh, t);
    }
    MeanNonNegative(parts);
  }

  /** A batch without responsible anchors, such as one without objects, has
      no localisation and no class loss on this head. */
  lemma HeadWithoutObjects(conv: seq<seq<RawAnchor>>, pred: seq<seq<Prediction>>, targets: seq<seq<LabelAnchor>>,
                           bboxes: seq<seq<Box>>, stride: real, n: nat, thresh: real, t: Transcendentals)
    requires Sound(t) && stride > 0.0 && n > 0 && |conv| > 0
    requires ValidHead(conv, pred, targets, bboxes)
    requires forall b, k :: 0 <= b < |targets| && 0 <= k < |targets[b]| ==> targets[b][k].respond == 0.0
    ensures HeadLoss(conv, pred, targets, bboxes, stride, n, thresh, t).ciou == 0.0
    ensures HeadLoss(conv, pred, targets, bboxes, stride, n, thresh, t).prob == 0.0
  {
    var inputSize := InputSize(stride, n);
    var ls := PerImageLosses(conv, pred, targets, bboxes, inputSize, thresh, t);
    forall b | 0 <= b < |conv|
      ensures ls[b].ciou == 0.0 && ls[b].prob == 0.0
    {
      NoResponsibleNoLocalisation(conv[b], pred[b], targets[b], bboxes[b], inputSize, thresh, t);
    }
    MeanBounds(CiouParts(ls), 0.0, 0.0);
    MeanBounds(ProbParts(ls), 0.0, 0.0);
  }
}
