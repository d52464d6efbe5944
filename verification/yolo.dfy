/** `yolo_loss`: the three detection heads, each decoded and scored by the
    per-head loss, and each loss component summed over the heads. The head
    with stride 8 pairs the small-object tensors with the first anchor
    group, stride 16 the medium ones with the second, stride 32 the large
    ones with the third. */
module YoloLoss {
  import opened Numeric
  import opened Reduce
  import opened Geometry
  import opened Decode
  import opened LossLayer

  /** One head's raw convolution output: the grid size and, for every image
      of the batch, its anchors in the flattened layout of `Decode`. */
  datatype HeadOutput = HeadOutput(grid: nat, images: seq<seq<RawAnchor>>)

  /** The seven inputs of `yolo_loss`, in the order the loss receives them:
      the three convolution outputs from large to small, the three label
      tensors from small to large, and the ground-truth boxes of each image. */
  datatype LossArgs = LossArgs(
    convL: HeadOutput, convM: HeadOutput, convS: HeadOutput,
    labelS: seq<seq<LabelAnchor>>, labelM: seq<seq<LabelAnchor>>, labelL: seq<seq<LabelAnchor>>,
    trueBoxes: seq<seq<Box>>)

  const SmallStride: real := 8.0
  const MediumStride: real := 16.0
  const LargeStride: real := 32.0

  /** What one head needs: a non-empty batch whose images line up with the
      labels and the ground-truth lists, one raw anchor per grid cell and
      anchor prior, positive priors, `numClasses` class channels in both the
      output and the labels, and label and ground-truth boxes of
      non-negative size. */
  predicate HeadReady(conv: HeadOutput, targets: seq<seq<LabelAnchor>>, trueBoxes: seq<seq<Box>>,
                      anchors: seq<AnchorShape>, numClasses: nat)
  {
    && conv.grid > 0 && |anchors| > 0 && PositiveAnchors(anchors)
    && |conv.images| > 0 && |targets| == |conv.images| && |trueBoxes| == |conv.images|
    && forall b :: 0 <= b < |conv.images| ==>
      && |conv.images[b]| == conv.grid * conv.grid * |anchors|
      && |targets[b]| == |conv.images[b]|
      && ValidTruths(trueBoxes[b])
      && forall k :: 0 <= k < |conv.images[b]| ==>
        && |conv.images[b][k].classes| == numClasses
        && |targets[b][k].classes| == numClasses
        && HasNonNegativeSize(targets[b][k].box)
  }

  /** The decoded predictions of a ready head satisfy what the per-head
      loss demands of them. */
  lemma DecodedHeadIsValid(conv: HeadOutput, targets: seq<seq<LabelAnchor>>, trueBoxes: seq<seq<Box>>,
                           anchors: seq<AnchorShape>, numClasses: nat, stride: real, t: Transcendentals)
    requires Sound(t) && HeadReady(conv, targets, trueBoxes, anchors, numClasses)
    ensures ValidHead(conv.images, DecodeBatch(conv.images, conv.grid, anchors, stride, t), targets, trueBoxes)
  {
    var pred := DecodeBatch(conv.images, conv.grid, anchors, stride, t);
    forall b | 0 <= b < |conv.images|
      ensures ValidImage(conv.images[b], pred[b], targets[b])
    {
      forall k | 0 <= k < |conv.images[b]|
        ensures ValidAnchor(conv.images[b][k], pred[b][k], targets[b][k])
      {
        DecodedWellFormed(conv.images[b], conv.grid, anchors, stride, t, k);
      }
    }
  }

  /** One head: decode its output, then score it against its labels. */
  function HeadTerm(conv: HeadOutput, targets: seq<seq<LabelAnchor>>, trueBoxes: seq<seq<Box>>,
                    anchors: seq<AnchorShape>, numClasses: nat, stride: real, thresh: real, t: Transcendentals): Losses
    requires Sound(t) && stride > 0.0 && HeadReady(conv, targets, trueBoxes, anchors, numClasses)
  {
    DecodedHeadIsValid(conv, targets, trueBoxes, anchors, numClasses, stride, t);
    HeadLoss(conv.images, DecodeBatch(conv.images, conv.grid, anchors, stride, t), targets, trueBoxes,
             stride, conv.grid, thresh, t)
  }

  /** Each image's losses on one head. */
  function HeadImageLosses(conv: HeadOutput, targets: seq<seq<LabelAnchor>>, trueBoxes: seq<seq<Box>>,
                           anchors: seq<AnchorShape>, numClasses: nat, stride: real, thresh: real, t: Transcendentals): (ls: seq<Losses>)
    requires Sound(t) && stride > 0.0 && HeadReady(conv, targets, trueBoxes, anchors, numClasses)
    ensures |ls| == |conv.images|
  {
    DecodedHeadIsValid(conv, targets, trueBoxes, anchors, numClasses, stride, t);
    PerImageLosses(conv.images, DecodeBatch(conv.images, conv.grid, anchors, stride, t), targets, trueBoxes,
                   InputSize(stride, conv.grid), thresh, t)
  }

  /** All three heads are ready, each with its own anchor group. */
  predicate ArgsReady(args: LossArgs, numClasses: nat, anchors: seq<seq<AnchorShape>>)
  {
    && |anchors| >= 3
    && HeadReady(args.convS, args.labelS, args.trueBoxes, anchors[0], numClasses)
    && HeadReady(args.convM, args.labelM, args.trueBoxes, anchors[1], numClasses)
    && HeadReady(args.convL, args.labelL, args.trueBoxes, anchors[2], numClasses)
  }

  function SmallHead(args: LossArgs, numClasses: nat, thresh: real, anchors: seq<seq<AnchorShape>>, t: Transcendentals): Losses
    requires Sound(t) && ArgsReady(args, numClasses, anchors)
  {
    HeadTerm(args.convS, args.labelS, args.trueBoxes, anchors[0], numClasses, SmallStride, thresh, t)
  }

  function MediumHead(args: LossArgs, numClasses: nat, thresh: real, anchors: seq<seq<AnchorShape>>, t: Transcendentals): Losses
    requires Sound(t) && ArgsReady(args, numClasses, anchors)
  {
    HeadTerm(args.convM, args.labelM, args.trueBoxes, anchors[1], numClasses, MediumStride, thresh, t)
  }

  function LargeHead(args: LossArgs, numClasses: nat, thresh: real, anchors: seq<seq<AnchorShape>>, t: Transcendentals): Losses
    requires Sound(t) && ArgsReady(args, numClasses, anchors)
  {
    HeadTerm(args.convL, args.labelL, args.trueBoxes, anchors[2], numClasses, LargeStride, thresh, t)
  }

  /** `yolo_loss`: the localisation, objectness and class losses, each the
      sum of the three heads' values. */
  function Loss(args: LossArgs, numClasses: nat, thresh: real, anchors: seq<seq<AnchorShape>>, t: Transcendentals): Losses
    requires Sound(t) && ArgsReady(args, numClasses, anchors)
  {
    var s := SmallHead(args, numClasses, thresh, anchors, t);
    var m := MediumHead(args, numClasses, thresh, anchors, t);
    var l := LargeHead(args, numClasses, thresh, anchors, t);
    Losses(s.ciou + m.ciou + l.ciou, s.conf + m.conf + l.conf, s.prob + m.prob + l.prob)
  }

  /** Image-by-image sum of three heads' losses. */
  function Totals(s: seq<Losses>, m: seq<Losses>, l: seq<Losses>): (r: seq<Losses>)
    requires |s| == |m| == |l|
    ensures |r| == |s|
    ensures forall b :: 0 <= b < |r| ==>
      r[b].ciou == s[b].ciou + m[b].ciou + l[b].ciou
      && r[b].conf == s[b].conf + m[b].conf + l[b].conf
      && r[b].prob == s[b].prob + m[b].prob + l[b].prob
  {
    seq(|s|, b requires 0 <= b < |s| => Plus(Plus(s[b], m[b]), l[b]))
  }

  /** Batch means are additive across heads: the three heads' means add
      up to the mean of the image-by-image totals. */
  lemma BatchMeanAdditive(s: seq<Losses>, m: seq<Losses>, l: seq<Losses>)
    requires |s| == |m| == |l| > 0
    ensures var hs, hm, hl := BatchMean(s), BatchMean(m), BatchMean(l);
      BatchMean(Totals(s, m, l)) == Losses(hs.ciou + hm.ciou + hl.ciou, hs.conf + hm.conf + hl.conf, hs.prob + hm.prob + hl.prob)
  {
    var r := Totals(s, m, l);
    MeanAdd3(CiouParts(s), CiouParts(m), CiouParts(l));
    assert CiouParts(r) == Add3(CiouParts(s), CiouParts(m), CiouParts(l));
    MeanAdd3(ConfParts(s), ConfParts(m), ConfParts(l));
    assert ConfParts(r) == Add3(ConfParts(s), ConfParts(m), ConfParts(l));
    MeanAdd3(ProbParts(s), ProbParts(m), ProbParts(l));
    assert ProbParts(r) == Add3(ProbParts(s), ProbParts(m), ProbParts(l));
  }

  /** A head's loss is the batch mean of its per-image losses. */
  lemma HeadTermIsBatchMean(conv: HeadOutput, targets: seq<seq<LabelAnchor>>, trueBoxes: seq<seq<Box>>,
                            anchors: seq<AnchorShape>, numClasses: nat, stride: real, thresh: real, t: Transcendentals)
    requires Sound(t) && stride > 0.0 && HeadReady(conv, targets, trueBoxes, anchors, numClasses)
    ensures HeadTerm(conv, targets, trueBoxes, anchors, numClasses, stride, thresh, t)
         == BatchMean(HeadImageLosses(conv, targets, trueBoxes, anchors, numClasses, stride, thresh, t))
  {
  }

  /** The per-image totals over the three heads. */
  function ImageTotals(args: LossArgs, numClasses: nat, thresh: real, anchors: seq<seq<AnchorShape>>, t: Transcendentals): (ls: seq<Losses>)
    requires Sound(t) && ArgsReady(args, numClasses, anchors)
    ensures |ls| == |args.trueBoxes|
  {
    var s := HeadImageLosses(args.convS, args.labelS, args.trueBoxes, anchors[0], numClasses, SmallStride, thresh, t);
    var m := HeadImageLosses(args.convM, args.labelM, args.trueBoxes, anchors[1], numClasses, MediumStride, thresh, t);
    var l := HeadImageLosses(args.convL, args.labelL, args.trueBoxes, anchors[2], numClasses, LargeStride, thresh, t);
    Totals(s, m, l)
  }

  /** Summing the three heads' batch means is the same as averaging, over
      the batch, each image's total over the three heads: every component
      of the loss is a per-image sum averaged over the batch. */
  lemma LossIsBatchMeanOfImageTotals(args: LossArgs, numClasses: nat, thresh: real, anchors: seq<seq<AnchorShape>>, t: Transcendentals)
    requires Sound(t) && ArgsReady(args, numClasses, anchors)
    ensures Loss(args, numClasses, thresh, anchors, t) == BatchMean(ImageTotals(args, numClasses, thresh, anchors, t))
  {
    var s := HeadImageLosses(args.convS, args.labelS, args.trueBoxes, anchors[0], numClasses, SmallStride, thresh, t);
    var m := HeadImageLosses(args.convM, args.labelM, args.trueBoxes, anchors[1], numClasses, MediumStride, thresh, t);
    var l := HeadImageLosses(args.convL, args.labelL, args.trueBoxes, anchors[2], numClasses, LargeStride, thresh, t);
    var hs := SmallHead(args, numClasses, thresh, anchors, t);
    var hm := MediumHead(args, numClasses, thresh, anchors, t);
    var hl := LargeHead(args, numClasses, thresh, anchors, t);
    assert hs == BatchMean(s) by {
      HeadTermIsBatchMean(args.convS, args.labelS, args.trueBoxes, anchors[0], numClasses, SmallStride, thresh, t);
    }
    assert hm == BatchMean(m) by {
      HeadTermIsBatchMean(args.convM, args.labelM, args.trueBoxes, anchors[1], numClasses, MediumStride, thresh, t);
    }
    assert hl == BatchMean(l) by {
      HeadTermIsBatchMean(args.convL, args.labelL, args.trueBoxes, anchors[2], numClasses, LargeStride, thresh, t);
    }
    BatchMeanAdditive(s, m, l);
    assert ImageTotals(args, numClasses, thresh, anchors, t) == Totals(s, m, l);
    assert Loss(args, numClasses, thresh, anchors, t)
        == Losses(hs.ciou + hm.ciou + hl.ciou, hs.conf + hm.conf + hl.conf, hs.prob + hm.prob + hl.prob);

  }

  /** No label of any head marks a responsible anchor. */
  predicate NoObjects(args: LossArgs)
  {
    && (forall b, k :: 0 <= b < |args.labelS| && 0 <= k < |args.labelS[b]| ==> args.labelS[b][k].respond == 0.0)
    && (forall b, k :: 0 <= b < |args.labelM| && 0 <= k < |args.labelM[b]| ==> args.labelM[b][k].respond == 0.0)
    && (forall b, k :: 0 <= b < |args.labelL| && 0 <= k < |args.labelL[b]| ==> args.labelL[b][k].respond == 0.0)
  }

  /** A batch without objects has no localisation and no class loss; only
      the objectness loss, which pushes every confidence down, remains. */
  lemma NoObjectsOnlyObjectnessLoss(args: LossArgs, numClasses: nat, thresh: real, anchors: seq<seq<AnchorShape>>, t: Transcendentals)
    requires Sound(t) && ArgsReady(args, numClasses, anchors) && NoObjects(args)
    ensures Loss(args, numClasses, thresh, anchors, t).ciou == 0.0
    ensures Loss(args, numClasses, thresh, anchors, t).prob == 0.0
  {
    var hs := SmallHead(args, numClasses, thresh, anchors, t);
    var hm := MediumHead(args, numClasses, thresh, anchors, t);
    var hl := LargeHead(args, numClasses, thresh, anchors, t);
    assert hs.ciou == 0.0 && hs.prob == 0.0 by {
      DecodedHeadIsValid(args.convS, args.labelS, args.trueBoxes, anchors[0], numClasses, SmallStride, t);
      HeadWithoutObjects(args.convS.images, DecodeBatch(args.convS.images, args.convS.grid, anchors[0], SmallStride, t),
                         args.labelS, args.trueBoxes, SmallStride, args.convS.grid, thresh, t);
    }
    assert hm.ciou == 0.0 && hm.prob == 0.0 by {
      DecodedHeadIsValid(args.convM, args.labelM, args.trueBoxes, anchors[1], numClasses, MediumStride, t);
      HeadWithoutObjects(args.convM.images, DecodeBatch(args.convM.images, args.convM.grid, anchors[1], MediumStride, t),
                         args.labelM, args.trueBoxes, MediumStride, args.convM.grid, thresh, t);
    }
    assert hl.ciou == 0.0 && hl.prob == 0.0 by {
      DecodedHeadIsValid(args.convL, args.labelL, args.trueBoxes, anchors[2], numClasses, LargeStride, t);
      HeadWithoutObjects(args.convL.images, DecodeBatch(args.convL.images, args.convL.grid, anchors[2], LargeStride, t),
                         args.labelL, args.trueBoxes, LargeStride, args.convL.grid, thresh, t);
    }
  }
}
