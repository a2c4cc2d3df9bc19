/**
 * Region-proposal training targets for anchors: which anchors lie inside
 * the image, the label / weight / regression buffers written at the
 * sampled positive and negative anchors, and the per-level split of those
 * buffers across a batch. The assigner, the sampler and the box encoding
 * (`bbox2delta`) are inputs.
 */
module AnchorTarget {
  import opened Wrappers
  import opened Boxes
  import opened Masks
  import opened Levels

  /** The fields of the RPN training config that the code reads. */
  datatype TrainCfg = TrainCfg(allowedBorder: int, posWeight: real)

  /**
   * The sampler's result for one image: positive and negative indices into
   * the inside anchors, and the gt box assigned to each positive.
   */
  datatype Sampling = Sampling(posInds: seq<nat>, negInds: seq<nat>, posAssignedGtInds: seq<nat>)

  /** The per-image arguments: gt boxes and labels, `img_shape[:2]` and the sampler's result. */
  datatype ImageInput = ImageInput(
    gtBboxes: Option<seq<Box>>,
    gtLabels: Option<seq<int>>,
    imgH: int,
    imgW: int,
    sampling: Sampling)

  datatype SingleTargets = SingleTargets(
    labels: seq<int>,
    labelWeights: seq<real>,
    bboxTargets: seq<Box>,
    bboxWeights: seq<Box>,
    posInds: Option<seq<nat>>,
    negInds: Option<seq<nat>>)

  /** An entry of `anchor_list` / `valid_flag_list`: a list of per-level tensors, or their concatenation. */
  datatype Entry<T> = PerLevel(levels: seq<seq<T>>) | Flat(flat: seq<T>)

  datatype AnchorTargets = AnchorTargets(
    labelsList: seq<Level<int>>,
    labelWeightsList: seq<Level<real>>,
    bboxTargetsList: seq<Level<Box>>,
    bboxWeightsList: seq<Level<Box>>,
    numTotalPos: real,
    numTotalNeg: real)

  datatype AnchorError =
    | ImageCountMismatch       // assert len(anchor_list) == len(valid_flag_list) == num_imgs
    | NoImages                 // anchor_list[0] of an empty batch
    | LevelCountMismatch       // assert len(anchor_list[i]) == len(valid_flag_list[i])
    | PositiveWeight           // assert cfg.pos_weight <= 0
    | LabelWeightSumMismatch   // assert label_weights.sum() == len(pos_inds) + len(neg_inds)
    | StackSizeMismatch        // torch.stack of per-image targets of different lengths

  // ---------------------------------------------------------------------
  // anchor_inside_flags

  predicate Inside(a: Box, imgH: int, imgW: int, border: int) {
    && a.x1 >= -(border as real)
    && a.y1 >= -(border as real)
    && a.x2 < (imgW + border) as real
    && a.y2 < (imgH + border) as real
  }

  /** `anchor_inside_flags`: a valid anchor within `allowed_border` of the image; a negative border keeps the valid flags. */
  function AnchorInsideFlags(anchors: seq<Box>, valid: seq<bool>, imgH: int, imgW: int, allowedBorder: int): (r: seq<bool>)
    requires |valid| == |anchors|
    ensures |r| == |anchors|
    ensures allowedBorder >= 0 ==> forall i :: 0 <= i < |r| ==>
      (r[i] <==> && valid[i]
                 && anchors[i].x1 >= -(allowedBorder as real)
                 && anchors[i].y1 >= -(allowedBorder as real)
                 && anchors[i].x2 < (imgW + allowedBorder) as real
                 && anchors[i].y2 < (imgH + allowedBorder) as real)
    ensures allowedBorder < 0 ==> r == valid
  {
    if allowedBorder >= 0 then
      seq(|anchors|, i requires 0 <= i < |anchors| => valid[i] && Inside(anchors[i], imgH, imgW, allowedBorder))
    else valid
  }

  /** Widening a non-negative border only adds anchors. */
  lemma InsideFlagsMonotone(anchors: seq<Box>, valid: seq<bool>, imgH: int, imgW: int, b1: int, b2: int, i: nat)
    requires |valid| == |anchors| && i < |anchors|
    requires 0 <= b1 <= b2
    requires AnchorInsideFlags(anchors, valid, imgH, imgW, b1)[i]
    ensures AnchorInsideFlags(anchors, valid, imgH, imgW, b2)[i]
  {
  }

  /** With a zero border, the inside anchors are exactly the valid anchors lying within the image. */
  lemma InsideFlagsZeroBorder(anchors: seq<Box>, valid: seq<bool>, imgH: int, imgW: int, i: nat)
    requires |valid| == |anchors| && i < |anchors|
    ensures AnchorInsideFlags(anchors, valid, imgH, imgW, 0)[i] <==>
      && valid[i]
      && 0.0 <= anchors[i].x1 && anchors[i].x2 < imgW as real
      && 0.0 <= anchors[i].y1 && anchors[i].y2 < imgH as real
  {
  }

  // ---------------------------------------------------------------------
  // The target buffers of one image, over its inside anchors

  predicate HasGt(img: ImageInput) {
    img.gtBboxes.Some? && |img.gtBboxes.value| > 0
  }

  /** The sampler's guarantees: indices in range, one assigned gt box per positive. */
  predicate SamplingFits(s: Sampling, n: nat, numGt: nat, gtLabels: Option<seq<int>>) {
    && |s.posAssignedGtInds| == |s.posInds|
    && (forall k :: 0 <= k < |s.posInds| ==> s.posInds[k] < n)
    && (forall k :: 0 <= k < |s.posAssignedGtInds| ==>
          s.posAssignedGtInds[k] < numGt && (gtLabels.Some? ==> s.posAssignedGtInds[k] < |gtLabels.value|))
    && (forall k :: 0 <= k < |s.negInds| ==> s.negInds[k] < n)
  }

  function InsideOf(flat: seq<Box>, valid: seq<bool>, img: ImageInput, cfg: TrainCfg): seq<bool>
    requires |valid| == |flat|
  {
    AnchorInsideFlags(flat, valid, img.imgH, img.imgW, cfg.allowedBorder)
  }

  /** What `anchor_target_single` needs of its arguments. */
  predicate SingleInputOk(flat: seq<Box>, valid: seq<bool>, img: ImageInput, cfg: TrainCfg) {
    && |valid| == |flat|
    && (HasGt(img) ==>
          SamplingFits(img.sampling, CountTrue(InsideOf(flat, valid, img, cfg)), |img.gtBboxes.value|, img.gtLabels))
  }

  /** The position of the last write to slot `x` in `s`, or -1. */
  function LastIndexOf(s: seq<nat>, x: nat): (r: int)
    ensures -1 <= r < |s|
    ensures r >= 0 ==> s[r] == x
    ensures r >= 0 ==> forall m :: r < m < |s| ==> s[m] != x
    ensures r >= 0 <==> x in s
  {
    if s == [] then -1
    else if s[|s| - 1] == x then |s| - 1
    else LastIndexOf(s[..|s| - 1], x)
  }

  /** The label of the `k`-th positive: 1, or the label of its assigned gt box. */
  function PosLabel(s: Sampling, gtLabels: Option<seq<int>>, k: nat): int
    requires k < |s.posAssignedGtInds|
    requires gtLabels.Some? ==> s.posAssignedGtInds[k] < |gtLabels.value|
  {
    match gtLabels
    case None => 1
    case Some(l) => l[s.posAssignedGtInds[k]]
  }

  function LabelsInside(n: nat, s: Sampling, gtLabels: Option<seq<int>>): (r: seq<int>)
    requires SamplingFitsLabels(s, gtLabels)
    ensures |r| == n
  {
    seq(n, i requires 0 <= i < n =>
      var k := LastIndexOf(s.posInds, i);
      if k < 0 then 0 else PosLabel(s, gtLabels, k))
  }

  predicate SamplingFitsLabels(s: Sampling, gtLabels: Option<seq<int>>) {
    && |s.posAssignedGtInds| == |s.posInds|
    && (forall k :: 0 <= k < |s.posAssignedGtInds| ==>
          gtLabels.Some? ==> s.posAssignedGtInds[k] < |gtLabels.value|)
  }

  function LabelWeightsInside(n: nat, s: Sampling): (r: seq<real>)
    ensures |r| == n
  {
    seq(n, i requires 0 <= i < n => if i in s.posInds || i in s.negInds then 1.0 else 0.0)
  }

  function BboxTargetsInside(anchors: seq<Box>, gt: seq<Box>, s: Sampling, encode: (Box, Box) -> Box): (r: seq<Box>)
    requires |s.posAssignedGtInds| == |s.posInds|
    requires forall k :: 0 <= k < |s.posAssignedGtInds| ==> s.posAssignedGtInds[k] < |gt|
    ensures |r| == |anchors|
  {
    seq(|anchors|, i requires 0 <= i < |anchors| =>
      var k := LastIndexOf(s.posInds, i);
      if k < 0 then ZeroBox else encode(anchors[i], gt[s.posAssignedGtInds[k]]))
  }

  function BboxWeightsInside(n: nat, s: Sampling): (r: seq<Box>)
    ensures |r| == n
  {
    seq(n, i requires 0 <= i < n => if i in s.posInds then OneBox else ZeroBox)
  }

  /** A buffer over the inside anchors, unmapped to all anchors when asked. */
  function Expand<T>(x: seq<T>, inside: seq<bool>, fill: T, unmapOutputs: bool): seq<T>
    requires CountTrue(inside) == |x|
  {
    if unmapOutputs then Scatter(x, inside, fill) else x
  }

  predicate Distinct(s: seq<nat>) {
    forall a, b :: 0 <= a < b < |s| ==> s[a] != s[b]
  }

  /**
   * The assertion an image fails, if any: only an image with inside
   * anchors and gt boxes is checked, first for a positive `pos_weight`
   * with some positive, then for an anchor sampled twice (which is when
   * the label weights' sum falls short of the sample count).
   */
  function ExpectedError(flat: seq<Box>, valid: seq<bool>, img: ImageInput, cfg: TrainCfg): Option<AnchorError>
    requires |valid| == |flat|
  {
    var s := img.sampling;
    if !AnyTrue(InsideOf(flat, valid, img, cfg)) || !HasGt(img) then None
    else if |s.posInds| > 0 && cfg.posWeight > 0.0 then Some(PositiveWeight)
    else if !Distinct(s.posInds + s.negInds) then Some(LabelWeightSumMismatch)
    else None
  }

  /** `t` is what `anchor_target_single` returns for an image with some inside anchor. */
  predicate TargetsFor(t: SingleTargets, flat: seq<Box>, valid: seq<bool>, img: ImageInput, cfg: TrainCfg,
                       encode: (Box, Box) -> Box, unmapOutputs: bool)
    requires SingleInputOk(flat, valid, img, cfg)
  {
    var inside := InsideOf(flat, valid, img, cfg);
    var n := CountTrue(inside);
    var s := img.sampling;
    if !HasGt(img) then
      t == SingleTargets(
        seq(|flat|, i => 0),
        seq(|flat|, i requires 0 <= i < |flat| => if inside[i] then 1.0 else 0.0),
        seq(|flat|, i => ZeroBox),
        seq(|flat|, i => ZeroBox),
        None, None)
    else
      && Distinct(s.posInds + s.negInds)
      && t == SingleTargets(
           Expand(LabelsInside(n, s, img.gtLabels), inside, 0, unmapOutputs),
           Expand(LabelWeightsInside(n, s), inside, 0.0, unmapOutputs),
           Expand(BboxTargetsInside(Select(flat, inside), img.gtBboxes.value, s, encode), inside, ZeroBox, unmapOutputs),
           Expand(BboxWeightsInside(n, s), inside, ZeroBox, unmapOutputs),
           Some(s.posInds), Some(s.negInds))
  }

  function Column0(ws: seq<Box>): (r: seq<real>)
    ensures |r| == |ws|
  {
    seq(|ws|, i requires 0 <= i < |ws| => ws[i].x1)
  }

  // ---------------------------------------------------------------------
  // anchor_target_single

  /** `base` after `base[inds] = vals`: a written slot holds the value of its last write. */
  function Written<T>(base: seq<T>, inds: seq<nat>, vals: seq<T>): (r: seq<T>)
    requires |vals| == |inds|
    ensures |r| == |base|
  {
    seq(|base|, i requires 0 <= i < |base| =>
      var k := LastIndexOf(inds, i);
      if k < 0 then base[i] else vals[k])
  }

  /** One indexed assignment `a[inds] = vals`, row by row. */
  method WriteRows<T>(a: array<T>, inds: seq<nat>, vals: seq<T>)
    requires |vals| == |inds|
    requires forall k :: 0 <= k < |inds| ==> inds[k] < a.Length
    modifies a
    ensures a[..] == Written(old(a[..]), inds, vals)
  {
    ghost var base := a[..];
    for k := 0 to |inds|
      invariant a[..] == Written(base, inds[..k], vals[..k])
    {
      assert inds[..k + 1][..k] == inds[..k];
      assert vals[..k + 1][..k] == vals[..k];
      a[inds[k]] := vals[k];
    }
    assert inds[..|inds|] == inds && vals[..|vals|] == vals;
  }

  function Const<T>(n: nat, v: T): (r: seq<T>)
    ensures |r| == n
  {
    seq(n, i => v)
  }

  /** `bbox2delta(pos_bboxes, pos_gt_bboxes)`: one regression target per positive. */
  function PosTargets(anchors: seq<Box>, gt: seq<Box>, s: Sampling, encode: (Box, Box) -> Box): (r: seq<Box>)
    requires SamplingFits(s, |anchors|, |gt|, None)
    ensures |r| == |s.posInds|
  {
    seq(|s.posInds|, k requires 0 <= k < |s.posInds| => encode(anchors[s.posInds[k]], gt[s.posAssignedGtInds[k]]))
  }

  function PosLabels(s: Sampling, gtLabels: Option<seq<int>>): (r: seq<int>)
    requires SamplingFitsLabels(s, gtLabels)
    ensures |r| == |s.posInds|
  {
    seq(|s.posInds|, k requires 0 <= k < |s.posInds| => PosLabel(s, gtLabels, k))
  }

  /**
   * The writes into the zeroed buffers: regression targets, regression
   * weights and labels at the positives, then label weights at the
   * positives and at the negatives.
   */
  method WriteTargets(anchors: seq<Box>, gt: seq<Box>, gtLabels: Option<seq<int>>, s: Sampling, encode: (Box, Box) -> Box)
    returns (labels: seq<int>, labelWeights: seq<real>, bboxTargets: seq<Box>, bboxWeights: seq<Box>)
    requires SamplingFits(s, |anchors|, |gt|, gtLabels)
    ensures labels == LabelsInside(|anchors|, s, gtLabels)
    ensures labelWeights == LabelWeightsInside(|anchors|, s)
    ensures bboxTargets == BboxTargetsInside(anchors, gt, s, encode)
    ensures bboxWeights == BboxWeightsInside(|anchors|, s)
  {
    var n := |anchors|;
    var pos, neg := s.posInds, s.negInds;
    var bt := new Box[n](_ => ZeroBox);
    var bw := new Box[n](_ => ZeroBox);
    var lb := new int[n](_ => 0);
    var lw := new real[n](_ => 0.0);
    assert bt[..] == Const(n, ZeroBox) && bw[..] == Const(n, ZeroBox);
    assert lb[..] == Const(n, 0) && lw[..] == Const(n, 0.0);
    if |pos| > 0 {
      WriteRows(bt, pos, PosTargets(anchors, gt, s, encode));
      bboxTargets := bt[..];
      WriteRows(bw, pos, Const(|pos|, OneBox));
      bboxWeights := bw[..];
      WriteRows(lb, pos, PosLabels(s, gtLabels));
      labels := lb[..];
      WriteRows(lw, pos, Const(|pos|, 1.0));
      assert bt[..] == bboxTargets && bw[..] == bboxWeights;
    } else {
      labels, bboxTargets, bboxWeights := lb[..], bt[..], bw[..];
      WrittenNothing(labels, pos, PosLabels(s, gtLabels));
      WrittenNothing(bboxTargets, pos, PosTargets(anchors, gt, s, encode));
      WrittenNothing(bboxWeights, pos, Const(|pos|, OneBox));
      WrittenNothing(lw[..], pos, Const(|pos|, 1.0));
    }
    ghost var lwPos := lw[..];
    if |neg| > 0 {
      WriteRows(lw, neg, Const(|neg|, 1.0));
    }
    labelWeights := lw[..];
    PositivesWritten(anchors, gt, gtLabels, s, encode);
    assert lwPos == Written(Const(n, 0.0), pos, Const(|pos|, 1.0));
    assert labelWeights == Written(lwPos, neg, Const(|neg|, 1.0));
    LabelWeightsWritten(n, s);
  }

  lemma WrittenNothing<T>(base: seq<T>, inds: seq<nat>, vals: seq<T>)
    requires |vals| == |inds| == 0
    ensures Written(base, inds, vals) == base
  {
  }

  /** The buffers written at the positives only, as the inside-space functions describe them. */
  lemma PositivesWritten(anchors: seq<Box>, gt: seq<Box>, gtLabels: Option<seq<int>>, s: Sampling, encode: (Box, Box) -> Box)
    requires SamplingFits(s, |anchors|, |gt|, gtLabels)
    ensures Written(Const(|anchors|, 0), s.posInds, PosLabels(s, gtLabels)) == LabelsInside(|anchors|, s, gtLabels)
    ensures Written(Const(|anchors|, ZeroBox), s.posInds, PosTargets(anchors, gt, s, encode))
            == BboxTargetsInside(anchors, gt, s, encode)
    ensures Written(Const(|anchors|, ZeroBox), s.posInds, Const(|s.posInds|, OneBox)) == BboxWeightsInside(|anchors|, s)
  {
  }

  /** Label weights: one at every positive and every negative, zero elsewhere. */
  lemma LabelWeightsWritten(n: nat, s: Sampling)
    ensures Written(Written(Const(n, 0.0), s.posInds, Const(|s.posInds|, 1.0)), s.negInds, Const(|s.negInds|, 1.0))
            == LabelWeightsInside(n, s)
  {
  }

  /** The four `unmap` calls: each buffer over the inside anchors scattered back over all `count` anchors. */
  method UnmapTargets(labels: seq<int>, labelWeights: seq<real>, bboxTargets: seq<Box>, bboxWeights: seq<Box>,
                      count: nat, inside: seq<bool>)
    returns (labelsAll: seq<int>, labelWeightsAll: seq<real>, bboxTargetsAll: seq<Box>, bboxWeightsAll: seq<Box>)
    requires |inside| == count
    requires |labels| == |labelWeights| == |bboxTargets| == |bboxWeights| == CountTrue(inside)
    ensures labelsAll == Scatter(labels, inside, 0)
    ensures labelWeightsAll == Scatter(labelWeights, inside, 0.0)
    ensures bboxTargetsAll == Scatter(bboxTargets, inside, ZeroBox)
    ensures bboxWeightsAll == Scatter(bboxWeights, inside, ZeroBox)
  {
    labelsAll := Unmap(labels, count, inside, 0);
    labelWeightsAll := Unmap(labelWeights, count, inside, 0.0);
    bboxTargetsAll := Unmap(bboxTargets, count, inside, ZeroBox);
    bboxWeightsAll := Unmap(bboxWeights, count, inside, ZeroBox);
  }

  /** An image without gt boxes: every inside anchor a negative of weight one, no regression targets. */
  method NoGtTargets(count: nat, inside: seq<bool>) returns (t: SingleTargets)
    requires |inside| == count
    ensures t == SingleTargets(
      seq(count, i => 0),
      seq(count, i requires 0 <= i < count => if inside[i] then 1.0 else 0.0),
      seq(count, i => ZeroBox),
      seq(count, i => ZeroBox),
      None, None)
  {
    var n := CountTrue(inside);
    var labels, labelWeights, bboxTargets, bboxWeights :=
      UnmapTargets(Const(n, 0), Const(n, 1.0), Const(n, ZeroBox), Const(n, ZeroBox), count, inside);
    ScatterConstant(0, inside, 0);
    ScatterConstant(1.0, inside, 0.0);
    ScatterConstant(ZeroBox, inside, ZeroBox);
    t := SingleTargets(labels, labelWeights, bboxTargets, bboxWeights, None, None);
  }

  /**
   * `anchor_target_single`: nothing when no anchor is inside; with no gt
   * boxes, unit label weights on the inside anchors and zeros elsewhere;
   * otherwise the sampled buffers, unmapped on request, after the checks
   * on `pos_weight` and on the label-weight sum.
   */
  method AnchorTargetSingle(flat: seq<Box>, valid: seq<bool>, img: ImageInput, cfg: TrainCfg,
                            encode: (Box, Box) -> Box, unmapOutputs: bool)
    returns (r: Result<Option<SingleTargets>, AnchorError>)
    requires SingleInputOk(flat, valid, img, cfg)
    ensures r == Ok(None) <==> !AnyTrue(InsideOf(flat, valid, img, cfg))
    ensures r.Err? <==> ExpectedError(flat, valid, img, cfg).Some?
    ensures r.Err? ==> ExpectedError(flat, valid, img, cfg) == Some(r.error)
    ensures r.Ok? && r.value.Some? ==> TargetsFor(r.value.value, flat, valid, img, cfg, encode, unmapOutputs)
  {
    var inside := AnchorInsideFlags(flat, valid, img.imgH, img.imgW, cfg.allowedBorder);
    if !AnyTrue(inside) {
      return Ok(None);
    }
    var anchors := Select(flat, inside);
    var n := |anchors|;
    if !HasGt(img) {
      var t := NoGtTargets(|flat|, inside);
      return Ok(Some(t));
    }
    var s := img.sampling;
    if |s.posInds| > 0 && cfg.posWeight > 0.0 {
      return Err(PositiveWeight);
    }
    var labels, labelWeights, bboxTargets, bboxWeights := WriteTargets(anchors, img.gtBboxes.value, img.gtLabels, s, encode);
    if unmapOutputs {
      labels, labelWeights, bboxTargets, bboxWeights :=
        UnmapTargets(labels, labelWeights, bboxTargets, bboxWeights, |flat|, inside);
      SumScatterZero(LabelWeightsInside(n, s), inside);
    }
    LabelWeightSumIffDistinct(n, s);
    if Sum(labelWeights) != (|s.posInds| + |s.negInds|) as real {
      return Err(LabelWeightSumMismatch);
    }
    r := Ok(Some(SingleTargets(labels, labelWeights, bboxTargets, bboxWeights, Some(s.posInds), Some(s.negInds))));
  }

  // ---------------------------------------------------------------------
  // Lemmas about one image's targets

  lemma ScatterConstant<T>(v: T, m: seq<bool>, fill: T)
    ensures Scatter(seq(CountTrue(m), i => v), m, fill) ==
            seq(|m|, i requires 0 <= i < |m| => if m[i] then v else fill)
  {
    forall i | 0 <= i < |m| && m[i] {
      RankBelowCount(m, i);
    }
  }

  function Elems(s: seq<nat>): set<nat> {
    set x | x in s
  }

  /** A sequence has as many distinct items as entries exactly when no item repeats. */
  lemma {:induction false} DistinctCard(s: seq<nat>)
    ensures |Elems(s)| <= |s|
    ensures |Elems(s)| == |s| <==> Distinct(s)
  {
    if s != [] {
      var n := |s| - 1;
      var p, x := s[..n], s[n];
      DistinctCard(p);
      assert s == p + [x];
      assert Elems(s) == Elems(p) + {x};
      if x in p {
        assert Elems(s) == Elems(p);
        var j :| 0 <= j < n && p[j] == x;
        assert s[j] == s[n];
      } else {
        assert x !in Elems(p);
        DistinctAppend(p, x);
      }
    }
  }

  /** Appending an item not already present keeps a sequence free of repeats, and only then. */
  lemma DistinctAppend(p: seq<nat>, x: nat)
    requires x !in p
    ensures Distinct(p + [x]) <==> Distinct(p)
  {
    var s := p + [x];
    if Distinct(p) {
      forall a, b | 0 <= a < b < |s| ensures s[a] != s[b] {
        if b == |p| { assert s[a] == p[a]; }
        else { assert s[a] == p[a] && s[b] == p[b]; }
      }
    }
    if Distinct(s) {
      forall a, b | 0 <= a < b < |p| ensures p[a] != p[b] {
        assert p[a] == s[a] && p[b] == s[b];
      }
    }
  }

  /** The sum of a 0/1 indicator over `[0, n)` counts the members of `xs` below `n`. */
  lemma {:induction false} SumIndicator(n: nat, xs: seq<nat>)
    ensures Sum(seq(n, i requires 0 <= i < n => if i in xs then 1.0 else 0.0))
            == |set i | 0 <= i < n && i in xs| as real
  {
    if n > 0 {
      SumIndicator(n - 1, xs);
      var w := seq(n, i requires 0 <= i < n => if i in xs then 1.0 else 0.0);
      assert w[..n - 1] == seq(n - 1, i requires 0 <= i < n - 1 => if i in xs then 1.0 else 0.0);
      var below := set i | 0 <= i < n - 1 && i in xs;
      var upto := set i | 0 <= i < n && i in xs;
      if n - 1 in xs {
        assert upto == below + {n - 1};
      } else {
        assert upto == below;
      }
    }
  }

  /**
   * The asserted identity `sum(label_weights) == len(pos) + len(neg)` holds
   * exactly when no anchor is sampled twice, as positive or negative.
   */
  lemma LabelWeightSumIffDistinct(n: nat, s: Sampling)
    requires forall k :: 0 <= k < |s.posInds| ==> s.posInds[k] < n
    requires forall k :: 0 <= k < |s.negInds| ==> s.negInds[k] < n
    ensures Sum(LabelWeightsInside(n, s)) == (|s.posInds| + |s.negInds|) as real
            <==> Distinct(s.posInds + s.negInds)
  {
    var xs := s.posInds + s.negInds;
    assert LabelWeightsInside(n, s) == seq(n, i requires 0 <= i < n => if i in xs then 1.0 else 0.0);
    SumIndicator(n, xs);
    assert (set i | 0 <= i < n && i in xs) == Elems(xs);
    DistinctCard(xs);
  }

  /** The regression weights' first column sums to the number of distinct positives. */
  lemma BboxWeightCount(n: nat, s: Sampling)
    requires forall k :: 0 <= k < |s.posInds| ==> s.posInds[k] < n
    ensures Sum(Column0(BboxWeightsInside(n, s))) == |Elems(s.posInds)| as real
  {
    assert Column0(BboxWeightsInside(n, s)) == seq(n, i requires 0 <= i < n => if i in s.posInds then 1.0 else 0.0);
    SumIndicator(n, s.posInds);
    assert (set i | 0 <= i < n && i in s.posInds) == Elems(s.posInds);
  }

  lemma {:induction false} SumMaskIndicator(m: seq<bool>)
    ensures Sum(seq(|m|, i requires 0 <= i < |m| => if m[i] then 1.0 else 0.0)) == CountTrue(m) as real
  {
    if m != [] {
      var n := |m| - 1;
      SumMaskIndicator(m[..n]);
      assert seq(|m|, i requires 0 <= i < |m| => if m[i] then 1.0 else 0.0)[..n]
          == seq(n, i requires 0 <= i < n => if m[..n][i] then 1.0 else 0.0);
    }
  }

  lemma {:induction false} SumZeroColumn(k: nat)
    ensures Sum(Column0(seq(k, i => ZeroBox))) == 0.0
  {
    if k > 0 {
      SumZeroColumn(k - 1);
      assert Column0(seq(k, i => ZeroBox))[..k - 1] == Column0(seq(k - 1, i => ZeroBox));
    }
  }

  lemma Column0Scatter(x: seq<Box>, m: seq<bool>)
    requires CountTrue(m) == |x|
    ensures Column0(Scatter(x, m, ZeroBox)) == Scatter(Column0(x), m, 0.0)
  {
    forall i | 0 <= i < |m| && m[i] {
      RankBelowCount(m, i);
    }
  }

  /**
   * For the targets of one image: the regression weights count the
   * positives and the label weights count every sampled anchor (with no
   * gt boxes: every inside anchor, all of them negatives).
   */
  lemma SingleTargetCounts(t: SingleTargets, flat: seq<Box>, valid: seq<bool>, img: ImageInput, cfg: TrainCfg,
                           encode: (Box, Box) -> Box, unmapOutputs: bool)
    requires SingleInputOk(flat, valid, img, cfg)
    requires TargetsFor(t, flat, valid, img, cfg, encode, unmapOutputs)
    ensures Sum(Column0(t.bboxWeights)) == (if HasGt(img) then |img.sampling.posInds| else 0) as real
    ensures Sum(t.labelWeights) ==
      (if HasGt(img) then |img.sampling.posInds| + |img.sampling.negInds|
       else CountTrue(InsideOf(flat, valid, img, cfg))) as real
  {
    var inside := InsideOf(flat, valid, img, cfg);
    var n := CountTrue(inside);
    var s := img.sampling;
    if !HasGt(img) {
      SumZeroColumn(|flat|);
      SumMaskIndicator(inside);
    } else {
      LabelWeightSumIffDistinct(n, s);
      BboxWeightCount(n, s);
      DistinctCard(s.posInds);
      assert Distinct(s.posInds) by {
        forall a, b | 0 <= a < b < |s.posInds| ensures s.posInds[a] != s.posInds[b] {
          assert (s.posInds + s.negInds)[a] == s.posInds[a];
          assert (s.posInds + s.negInds)[b] == s.posInds[b];
        }
      }
      if unmapOutputs {
        SumScatterZero(LabelWeightsInside(n, s), inside);
        Column0Scatter(BboxWeightsInside(n, s), inside);
        SumScatterZero(Column0(BboxWeightsInside(n, s)), inside);
      }
    }
  }

  // ---------------------------------------------------------------------
  // anchor_target

  /** `num_total_pos`: the regression weights' first column, summed over the batch. */
  function TotalPos(ts: seq<SingleTargets>): real {
    if ts == [] then 0.0 else TotalPos(ts[..|ts| - 1]) + Sum(Column0(ts[|ts| - 1].bboxWeights))
  }

  /** `num_total`: the label weights, summed over the batch. */
  function TotalWeight(ts: seq<SingleTargets>): real {
    if ts == [] then 0.0 else TotalWeight(ts[..|ts| - 1]) + Sum(ts[|ts| - 1].labelWeights)
  }

  /** The two accumulation loops of `anchor_target`. */
  method CountSamples(targets: seq<SingleTargets>) returns (numTotalPos: real, numTotalNeg: real)
    ensures numTotalPos == TotalPos(targets)
    ensures numTotalNeg == TotalWeight(targets) - TotalPos(targets)
  {
    var numTotal := 0.0;
    for i := 0 to |targets|
      invariant numTotal == TotalWeight(targets[..i])
    {
      assert targets[..i + 1][..i] == targets[..i];
      numTotal := Sum(targets[i].labelWeights) + numTotal;
    }
    numTotalPos := 0.0;
    for i := 0 to |targets|
      invariant numTotalPos == TotalPos(targets[..i])
    {
      assert targets[..i + 1][..i] == targets[..i];
      numTotalPos := Sum(Column0(targets[i].bboxWeights)) + numTotalPos;
    }
    assert targets[..|targets|] == targets;
    numTotalNeg := numTotal - numTotalPos;
  }

  function FlatOf<T>(e: Entry<T>): seq<T> {
    match e
    case PerLevel(ls) => Flatten(ls)
    case Flat(f) => f
  }

  predicate LevelCountsMatch(a: Entry<Box>, v: Entry<bool>)
    requires a.PerLevel? && v.PerLevel?
  {
    |a.levels| == |v.levels|
  }

  /** The first image whose anchor and flag level counts differ, or the batch size. */
  function FirstMismatch(a: seq<Entry<Box>>, v: seq<Entry<bool>>): (r: nat)
    requires |a| == |v|
    requires forall i :: 0 <= i < |a| ==> a[i].PerLevel? && v[i].PerLevel?
    ensures r <= |a|
    ensures forall i :: 0 <= i < r ==> LevelCountsMatch(a[i], v[i])
    ensures r < |a| ==> !LevelCountsMatch(a[r], v[r])
  {
    if a == [] then 0
    else if !LevelCountsMatch(a[0], v[0]) then 0
    else 1 + FirstMismatch(a[1..], v[1..])
  }

  /** One image's inputs, as the loader passes them: per-level anchors and flags, one flag per anchor. */
  predicate ImageReady(a: Entry<Box>, v: Entry<bool>, img: ImageInput, cfg: TrainCfg) {
    && a.PerLevel? && v.PerLevel?
    && (|a.levels| == |v.levels| ==> SingleInputOk(FlatOf(a), FlatOf(v), img, cfg))
  }

  /** A batch that passes the checks on image and level counts. */
  predicate BatchOk(a: seq<Entry<Box>>, v: seq<Entry<bool>>, images: seq<ImageInput>, cfg: TrainCfg) {
    && |a| == |v| == |images| > 0
    && (forall i :: 0 <= i < |a| ==> a[i].PerLevel? && v[i].PerLevel?)
    && FirstMismatch(a, v) == |a|
    && (forall i :: 0 <= i < |a| ==> |FlatOf(v[i])| == |FlatOf(a[i])|)
    && (forall i :: 0 <= i < |a| ==> SingleInputOk(FlatOf(a[i]), FlatOf(v[i]), images[i], cfg))
  }

  /**
   * The loop that replaces every image's per-level anchors and flags by
   * their concatenation, stopping at the first image whose level counts
   * differ (the earlier images stay concatenated).
   */
  method ConcatLevels(anchorList: array<Entry<Box>>, validFlagList: array<Entry<bool>>) returns (ok: bool)
    requires anchorList.Length == validFlagList.Length
    requires forall i :: 0 <= i < anchorList.Length ==> anchorList[i].PerLevel?
    requires forall i :: 0 <= i < validFlagList.Length ==> validFlagList[i].PerLevel?
    modifies anchorList, validFlagList
    ensures ok <==> FirstMismatch(old(anchorList[..]), old(validFlagList[..])) == anchorList.Length
    ensures var done := FirstMismatch(old(anchorList[..]), old(validFlagList[..]));
      && (forall i :: 0 <= i < anchorList.Length ==>
            anchorList[i] == if i < done then Flat(FlatOf(old(anchorList[i]))) else old(anchorList[i]))
      && (forall i :: 0 <= i < validFlagList.Length ==>
            validFlagList[i] == if i < done then Flat(FlatOf(old(validFlagList[i]))) else old(validFlagList[i]))
  {
    ghost var origA, origV := anchorList[..], validFlagList[..];
    ghost var stop := FirstMismatch(origA, origV);
    for i := 0 to anchorList.Length
      invariant i <= stop
      invariant forall j :: 0 <= j < i ==>
        anchorList[j] == Flat(FlatOf(origA[j])) && validFlagList[j] == Flat(FlatOf(origV[j]))
      invariant forall j :: i <= j < anchorList.Length ==>
        anchorList[j] == origA[j] && validFlagList[j] == origV[j]
    {
      var anchors, flags := anchorList[i], validFlagList[i];
      if |anchors.levels| != |flags.levels| {
        return false;
      }
      ConcatImage(anchorList, validFlagList, i);
    }
    return true;
  }

  /** One image's step of that loop: its anchors and flags become their concatenations; nothing else changes. */
  method ConcatImage(anchorList: array<Entry<Box>>, validFlagList: array<Entry<bool>>, i: nat)
    requires i < anchorList.Length == validFlagList.Length
    modifies anchorList, validFlagList
    ensures anchorList[i] == Flat(FlatOf(old(anchorList[i])))
    ensures validFlagList[i] == Flat(FlatOf(old(validFlagList[i])))
    ensures forall j :: 0 <= j < anchorList.Length && j != i ==> anchorList[j] == old(anchorList[j])
    ensures forall j :: 0 <= j < validFlagList.Length && j != i ==> validFlagList[j] == old(validFlagList[j])
  {
    var anchors, flags := anchorList[i], validFlagList[i];
    assert anchorList as object != validFlagList as object;
    anchorList[i] := Flat(FlatOf(anchors));
    validFlagList[i] := Flat(FlatOf(flags));
  }

  /**
   * `multi_apply(anchor_target_single, ...)`: the images in order; the
   * first image whose assertion fails ends the batch with its error.
   */
  method TargetsPerImage(flats: seq<seq<Box>>, flags: seq<seq<bool>>, images: seq<ImageInput>, cfg: TrainCfg,
                         encode: (Box, Box) -> Box, unmapOutputs: bool)
    returns (r: Result<seq<Option<SingleTargets>>, AnchorError>)
    requires |flats| == |flags| == |images|
    requires forall i :: 0 <= i < |images| ==> |flags[i]| == |flats[i]|
    requires forall i :: 0 <= i < |images| ==> SingleInputOk(flats[i], flags[i], images[i], cfg)
    ensures r.Ok? <==> forall i :: 0 <= i < |images| ==> ExpectedError(flats[i], flags[i], images[i], cfg).None?
    ensures r.Err? ==> exists i :: (0 <= i < |images|
      && ExpectedError(flats[i], flags[i], images[i], cfg) == Some(r.error)
      && forall j :: 0 <= j < i ==> ExpectedError(flats[j], flags[j], images[j], cfg).None?)
    ensures r.Ok? ==> |r.value| == |images| && forall i :: 0 <= i < |images| ==>
      && (r.value[i].None? <==> !AnyTrue(InsideOf(flats[i], flags[i], images[i], cfg)))
      && (r.value[i].Some? ==> TargetsFor(r.value[i].value, flats[i], flags[i], images[i], cfg, encode, unmapOutputs))
  {
    var results: seq<Option<SingleTargets>> := [];
    for i := 0 to |images|
      invariant |results| == i
      invariant forall j :: 0 <= j < i ==> ExpectedError(flats[j], flags[j], images[j], cfg).None?
      invariant forall j :: 0 <= j < i ==>
        && (results[j].None? <==> !AnyTrue(InsideOf(flats[j], flags[j], images[j], cfg)))
        && (results[j].Some? ==> TargetsFor(results[j].value, flats[j], flags[j], images[j], cfg, encode, unmapOutputs))
    {
      var t := AnchorTargetSingle(flats[i], flags[i], images[i], cfg, encode, unmapOutputs);
      if t.Err? {
        return Err(t.error);
      }
      results := results + [t.value];
    }
    r := Ok(results);
  }

  function LabelsOf(ts: seq<SingleTargets>): seq<seq<int>> { seq(|ts|, i requires 0 <= i < |ts| => ts[i].labels) }
  function LabelWeightsOf(ts: seq<SingleTargets>): seq<seq<real>> { seq(|ts|, i requires 0 <= i < |ts| => ts[i].labelWeights) }
  function BboxTargetsOf(ts: seq<SingleTargets>): seq<seq<Box>> { seq(|ts|, i requires 0 <= i < |ts| => ts[i].bboxTargets) }
  function BboxWeightsOf(ts: seq<SingleTargets>): seq<seq<Box>> { seq(|ts|, i requires 0 <= i < |ts| => ts[i].bboxWeights) }

  function FlatsOf<T>(es: seq<Entry<T>>): (r: seq<seq<T>>)
    ensures |r| == |es|
  {
    seq(|es|, i requires 0 <= i < |es| => FlatOf(es[i]))
  }

  /** The well-formed per-image inputs of a batch, one flag per anchor. */
  predicate BatchInputs(flats: seq<seq<Box>>, flags: seq<seq<bool>>, images: seq<ImageInput>, cfg: TrainCfg) {
    && |flats| == |flags| == |images|
    && (forall i :: 0 <= i < |images| ==> |flags[i]| == |flats[i]|)
    && (forall i :: 0 <= i < |images| ==> SingleInputOk(flats[i], flags[i], images[i], cfg))
  }

  /**
   * What `anchor_target` yields once the image and level counts check out:
   * the first failing image's error; otherwise nothing when some image has
   * no inside anchor; otherwise the stacked per-image targets cut into
   * levels of the given sizes, with the two sample counts.
   */
  predicate BatchOutcome(r: Result<Option<AnchorTargets>, AnchorError>, perImage: seq<SingleTargets>,
                         flats: seq<seq<Box>>, flags: seq<seq<bool>>, images: seq<ImageInput>, cfg: TrainCfg,
                         encode: (Box, Box) -> Box, unmapOutputs: bool, sizes: seq<nat>)
    requires BatchInputs(flats, flags, images, cfg)
  {
    var failed := exists i :: 0 <= i < |images| && ExpectedError(flats[i], flags[i], images[i], cfg).Some?;
    var empty := exists i :: 0 <= i < |images| && !AnyTrue(InsideOf(flats[i], flags[i], images[i], cfg));
    && (r.Err? ==> r.error == PositiveWeight || r.error == LabelWeightSumMismatch || r.error == StackSizeMismatch)
    && (failed <==> r.Err? && r.error != StackSizeMismatch)
    && (r.Err? && r.error != StackSizeMismatch ==>
          exists i :: (0 <= i < |images|
            && ExpectedError(flats[i], flags[i], images[i], cfg) == Some(r.error)
            && forall j :: 0 <= j < i ==> ExpectedError(flats[j], flags[j], images[j], cfg).None?))
    && (r == Ok(None) <==> !failed && empty)
    && (r == Err(StackSizeMismatch) || (r.Ok? && r.value.Some?) ==>
          && |perImage| == |images|
          && (forall i :: 0 <= i < |images| ==>
                TargetsFor(perImage[i], flats[i], flags[i], images[i], cfg, encode, unmapOutputs))
          && (r == Err(StackSizeMismatch) <==> !Stackable(LabelsOf(perImage))))
    && (r.Ok? && r.value.Some? ==>
          && var out := r.value.value;
          && |out.labelsList| == |sizes| && |out.labelWeightsList| == |sizes|
          && |out.bboxTargetsList| == |sizes| && |out.bboxWeightsList| == |sizes|
          && (forall k :: 0 <= k < |sizes| ==>
                && out.labelsList[k] == LevelOf(LabelsOf(perImage), LevelStart(sizes, k), sizes[k])
                && out.labelWeightsList[k] == LevelOf(LabelWeightsOf(perImage), LevelStart(sizes, k), sizes[k])
                && out.bboxTargetsList[k] == LevelOf(BboxTargetsOf(perImage), LevelStart(sizes, k), sizes[k])
                && out.bboxWeightsList[k] == LevelOf(BboxWeightsOf(perImage), LevelStart(sizes, k), sizes[k]))
          && out.numTotalPos == TotalPos(perImage)
          && out.numTotalNeg == TotalWeight(perImage) - TotalPos(perImage))
  }

  /** The positives of an image: the sampled ones, none without gt boxes. */
  function PosCount(img: ImageInput): nat {
    if HasGt(img) then |img.sampling.posInds| else 0
  }

  /** The negatives of an image: the sampled ones, or every inside anchor without gt boxes. */
  function NegCount(flat: seq<Box>, valid: seq<bool>, img: ImageInput, cfg: TrainCfg): nat
    requires |valid| == |flat|
  {
    if HasGt(img) then |img.sampling.negInds| else CountTrue(InsideOf(flat, valid, img, cfg))
  }

  function PosCounts(images: seq<ImageInput>): (r: seq<nat>)
    ensures |r| == |images|
  {
    seq(|images|, i requires 0 <= i < |images| => PosCount(images[i]))
  }

  function NegCounts(flats: seq<seq<Box>>, flags: seq<seq<bool>>, images: seq<ImageInput>, cfg: TrainCfg): (r: seq<nat>)
    requires BatchInputs(flats, flags, images, cfg)
    ensures |r| == |images|
  {
    seq(|images|, i requires 0 <= i < |images| => NegCount(flats[i], flags[i], images[i], cfg))
  }

  /**
   * `num_total_pos` is the number of positives of the batch and
   * `num_total_neg` the number of negatives, summed over the images.
   */
  lemma BatchSampleCounts(ts: seq<SingleTargets>, flats: seq<seq<Box>>, flags: seq<seq<bool>>,
                          images: seq<ImageInput>, cfg: TrainCfg,
                          encode: (Box, Box) -> Box, unmapOutputs: bool)
    requires BatchInputs(flats, flags, images, cfg) && |ts| == |images|
    requires forall i :: 0 <= i < |ts| ==> TargetsFor(ts[i], flats[i], flags[i], images[i], cfg, encode, unmapOutputs)
    ensures TotalPos(ts) == SumNat(PosCounts(images)) as real
    ensures TotalWeight(ts) - TotalPos(ts) == SumNat(NegCounts(flats, flags, images, cfg)) as real
  {
    PerImageCounts(ts, flats, flags, images, cfg, encode, unmapOutputs);
    SampleTotals(ts, PosCounts(images), NegCounts(flats, flags, images, cfg));
  }

  lemma PerImageCounts(ts: seq<SingleTargets>, flats: seq<seq<Box>>, flags: seq<seq<bool>>,
                       images: seq<ImageInput>, cfg: TrainCfg,
                       encode: (Box, Box) -> Box, unmapOutputs: bool)
    requires BatchInputs(flats, flags, images, cfg) && |ts| == |images|
    requires forall i :: 0 <= i < |ts| ==> TargetsFor(ts[i], flats[i], flags[i], images[i], cfg, encode, unmapOutputs)
    ensures forall i :: 0 <= i < |ts| ==> Sum(Column0(ts[i].bboxWeights)) == PosCounts(images)[i] as real
    ensures forall i :: 0 <= i < |ts| ==>
      Sum(ts[i].labelWeights) == (PosCounts(images)[i] + NegCounts(flats, flags, images, cfg)[i]) as real
  {
    forall i | 0 <= i < |ts|
      ensures Sum(Column0(ts[i].bboxWeights)) == PosCounts(images)[i] as real
      ensures Sum(ts[i].labelWeights) == (PosCounts(images)[i] + NegCounts(flats, flags, images, cfg)[i]) as real
    {
      SingleTargetCounts(ts[i], flats[i], flags[i], images[i], cfg, encode, unmapOutputs);
    }
  }

  /** The two totals of a batch, from each image's own counts. */
  lemma {:induction false} SampleTotals(ts: seq<SingleTargets>, pos: seq<nat>, neg: seq<nat>)
    requires |pos| == |neg| == |ts|
    requires forall i :: 0 <= i < |ts| ==> Sum(Column0(ts[i].bboxWeights)) == pos[i] as real
    requires forall i :: 0 <= i < |ts| ==> Sum(ts[i].labelWeights) == (pos[i] + neg[i]) as real
    ensures TotalPos(ts) == SumNat(pos) as real
    ensures TotalWeight(ts) - TotalPos(ts) == SumNat(neg) as real
  {
    if ts != [] {
      var k := |ts| - 1;
      SampleTotals(ts[..k], pos[..k], neg[..k]);
      assert TotalPos(ts) == TotalPos(ts[..k]) + pos[k] as real;
      assert TotalWeight(ts) == TotalWeight(ts[..k]) + (pos[k] + neg[k]) as real;
    }
  }

  /**
   * The part of `anchor_target` after the concatenation: per-image
   * targets, the `None` check, `images_to_levels` on the four stacked
   * buffers and the sample counts. `perImage` names the per-image results
   * the source keeps in local variables.
   */
  method BatchTargets(flats: seq<seq<Box>>, flags: seq<seq<bool>>, images: seq<ImageInput>, cfg: TrainCfg,
                      encode: (Box, Box) -> Box, unmapOutputs: bool, numLevelAnchors: seq<nat>)
    returns (r: Result<Option<AnchorTargets>, AnchorError>, ghost perImage: seq<SingleTargets>)
    requires BatchInputs(flats, flags, images, cfg)
    ensures BatchOutcome(r, perImage, flats, flags, images, cfg, encode, unmapOutputs, numLevelAnchors)
  {
    perImage := [];
    var res := TargetsPerImage(flats, flags, images, cfg, encode, unmapOutputs);
    if res.Err? {
      return Err(res.error), perImage;
    }
    var results := res.value;
    if exists j :: 0 <= j < |images| && results[j].None? {
      return Ok(None), perImage;
    }
    var targets := seq(|images|, j requires 0 <= j < |images| => results[j].value);
    perImage := targets;
    var labels := LabelsOf(targets);
    if !Stackable(labels) {
      return Err(StackSizeMismatch), perImage;
    }
    SameLengths(targets, flats, flags, images, cfg, encode, unmapOutputs);
    var labelsList := ImagesToLevels(labels, numLevelAnchors);
    var labelWeightsList := ImagesToLevels(LabelWeightsOf(targets), numLevelAnchors);
    var bboxTargetsList := ImagesToLevels(BboxTargetsOf(targets), numLevelAnchors);
    var bboxWeightsList := ImagesToLevels(BboxWeightsOf(targets), numLevelAnchors);
    var numTotalPos, numTotalNeg := CountSamples(targets);
    r := Ok(Some(AnchorTargets(labelsList, labelWeightsList, bboxTargetsList, bboxWeightsList, numTotalPos, numTotalNeg)));
  }

  /**
   * `anchor_target`: check the image counts, concatenate every image's
   * levels in place (checking each image's level counts), then the batch
   * targets, cut by the first image's level sizes.
   */
  method AnchorTarget(anchorList: array<Entry<Box>>, validFlagList: array<Entry<bool>>, images: seq<ImageInput>,
                      cfg: TrainCfg, encode: (Box, Box) -> Box, unmapOutputs: bool)
    returns (r: Result<Option<AnchorTargets>, AnchorError>, ghost perImage: seq<SingleTargets>)
    requires forall i :: 0 <= i < anchorList.Length ==> anchorList[i].PerLevel?
    requires forall i :: 0 <= i < validFlagList.Length ==> validFlagList[i].PerLevel?
    requires forall i :: 0 <= i < anchorList.Length && i < validFlagList.Length && i < |images| ==>
      ImageReady(anchorList[i], validFlagList[i], images[i], cfg)
    modifies anchorList, validFlagList
    ensures r == Err(ImageCountMismatch) <==> !(anchorList.Length == validFlagList.Length == |images|)
    ensures r == Err(NoImages) <==> anchorList.Length == validFlagList.Length == |images| == 0
    ensures anchorList.Length == validFlagList.Length == |images| > 0 ==>
      (r == Err(LevelCountMismatch) <==> FirstMismatch(old(anchorList[..]), old(validFlagList[..])) < |images|)
    ensures var done :=
        if anchorList.Length == validFlagList.Length == |images| then FirstMismatch(old(anchorList[..]), old(validFlagList[..]))
        else 0;
      && (forall i :: 0 <= i < anchorList.Length ==>
            anchorList[i] == if i < done then Flat(FlatOf(old(anchorList[i]))) else old(anchorList[i]))
      && (forall i :: 0 <= i < validFlagList.Length ==>
            validFlagList[i] == if i < done then Flat(FlatOf(old(validFlagList[i]))) else old(validFlagList[i]))
    ensures BatchOk(old(anchorList[..]), old(validFlagList[..]), images, cfg) <==>
      !(r.Err? && (r.error == ImageCountMismatch || r.error == NoImages || r.error == LevelCountMismatch))
    ensures BatchOk(old(anchorList[..]), old(validFlagList[..]), images, cfg) ==>
      && BatchInputs(FlatsOf(old(anchorList[..])), FlatsOf(old(validFlagList[..])), images, cfg)
      && BatchOutcome(r, perImage, FlatsOf(old(anchorList[..])), FlatsOf(old(validFlagList[..])), images, cfg,
                      encode, unmapOutputs, Sizes(old(anchorList[0]).levels))
  {
    perImage := [];
    var numImgs := |images|;
    if !(anchorList.Length == validFlagList.Length == numImgs) {
      return Err(ImageCountMismatch), perImage;
    }
    if numImgs == 0 {
      return Err(NoImages), perImage;
    }
    var numLevelAnchors := Sizes(anchorList[0].levels);
    ghost var origA, origV := anchorList[..], validFlagList[..];
    var ok := ConcatLevels(anchorList, validFlagList);
    if !ok {
      return Err(LevelCountMismatch), perImage;
    }
    assert BatchOk(origA, origV, images, cfg) by {
      forall i | 0 <= i < numImgs
        ensures |FlatOf(origV[i])| == |FlatOf(origA[i])|
        ensures SingleInputOk(FlatOf(origA[i]), FlatOf(origV[i]), images[i], cfg)
      {
        assert ImageReady(origA[i], origV[i], images[i], cfg);
      }
    }
    var flats, flags := FlatsOf(anchorList[..]), FlatsOf(validFlagList[..]);
    assert flats == FlatsOf(origA) && flags == FlatsOf(origV);
    r, perImage := BatchTargets(flats, flags, images, cfg, encode, unmapOutputs, numLevelAnchors);
  }

  /** The four buffers of an image have one length, so the stack check on labels covers all four. */
  lemma SameLengths(ts: seq<SingleTargets>, flats: seq<seq<Box>>, flags: seq<seq<bool>>, images: seq<ImageInput>,
                    cfg: TrainCfg, encode: (Box, Box) -> Box, unmapOutputs: bool)
    requires |ts| == |flats| == |flags| == |images|
    requires forall j :: 0 <= j < |ts| ==>
      SingleInputOk(flats[j], flags[j], images[j], cfg) && TargetsFor(ts[j], flats[j], flags[j], images[j], cfg, encode, unmapOutputs)
    requires Stackable(LabelsOf(ts))
    ensures Stackable(LabelWeightsOf(ts)) && Stackable(BboxTargetsOf(ts)) && Stackable(BboxWeightsOf(ts))
  {
    forall j | 0 <= j < |ts|
      ensures |LabelWeightsOf(ts)[j]| == |LabelsOf(ts)[j]|
      ensures |BboxTargetsOf(ts)[j]| == |LabelsOf(ts)[j]|
      ensures |BboxWeightsOf(ts)[j]| == |LabelsOf(ts)[j]|
    {
      var inside := InsideOf(flats[j], flags[j], images[j], cfg);
      if HasGt(images[j]) {
        assert CountTrue(inside) == |Select(flats[j], inside)|;
      }
    }
  }
}
