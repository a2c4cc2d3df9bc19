/**
 * `CustomBlockDataset`: a detection dataset whose samples are blocks of
 * consecutive video frames around an annotated centre frame. Loading,
 * image decoding and the geometric transforms are not modelled: a sample
 * carries the frame names and the annotation and proposal values that the
 * transforms would receive.
 */
module CustomBlock {
  import opened Wrappers
  import opened Decimal
  import opened Boxes
  import opened FrameBlock
  import opened Proposals

  datatype Ann = Ann(bboxes: seq<Box>, labels: seq<int>, bboxesIgnore: seq<Box>)

  /** One entry of the annotation file; `ann` is optional for testing. */
  datatype ImgInfo = ImgInfo(filename: string, width: int, height: int, ann: Option<Ann>)

  /** The constructor's keyword arguments that the modelled code reads. */
  datatype Config = Config(
    imgPrefix: string,
    imgScales: seq<(int, int)>,
    multiscaleMode: string,
    numMaxProposals: int,
    flipRatio: real,
    withCrowd: bool,
    withLabel: bool,
    extraAug: bool,
    skipImgWithoutAnno: bool,
    testMode: bool,
    blockSize: int,
    blockGap: int)

  /** What the modelled code raises. */
  datatype DatasetError =
    | ImageIndexOutOfRange             // IndexError on `img_infos[idx]`
    | ProposalIndexOutOfRange          // IndexError on `proposals[i]`
    | InvalidMultiscaleMode            // assert multiscale_mode in ['value', 'range']
    | FlipRatioOutOfRange              // assert 0 <= flip_ratio <= 1
    | BadProposalShape(rows: nat, cols: nat)
    | MissingAnnotation                // KeyError on `img_info['ann']`
    | ExtraAugNotImplemented           // ValueError for extra augmentation of a block
    | EmptyBlock                       // stacking a block of no frames
    | StemNotInteger                   // ValueError from `int(fname)` in test mode
    | CentreFrameMissing               // assert img_name_list[hf_size] is not None
    | NotSingleScale                   // assert len(self.img_scales) == 1

  datatype TrainSample = TrainSample(
    frames: seq<string>,
    oriShape: (int, int),
    gtBboxes: seq<Box>,
    gtLabels: Option<seq<int>>,
    gtBboxesIgnore: Option<seq<Box>>,
    proposals: Option<Split>)

  datatype TestSample = TestSample(
    frames: seq<string>,
    oriShape: (int, int),
    scale: (int, int),
    proposals: Option<Split>)

  datatype Sample = Train(train: TrainSample) | Test(test: TestSample)

  /** The default `min_size` of `_filter_imgs`. */
  const MinSize := 32

  function Min(a: int, b: int): int { if a <= b then a else b }

  predicate LargeEnough(info: ImgInfo, minSize: int) {
    Min(info.width, info.height) >= minSize
  }

  /** `width / height > 1` with Python's true division. */
  predicate WiderThanTall(info: ImgInfo)
    requires info.height != 0
  {
    (info.width as real) / (info.height as real) > 1.0
  }

  /** The aspect-ratio group of an image: 1 when wider than tall, else 0. */
  function GroupOf(info: ImgInfo): int
    requires info.height != 0
  {
    if WiderThanTall(info) then 1 else 0
  }

  /** The indices `_filter_imgs` appends, in the order it visits them. */
  function ValidIndices(infos: seq<ImgInfo>, minSize: int): (r: seq<nat>)
    ensures forall k :: 0 <= k < |r| ==> r[k] < |infos|
  {
    if infos == [] then []
    else
      var n := |infos| - 1;
      ValidIndices(infos[..n], minSize) + (if LargeEnough(infos[n], minSize) then [n] else [])
  }

  /** The images large enough, in order: an independent definition of the filter. */
  function LargeImages(infos: seq<ImgInfo>, minSize: int): seq<ImgInfo> {
    if infos == [] then []
    else (if LargeEnough(infos[0], minSize) then [infos[0]] else []) + LargeImages(infos[1..], minSize)
  }

  predicate IndicesBelow(inds: seq<nat>, n: nat) {
    forall k :: 0 <= k < |inds| ==> inds[k] < n
  }

  /** `[s[i] for i in inds]`. */
  function Gather<T>(s: seq<T>, inds: seq<nat>): seq<T>
    requires IndicesBelow(inds, |s|)
  {
    seq(|inds|, k requires 0 <= k < |inds| => s[inds[k]])
  }

  function Unwrap(s: seq<Option<string>>): seq<string>
    requires forall j :: 0 <= j < |s| ==> s[j].Some?
  {
    seq(|s|, j requires 0 <= j < |s| => s[j].value)
  }

  // ---------------------------------------------------------------------
  // Lemmas about filtering and grouping

  /** `_filter_imgs` gives, in increasing order, exactly the indices of large-enough images. */
  lemma {:induction false} ValidIndicesSpec(infos: seq<ImgInfo>, minSize: int)
    ensures var r := ValidIndices(infos, minSize);
      && (forall k, l :: 0 <= k < l < |r| ==> r[k] < r[l])
      && (forall i :: 0 <= i < |infos| ==> (i in r <==> LargeEnough(infos[i], minSize)))
  {
    if infos != [] {
      var n := |infos| - 1;
      ValidIndicesSpec(infos[..n], minSize);
      var p := ValidIndices(infos[..n], minSize);
      var r := ValidIndices(infos, minSize);
      assert r == p + (if LargeEnough(infos[n], minSize) then [n] else []);
      assert n !in p;
      forall i | 0 <= i < |infos| ensures i in r <==> LargeEnough(infos[i], minSize) {
        if i < n {
          assert infos[..n][i] == infos[i];
        }
      }
    }
  }

  /** Gathering the filtered indices keeps exactly the large-enough images, in order. */
  lemma {:induction false} GatherValidIsLargeImages(infos: seq<ImgInfo>, minSize: int)
    ensures Gather(infos, ValidIndices(infos, minSize)) == LargeImages(infos, minSize)
  {
    if infos != [] {
      var n := |infos| - 1;
      var p := infos[..n];
      GatherValidIsLargeImages(p, minSize);
      LargeImagesAppend(p, infos[n], minSize);
      assert p + [infos[n]] == infos;
      var g := Gather(infos, ValidIndices(infos, minSize));
      var gp := Gather(p, ValidIndices(p, minSize));
      assert g == gp + (if LargeEnough(infos[n], minSize) then [infos[n]] else []);
    }
  }

  /** Every image the filter keeps is large enough. */
  lemma {:induction false} LargeImagesAreLarge(infos: seq<ImgInfo>, minSize: int)
    ensures forall k :: 0 <= k < |LargeImages(infos, minSize)| ==> LargeEnough(LargeImages(infos, minSize)[k], minSize)
  {
    if infos != [] {
      LargeImagesAreLarge(infos[1..], minSize);
    }
  }

  lemma {:induction false} LargeImagesAppend(s: seq<ImgInfo>, x: ImgInfo, minSize: int)
    ensures LargeImages(s + [x], minSize) == LargeImages(s, minSize) + (if LargeEnough(x, minSize) then [x] else [])
  {
    if s != [] {
      assert (s + [x])[1..] == s[1..] + [x];
      LargeImagesAppend(s[1..], x, minSize);
    }
  }

  /** For a real image (positive height) the group flag is 1 exactly when width exceeds height. */
  lemma GroupIsLandscape(info: ImgInfo)
    requires info.height > 0
    ensures GroupOf(info) == 1 <==> info.width > info.height
    ensures GroupOf(info) == 0 <==> info.width <= info.height
  {
    var w, h := info.width as real, info.height as real;
    assert w / h * h == w;
    if w > h {
      assert w / h > 1.0;
    } else {
      assert w / h <= 1.0;
    }
  }

  // ---------------------------------------------------------------------
  // The dataset

  class CustomBlockDataset {
    const cfg: Config
    var imgInfos: seq<ImgInfo>
    var proposals: Option<seq<ProposalArray>>
    /** The aspect-ratio group of each image (training only; empty in test mode). */
    var flag: array<int>

    ghost predicate Valid()
      reads this, flag
    {
      !cfg.testMode ==>
        && flag.Length == |imgInfos|
        && forall i :: 0 <= i < |imgInfos| ==>
             LargeEnough(imgInfos[i], MinSize) && flag[i] == GroupOf(imgInfos[i])
    }

    /** The raw fields before filtering: the loaded annotations and proposals. */
    constructor Load(cfg: Config, annotations: seq<ImgInfo>, proposals: Option<seq<ProposalArray>>)
      ensures this.cfg == cfg && imgInfos == annotations && this.proposals == proposals
      ensures fresh(flag) && flag.Length == 0
    {
      this.cfg := cfg;
      imgInfos := annotations;
      this.proposals := proposals;
      flag := new int[0];
    }

    /**
     * The constructor: outside test mode drop the images smaller than
     * `MinSize` together with their proposals, check the multi-scale mode
     * and the flip ratio, and set the group flags.
     */
    static method Create(cfg: Config, annotations: seq<ImgInfo>, proposals: Option<seq<ProposalArray>>)
      returns (r: Result<CustomBlockDataset, DatasetError>)
      ensures var inds := ValidIndices(annotations, MinSize);
        r == Err(ProposalIndexOutOfRange) <==>
          !cfg.testMode && proposals.Some? && !IndicesBelow(inds, |proposals.value|)
      ensures var inds := ValidIndices(annotations, MinSize);
        var gathered := cfg.testMode || proposals.None? || IndicesBelow(inds, |proposals.value|);
        && (r == Err(InvalidMultiscaleMode) <==>
              gathered && cfg.multiscaleMode != "value" && cfg.multiscaleMode != "range")
        && (r == Err(FlipRatioOutOfRange) <==>
              gathered && (cfg.multiscaleMode == "value" || cfg.multiscaleMode == "range")
              && !(0.0 <= cfg.flipRatio <= 1.0))
      ensures var inds := ValidIndices(annotations, MinSize);
        r.Ok? <==>
          && (cfg.testMode || proposals.None? || IndicesBelow(inds, |proposals.value|))
          && (cfg.multiscaleMode == "value" || cfg.multiscaleMode == "range")
          && 0.0 <= cfg.flipRatio <= 1.0
      ensures r.Ok? ==> fresh(r.value) && r.value.Valid() && r.value.cfg == cfg
      ensures r.Ok? && cfg.testMode ==> r.value.imgInfos == annotations && r.value.proposals == proposals
      ensures r.Ok? && !cfg.testMode ==>
        var inds := ValidIndices(annotations, MinSize);
        && r.value.imgInfos == Gather(annotations, inds)
        && r.value.imgInfos == LargeImages(annotations, MinSize)
        && (proposals.None? ==> r.value.proposals.None?)
        && (proposals.Some? ==> IndicesBelow(inds, |proposals.value|)
                                && r.value.proposals == Some(Gather(proposals.value, inds)))
    {
      var ds := new CustomBlockDataset.Load(cfg, annotations, proposals);
      if !cfg.testMode {
        var ok := ds.DropSmallImages();
        if !ok {
          return Err(ProposalIndexOutOfRange);
        }
      }
      if cfg.multiscaleMode != "value" && cfg.multiscaleMode != "range" {
        return Err(InvalidMultiscaleMode);
      }
      if !(0.0 <= cfg.flipRatio <= 1.0) {
        return Err(FlipRatioOutOfRange);
      }
      if !cfg.testMode {
        ds.SetGroupFlag();
      }
      return Ok(ds);
    }

    /**
     * Outside test mode: keep the images of `_filter_imgs`, then the
     * proposals at the same indices; `false` where a kept index has no
     * proposal (the images are already replaced by then).
     */
    method DropSmallImages() returns (ok: bool)
      modifies this
      ensures flag == old(flag)
      ensures var inds := ValidIndices(old(imgInfos), MinSize);
        && (ok <==> old(proposals).None? || IndicesBelow(inds, |old(proposals).value|))
        && imgInfos == Gather(old(imgInfos), inds)
        && imgInfos == LargeImages(old(imgInfos), MinSize)
        && (forall k :: 0 <= k < |imgInfos| ==> LargeEnough(imgInfos[k], MinSize))
        && (ok && old(proposals).Some? ==> proposals == Some(Gather(old(proposals).value, inds)))
        && (!ok || old(proposals).None? ==> proposals == old(proposals))
    {
      ghost var infos := imgInfos;
      var validInds := FilterImgs(MinSize);
      imgInfos := Gather(imgInfos, validInds);
      if proposals.Some? {
        if !IndicesBelow(validInds, |proposals.value|) {
          ok := false;
        } else {
          proposals := Some(Gather(proposals.value, validInds));
          ok := true;
        }
      } else {
        ok := true;
      }
      GatherValidIsLargeImages(infos, MinSize);
      LargeImagesAreLarge(infos, MinSize);
    }

    /** `_filter_imgs`: the indices of the images whose shorter side is at least `minSize`. */
    method FilterImgs(minSize: int) returns (validInds: seq<nat>)
      ensures validInds == ValidIndices(imgInfos, minSize)
      ensures forall k, l :: 0 <= k < l < |validInds| ==> validInds[k] < validInds[l]
      ensures forall i :: 0 <= i < |imgInfos| ==> (i in validInds <==> Min(imgInfos[i].width, imgInfos[i].height) >= minSize)
    {
      validInds := [];
      for i := 0 to |imgInfos|
        invariant validInds == ValidIndices(imgInfos[..i], minSize)
      {
        if Min(imgInfos[i].width, imgInfos[i].height) >= minSize {
          validInds := validInds + [i];
        }
        assert imgInfos[..i + 1][..i] == imgInfos[..i];
      }
      assert imgInfos[..|imgInfos|] == imgInfos;
      ValidIndicesSpec(imgInfos, minSize);
    }

    /** `_set_group_flag`: a zeroed flag array with 1 for every image wider than tall. */
    method SetGroupFlag()
      requires forall i :: 0 <= i < |imgInfos| ==> imgInfos[i].height != 0
      modifies this`flag
      ensures fresh(flag) && flag.Length == |imgInfos|
      ensures forall i :: 0 <= i < |imgInfos| ==> flag[i] == GroupOf(imgInfos[i])
    {
      var f := new int[|imgInfos|](_ => 0);
      for i := 0 to |imgInfos|
        invariant forall j :: 0 <= j < i ==> f[j] == GroupOf(imgInfos[j])
        invariant forall j :: i <= j < |imgInfos| ==> f[j] == 0
      {
        if (imgInfos[i].width as real) / (imgInfos[i].height as real) > 1.0 {
          f[i] := 1;
        }
      }
      flag := f;
    }

    /** `_rand_another`: some index of the same aspect-ratio group (the random choice is left open). */
    method RandAnother(idx: nat) returns (other: nat)
      requires idx < flag.Length
      ensures other < flag.Length && flag[other] == flag[idx]
    {
      var pool := set j | 0 <= j < flag.Length && flag[j] == flag[idx];
      assert idx in pool;
      other :| other in pool;
    }

    // -------------------------------------------------------------------
    // What a sample is made of

    /** The directory, stem and extension of `osp.join(img_prefix, filename)`. */
    function ImageStem(host: Host, info: ImgInfo): Stem {
      SplitPath(host, host.join(cfg.imgPrefix, info.filename))
    }

    /** `self.proposals[idx][:self.num_max_proposals]`. */
    function ProposalRows(idx: nat): ProposalArray
      reads this
      requires proposals.Some? && idx < |proposals.value|
    {
      TakeRows(proposals.value[idx], cfg.numMaxProposals)
    }

    /** The proposal checks of training pass: none loaded, or a non-empty 4/5-column prefix. */
    predicate TrainProposalsOk(idx: nat)
      reads this
    {
      proposals.Some? ==>
        idx < |proposals.value| && |ProposalRows(idx).rows| > 0 && SplitScores(ProposalRows(idx)).Ok?
    }

    /** The proposal checks of testing pass: none loaded, or a 4/5-column prefix (empty allowed). */
    predicate TestProposalsOk(idx: nat)
      reads this
    {
      proposals.Some? ==> idx < |proposals.value| && SplitScores(ProposalRows(idx)).Ok?
    }

    /** The split proposals a sample carries. */
    predicate ProposalsOf(idx: nat, p: Option<Split>)
      reads this
    {
      match proposals
      case None => p.None?
      case Some(ps) =>
        idx < |ps| && p.Some? && SplitScores(TakeRows(ps[idx], cfg.numMaxProposals)) == Ok(p.value)
    }

    /** The image has an annotation and is not skipped for lacking gt boxes. */
    predicate KeptForTraining(idx: nat)
      reads this
      requires idx < |imgInfos|
    {
      imgInfos[idx].ann.Some? && !(|imgInfos[idx].ann.value.bboxes| == 0 && cfg.skipImgWithoutAnno)
    }

    /** `s` is what `prepare_train_img(idx)` returns, before the transforms. */
    predicate TrainSampleOf(s: TrainSample, idx: nat, host: Host)
      reads this
      requires idx < |imgInfos|
    {
      var info := imgInfos[idx];
      var hf := HalfSize(cfg.blockSize);
      && hf >= 0
      && KeptForTraining(idx)
      && var slots := TrainSlots(host, ImageStem(host, info), hf, cfg.blockGap);
      && |s.frames| == |slots|
      && (forall j :: 0 <= j < |slots| ==> Some(s.frames[j]) == Nearest(slots, hf, j))
      && s.oriShape == (info.height, info.width)
      && s.gtBboxes == info.ann.value.bboxes
      && s.gtLabels == (if cfg.withLabel then Some(info.ann.value.labels) else None)
      && s.gtBboxesIgnore == (if cfg.withCrowd then Some(info.ann.value.bboxesIgnore) else None)
      && ProposalsOf(idx, s.proposals)
    }

    /** The stem parses as an integer and the rebuilt centre frame exists. */
    predicate TestWindowOk(idx: nat, host: Host)
      reads this
      requires idx < |imgInfos|
    {
      var stem := ImageStem(host, imgInfos[idx]);
      var hf := HalfSize(cfg.blockSize);
      && ParseInt(stem.name).Some?
      && (hf >= 0 ==> TestSlots(host, stem, ParseInt(stem.name).value, hf, cfg.blockGap)[hf].Some?)
    }

    /** `s` is what `prepare_test_img(idx)` returns, before the transforms. */
    predicate TestSampleOf(s: TestSample, idx: nat, host: Host)
      reads this
      requires idx < |imgInfos|
    {
      var info := imgInfos[idx];
      var stem := ImageStem(host, info);
      var hf := HalfSize(cfg.blockSize);
      && hf >= 0
      && ParseInt(stem.name).Some?
      && |cfg.imgScales| == 1
      && var slots := TestSlots(host, stem, ParseInt(stem.name).value, hf, cfg.blockGap);
      && |s.frames| == |slots|
      && (forall j :: 0 <= j < |slots| ==> Some(s.frames[j]) == Nearest(slots, hf, j))
      && s.oriShape == (info.height, info.width)
      && s.scale == cfg.imgScales[0]
      && ProposalsOf(idx, s.proposals)
    }

    /**
     * What `prepare_train_img(idx)` comes to, in source order: `Err` with
     * the exception it raises, `Ok(false)` when it returns `None` (the
     * caller resamples), `Ok(true)` when it returns a sample.
     */
    function TrainOutcome(idx: nat): Result<bool, DatasetError>
      reads this
    {
      if idx >= |imgInfos| then Err(ImageIndexOutOfRange)
      else if proposals.Some? && idx >= |proposals.value| then Err(ProposalIndexOutOfRange)
      else if proposals.Some? && |ProposalRows(idx).rows| == 0 then Ok(false)
      else if proposals.Some? && SplitScores(ProposalRows(idx)).Err? then
        var e := SplitScores(ProposalRows(idx)).error;
        Err(BadProposalShape(e.rows, e.cols))
      else if imgInfos[idx].ann.None? then Err(MissingAnnotation)
      else if !KeptForTraining(idx) then Ok(false)
      else if cfg.extraAug then Err(ExtraAugNotImplemented)
      else if HalfSize(cfg.blockSize) < 0 then Err(EmptyBlock)
      else Ok(true)
    }

    /** The exception `prepare_test_img(idx)` raises, in source order, if any. */
    function TestError(idx: nat, host: Host): Option<DatasetError>
      reads this
    {
      if idx >= |imgInfos| then Some(ImageIndexOutOfRange)
      else if ParseInt(ImageStem(host, imgInfos[idx]).name).None? then Some(StemNotInteger)
      else if !TestWindowOk(idx, host) then Some(CentreFrameMissing)
      else if proposals.Some? && idx >= |proposals.value| then Some(ProposalIndexOutOfRange)
      else if proposals.Some? && SplitScores(ProposalRows(idx)).Err? then
        var e := SplitScores(ProposalRows(idx)).error;
        Some(BadProposalShape(e.rows, e.cols))
      else if |cfg.imgScales| != 1 then Some(NotSingleScale)
      else if HalfSize(cfg.blockSize) < 0 then Some(EmptyBlock)
      else None
    }

    /**
     * Each outcome of `prepare_train_img` happens exactly under its own
     * condition; a sample is produced exactly when none of the errors and
     * skips applies.
     */
    lemma TrainOutcomeCases(idx: nat)
      ensures TrainOutcome(idx) == Err(ImageIndexOutOfRange) <==> idx >= |imgInfos|
      ensures TrainOutcome(idx) == Err(ProposalIndexOutOfRange) <==>
        idx < |imgInfos| && proposals.Some? && idx >= |proposals.value|
      ensures TrainOutcome(idx).Err? && TrainOutcome(idx).error.BadProposalShape? <==>
        idx < |imgInfos| && proposals.Some? && idx < |proposals.value| && |ProposalRows(idx).rows| > 0
        && SplitScores(ProposalRows(idx)).Err?
      ensures TrainOutcome(idx) == Ok(false) <==>
        idx < |imgInfos| &&
        (|| (proposals.Some? && idx < |proposals.value| && |ProposalRows(idx).rows| == 0)
         || (TrainProposalsOk(idx) && imgInfos[idx].ann.Some?
             && |imgInfos[idx].ann.value.bboxes| == 0 && cfg.skipImgWithoutAnno))
      ensures TrainOutcome(idx) == Err(MissingAnnotation) <==>
        idx < |imgInfos| && TrainProposalsOk(idx) && imgInfos[idx].ann.None?
      ensures TrainOutcome(idx) == Err(ExtraAugNotImplemented) <==>
        idx < |imgInfos| && TrainProposalsOk(idx) && KeptForTraining(idx) && cfg.extraAug
      ensures TrainOutcome(idx) == Err(EmptyBlock) <==>
        idx < |imgInfos| && TrainProposalsOk(idx) && KeptForTraining(idx) && !cfg.extraAug
        && HalfSize(cfg.blockSize) < 0
      ensures TrainOutcome(idx) == Ok(true) <==>
        idx < |imgInfos| && TrainProposalsOk(idx) && KeptForTraining(idx) && !cfg.extraAug
        && HalfSize(cfg.blockSize) >= 0
    {
    }

    /**
     * Each exception of `prepare_test_img` is raised exactly under its own
     * condition; a sample is produced exactly when none applies.
     */
    lemma TestErrorCases(idx: nat, host: Host)
      ensures TestError(idx, host) == Some(ImageIndexOutOfRange) <==> idx >= |imgInfos|
      ensures TestError(idx, host) == Some(StemNotInteger) <==>
        idx < |imgInfos| && ParseInt(ImageStem(host, imgInfos[idx]).name).None?
      ensures TestError(idx, host) == Some(CentreFrameMissing) <==>
        idx < |imgInfos| && ParseInt(ImageStem(host, imgInfos[idx]).name).Some? && !TestWindowOk(idx, host)
      ensures TestError(idx, host) == Some(ProposalIndexOutOfRange) <==>
        idx < |imgInfos| && TestWindowOk(idx, host) && proposals.Some? && idx >= |proposals.value|
      ensures TestError(idx, host).Some? && TestError(idx, host).value.BadProposalShape? <==>
        idx < |imgInfos| && TestWindowOk(idx, host) && proposals.Some? && idx < |proposals.value|
        && SplitScores(ProposalRows(idx)).Err?
      ensures TestError(idx, host) == Some(NotSingleScale) <==>
        idx < |imgInfos| && TestWindowOk(idx, host) && TestProposalsOk(idx) && |cfg.imgScales| != 1
      ensures TestError(idx, host) == Some(EmptyBlock) <==>
        idx < |imgInfos| && TestWindowOk(idx, host) && TestProposalsOk(idx) && |cfg.imgScales| == 1
        && HalfSize(cfg.blockSize) < 0
      ensures TestError(idx, host).None? <==>
        idx < |imgInfos| && TestWindowOk(idx, host) && TestProposalsOk(idx) && |cfg.imgScales| == 1
        && HalfSize(cfg.blockSize) >= 0
    {
    }

    // -------------------------------------------------------------------
    // Preparing samples

    /**
     * `prepare_train_img`: the filled frame window, then the proposal
     * checks, the annotation, the skip of images without gt boxes and the
     * refusal of extra augmentation; `Ok(None)` asks the caller to resample.
     */
    method PrepareTrainImg(idx: nat, host: Host) returns (r: Result<Option<TrainSample>, DatasetError>)
      ensures r.Err? <==> TrainOutcome(idx).Err?
      ensures r.Err? ==> r.error == TrainOutcome(idx).error
      ensures r == Ok(None) <==> TrainOutcome(idx) == Ok(false)
      ensures r.Ok? && r.value.Some? ==> idx < |imgInfos| && TrainSampleOf(r.value.value, idx, host)
    {
      if idx >= |imgInfos| {
        return Err(ImageIndexOutOfRange);
      }
      var info := imgInfos[idx];
      var stem := ImageStem(host, info);
      var hf := HalfSize(cfg.blockSize);
      var frames: seq<string> := [];
      if hf >= 0 {
        var slots := BuildTrainSlots(host, stem, hf, cfg.blockGap);
        var filled := FillGaps(slots, hf);
        FilledHasNoGaps(slots, hf);
        frames := Unwrap(filled.value);
      }
      var split: Option<Split> := None;
      if proposals.Some? {
        if idx >= |proposals.value| {
          return Err(ProposalIndexOutOfRange);
        }
        var rows := TakeRows(proposals.value[idx], cfg.numMaxProposals);
        if |rows.rows| == 0 {
          return Ok(None);
        }
        var sp := SplitScores(rows);
        if sp.Err? {
          return Err(BadProposalShape(sp.error.rows, sp.error.cols));
        }
        split := Some(sp.value);
      }
      if info.ann.None? {
        return Err(MissingAnnotation);
      }
      var ann := info.ann.value;
      if |ann.bboxes| == 0 && cfg.skipImgWithoutAnno {
        return Ok(None);
      }
      if cfg.extraAug {
        return Err(ExtraAugNotImplemented);
      }
      if |frames| == 0 {
        return Err(EmptyBlock);
      }
      r := Ok(Some(TrainSample(
        frames,
        (info.height, info.width),
        ann.bboxes,
        if cfg.withLabel then Some(ann.labels) else None,
        if cfg.withCrowd then Some(ann.bboxesIgnore) else None,
        split)));
    }

    /**
     * `prepare_test_img`: the frame number is parsed unconditionally, every
     * slot including the centre is rebuilt and probed, gaps are filled, the
     * proposals are checked and exactly one test scale is required.
     */
    method PrepareTestImg(idx: nat, host: Host) returns (r: Result<TestSample, DatasetError>)
      ensures r.Err? <==> TestError(idx, host).Some?
      ensures r.Err? ==> r.error == TestError(idx, host).value
      ensures r.Ok? ==> idx < |imgInfos| && TestSampleOf(r.value, idx, host)
    {
      if idx >= |imgInfos| {
        return Err(ImageIndexOutOfRange);
      }
      var info := imgInfos[idx];
      var stem := ImageStem(host, info);
      var fidx := ParseInt(stem.name);
      if fidx.None? {
        return Err(StemNotInteger);
      }
      var hf := HalfSize(cfg.blockSize);
      var frames: seq<string> := [];
      if hf >= 0 {
        var slots := BuildTestSlots(host, stem, fidx.value, hf, cfg.blockGap);
        var filled := FillGaps(slots, hf);
        if filled.Err? {
          return Err(CentreFrameMissing);
        }
        FilledHasNoGaps(slots, hf);
        frames := Unwrap(filled.value);
      }
      var split: Option<Split> := None;
      if proposals.Some? {
        if idx >= |proposals.value| {
          return Err(ProposalIndexOutOfRange);
        }
        var sp := SplitScores(TakeRows(proposals.value[idx], cfg.numMaxProposals));
        if sp.Err? {
          return Err(BadProposalShape(sp.error.rows, sp.error.cols));
        }
        split := Some(sp.value);
      }
      if |cfg.imgScales| != 1 {
        return Err(NotSingleScale);
      }
      if |frames| == 0 {
        return Err(EmptyBlock);
      }
      r := Ok(TestSample(frames, (info.height, info.width), cfg.imgScales[0], split));
    }

    /**
     * `__getitem__`: in test mode one test sample; in training, resample an
     * index of the same group for as long as the sample is skipped. The
     * source retries without bound; `fuel` bounds the retries here and
     * `Ok(None)` means it ran out. `skipped` lists the indices whose sample
     * was skipped, in order, starting from `idx`; `used` is the index tried
     * last.
     */
    method GetItem(idx: nat, host: Host, fuel: nat)
      returns (r: Result<Option<Sample>, DatasetError>, used: nat, ghost skipped: seq<nat>)
      requires Valid()
      ensures cfg.testMode ==> used == idx && skipped == []
      ensures cfg.testMode ==> (r.Err? <==> TestError(idx, host).Some?)
      ensures cfg.testMode && r.Err? ==> r.error == TestError(idx, host).value
      ensures cfg.testMode && r.Ok? ==>
        r.value.Some? && r.value.value.Test? && idx < |imgInfos| && TestSampleOf(r.value.value.test, idx, host)
      ensures !cfg.testMode ==>
        && |skipped| <= fuel
        && (skipped + [used])[0] == idx
        && (forall k :: 0 <= k < |skipped| ==> TrainOutcome(skipped[k]) == Ok(false))
        && (r == Ok(None) <==> |skipped| == fuel)
        && (r.Err? ==> TrainOutcome(used).Err? && r.error == TrainOutcome(used).error)
        && (r.Ok? && r.value.Some? ==>
              r.value.value.Train? && used < |imgInfos| && TrainSampleOf(r.value.value.train, used, host))
      ensures !cfg.testMode && idx < |imgInfos| ==>
        && used < |imgInfos| && flag[used] == flag[idx]
        && forall k :: 0 <= k < |skipped| ==> skipped[k] < flag.Length && flag[skipped[k]] == flag[idx]
    {
      used := idx;
      skipped := [];
      if cfg.testMode {
        var data := PrepareTestImg(idx, host);
        if data.Err? {
          return Err(data.error), used, skipped;
        }
        return Ok(Some(Test(data.value))), used, skipped;
      }
      for tries := 0 to fuel
        invariant |skipped| == tries
        invariant (skipped + [used])[0] == idx
        invariant forall k :: 0 <= k < |skipped| ==> TrainOutcome(skipped[k]) == Ok(false)
        invariant idx < |imgInfos| ==>
          && used < |imgInfos| && flag[used] == flag[idx]
          && forall k :: 0 <= k < |skipped| ==> skipped[k] < flag.Length && flag[skipped[k]] == flag[idx]
      {
        var data := PrepareTrainImg(used, host);
        if data.Err? {
          return Err(data.error), used, skipped;
        }
        if data.value.Some? {
          return Ok(Some(Train(data.value.value))), used, skipped;
        }
        skipped := skipped + [used];
        used := RandAnother(used);
      }
      r := Ok(None);
    }
  }
}
