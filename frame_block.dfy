/**
 * The temporal block of a sample: the names of the `2*hf+1` frames around a
 * centre frame, `block_gap` frames apart, and the centre-outward filling of
 * the neighbours that do not exist on disk.
 */
module FrameBlock {
  import opened Wrappers
  import opened Decimal

  /**
   * The path services the loader calls (`osp.join`, `osp.dirname`,
   * `osp.basename`, `osp.splitext`) are given functions; `files` is the set
   * of paths for which `osp.exists` holds.
   */
  datatype Host = Host(
    join: (string, string) -> string,
    dirname: string -> string,
    basename: string -> string,
    splitext: string -> (string, string),
    files: set<string>)

  /** An image path split into directory, file stem and extension. */
  datatype Stem = Stem(dir: string, name: string, ext: string)

  datatype FillError = NoCentreFrame

  function SplitPath(host: Host, path: string): Stem {
    var (name, ext) := host.splitext(host.basename(path));
    Stem(host.dirname(path), name, ext)
  }

  /** `int((block_size - 1) / 2)`: true division, then truncation toward zero. */
  function HalfSize(blockSize: int): int {
    var q := blockSize - 1;
    if q >= 0 then q / 2 else -((-q) / 2)
  }

  /** The window has `block_size` slots when it is odd, one fewer when it is even. */
  lemma HalfSizeWindow(blockSize: int)
    ensures blockSize >= 1 && blockSize % 2 == 1 ==> 2 * HalfSize(blockSize) + 1 == blockSize
    ensures blockSize >= 1 && blockSize % 2 == 0 ==> 2 * HalfSize(blockSize) + 1 == blockSize - 1
    ensures blockSize == 0 ==> HalfSize(blockSize) == 0
    ensures blockSize < 0 ==> HalfSize(blockSize) < 0
  {
  }

  /** `fname_other`: frame number `n` as `'%06d'` plus the extension, in the same directory. */
  function FrameName(host: Host, stem: Stem, n: int): string {
    host.join(stem.dir, Format06(n) + stem.ext)
  }

  function CentreName(host: Host, stem: Stem): string {
    host.join(stem.dir, stem.name + stem.ext)
  }

  /** The name when `osp.exists` holds for it, `None` otherwise. */
  function Probe(host: Host, path: string): (r: Option<string>)
    ensures r.Some? <==> path in host.files
    ensures r.Some? ==> r.value == path
  {
    if path in host.files then Some(path) else None
  }

  /** Slot `j` of a window around frame `fidx`: the frame `j - hf` steps of `gap` away, if it exists. */
  function FrameSlot(host: Host, stem: Stem, fidx: int, hf: nat, gap: int, j: nat): Option<string> {
    Probe(host, FrameName(host, stem, fidx + (j - hf) * gap))
  }

  /** Slot `j` of the training window, before filling. */
  function TrainSlot(host: Host, stem: Stem, hf: nat, gap: int, j: nat): Option<string> {
    if j == hf then Some(CentreName(host, stem))
    else if IsDigits(stem.name) then FrameSlot(host, stem, ParseDigits(stem.name), hf, gap, j)
    else None
  }

  function TrainSlots(host: Host, stem: Stem, hf: nat, gap: int): (s: seq<Option<string>>)
    ensures |s| == 2 * hf + 1
  {
    seq(2 * hf + 1, j requires 0 <= j < 2 * hf + 1 => TrainSlot(host, stem, hf, gap, j))
  }

  /** The test window: every slot, the centre too, is rebuilt from frame number `fidx`. */
  function TestSlots(host: Host, stem: Stem, fidx: int, hf: nat, gap: int): (s: seq<Option<string>>)
    ensures |s| == 2 * hf + 1
  {
    seq(2 * hf + 1, j requires 0 <= j < 2 * hf + 1 => FrameSlot(host, stem, fidx, hf, gap, j))
  }

  /**
   * The slot whose value slot `j` takes after filling: `j` itself when it
   * holds a name, otherwise the one a step closer to the centre, repeatedly.
   */
  function NearestIndex<T>(slots: seq<Option<T>>, hf: nat, j: nat): (k: nat)
    requires |slots| == 2 * hf + 1 && j < |slots|
    ensures k < |slots|
    decreases if j <= hf then hf - j else j - hf
  {
    if slots[j].Some? || j == hf then j
    else if j < hf then NearestIndex(slots, hf, j + 1)
    else NearestIndex(slots, hf, j - 1)
  }

  function Nearest<T>(slots: seq<Option<T>>, hf: nat, j: nat): Option<T>
    requires |slots| == 2 * hf + 1 && j < |slots|
  {
    slots[NearestIndex(slots, hf, j)]
  }

  // ---------------------------------------------------------------------
  // Building and filling the window (prepare_train_img / prepare_test_img)

  /** The loop that appends one name (or `None`) per offset of the training window. */
  method BuildTrainSlots(host: Host, stem: Stem, hf: nat, gap: int) returns (slots: seq<Option<string>>)
    ensures slots == TrainSlots(host, stem, hf, gap)
  {
    hide Format06;
    var fidx: Option<nat> := if IsDigits(stem.name) then Some(ParseDigits(stem.name)) else None;
    ghost var want := TrainSlots(host, stem, hf, gap);
    slots := [];
    for i := -(hf as int) to hf + 1
      invariant |slots| == i + hf
      invariant slots == want[..i + hf]
    {
      assert want[..i + hf + 1] == want[..i + hf] + [want[i + hf]];
      if i == 0 {
        assert want[i + hf] == Some(host.join(stem.dir, stem.name + stem.ext));
        slots := slots + [Some(host.join(stem.dir, stem.name + stem.ext))];
        continue;
      }
      var shift := i * gap;
      var slot: Option<string>;
      if fidx.Some? {
        var other := host.join(stem.dir, Format06(fidx.value + shift) + stem.ext);
        if other !in host.files {
          slot := None;
        } else {
          slot := Some(other);
        }
      } else {
        slot := None;
      }
      TrainSlotAt(host, stem, hf, gap, i);
      slots := slots + [slot];
    }
    assert want[..2 * hf + 1] == want;
  }

  /** Slot `i + hf` of the training window, for an offset `i` other than the centre. */
  lemma TrainSlotAt(host: Host, stem: Stem, hf: nat, gap: int, i: int)
    requires -(hf as int) <= i <= hf && i != 0
    ensures TrainSlots(host, stem, hf, gap)[i + hf] ==
      if IsDigits(stem.name)
      then Probe(host, host.join(stem.dir, Format06(ParseDigits(stem.name) + i * gap) + stem.ext))
      else None
  {
    hide Format06;
    if IsDigits(stem.name) {
      OffsetSlot(host, stem, ParseDigits(stem.name), hf, gap, i);
    }
  }

  /** The test-mode loop: every offset, zero included, is probed on disk. */
  method BuildTestSlots(host: Host, stem: Stem, fidx: int, hf: nat, gap: int) returns (slots: seq<Option<string>>)
    ensures slots == TestSlots(host, stem, fidx, hf, gap)
  {
    hide Format06;
    slots := [];
    for i := -(hf as int) to hf + 1
      invariant |slots| == i + hf
      invariant forall j :: 0 <= j < |slots| ==> slots[j] == FrameSlot(host, stem, fidx, hf, gap, j)
    {
      var other := host.join(stem.dir, Format06(fidx + i * gap) + stem.ext);
      var slot: Option<string>;
      if other !in host.files {
        slot := None;
      } else {
        slot := Some(other);
      }
      OffsetSlot(host, stem, fidx, hf, gap, i);
      assert slot == FrameSlot(host, stem, fidx, hf, gap, i + hf);
      slots := slots + [slot];
    }
  }

  /**
   * When a slot is empty: the centre must hold a name, then the left half is
   * patched walking outward from the centre, then the right half, each empty
   * slot copying its neighbour one step closer to the centre.
   */
  method FillGaps<T(==)>(slots: seq<Option<T>>, hf: nat) returns (r: Result<seq<Option<T>>, FillError>)
    requires |slots| == 2 * hf + 1
    ensures r.Err? <==> slots[hf].None?
    ensures r.Ok? ==> |r.value| == |slots|
    ensures r.Ok? ==> forall j :: 0 <= j < |slots| ==> r.value[j] == Nearest(slots, hf, j)
  {
    if None !in slots {
      assert forall j :: 0 <= j < |slots| ==> slots[j].Some?;
      return Ok(slots);
    }
    if slots[hf].None? {
      return Err(NoCentreFrame);
    }
    var names := FillLeft(slots, hf);
    names := FillRight(names, slots, hf);
    r := Ok(names);
  }

  /** The left half, from the centre outward: an empty slot copies its right neighbour. */
  method FillLeft<T>(slots: seq<Option<T>>, hf: nat) returns (names: seq<Option<T>>)
    requires |slots| == 2 * hf + 1
    ensures |names| == |slots|
    ensures forall j :: 0 <= j <= hf ==> names[j] == Nearest(slots, hf, j)
    ensures forall j :: hf < j < |slots| ==> names[j] == slots[j]
  {
    names := slots;
    for i := 0 to hf
      invariant |names| == |slots|
      invariant forall j :: hf - i <= j <= hf ==> names[j] == Nearest(slots, hf, j)
      invariant forall j :: 0 <= j < |slots| && (j < hf - i || j > hf) ==> names[j] == slots[j]
    {
      NearestStep(slots, hf, hf - 1 - i);
      if names[hf - 1 - i].None? {
        names := names[hf - 1 - i := names[hf - i]];
      }
    }
  }

  /** The right half, from the centre outward: an empty slot copies its left neighbour. */
  method FillRight<T>(left: seq<Option<T>>, slots: seq<Option<T>>, hf: nat) returns (names: seq<Option<T>>)
    requires |slots| == 2 * hf + 1 && |left| == |slots|
    requires forall j :: 0 <= j <= hf ==> left[j] == Nearest(slots, hf, j)
    requires forall j :: hf < j < |slots| ==> left[j] == slots[j]
    ensures |names| == |slots|
    ensures forall j :: 0 <= j < |slots| ==> names[j] == Nearest(slots, hf, j)
  {
    names := left;
    for i := 0 to hf
      invariant |names| == |slots|
      invariant forall j :: 0 <= j <= hf + i ==> names[j] == Nearest(slots, hf, j)
      invariant forall j :: hf + i < j < |slots| ==> names[j] == slots[j]
    {
      NearestStep(slots, hf, hf + 1 + i);
      if names[hf + 1 + i].None? {
        names := names[hf + 1 + i := names[hf + i]];
      }
    }
  }

  // ---------------------------------------------------------------------
  // Lemmas

  /** An empty slot other than the centre takes the value of its neighbour one step closer to the centre. */
  lemma NearestStep<T>(slots: seq<Option<T>>, hf: nat, j: nat)
    requires |slots| == 2 * hf + 1 && j < |slots| && j != hf
    ensures slots[j].Some? ==> Nearest(slots, hf, j) == slots[j]
    ensures slots[j].None? && j < hf ==> Nearest(slots, hf, j) == Nearest(slots, hf, j + 1)
    ensures slots[j].None? && j > hf ==> Nearest(slots, hf, j) == Nearest(slots, hf, j - 1)
  {
  }

  /** Offset `i` of the loop fills slot `i + hf`. */
  lemma OffsetSlot(host: Host, stem: Stem, fidx: int, hf: nat, gap: int, i: int)
    requires -(hf as int) <= i <= hf
    ensures FrameSlot(host, stem, fidx, hf, gap, i + hf) ==
            Probe(host, host.join(stem.dir, Format06(fidx + i * gap) + stem.ext))
  {
    hide Format06;
    assert fidx + ((i + hf) - hf) * gap == fidx + i * gap;
  }

  /**
   * After filling, slot `j` holds the name of the closest slot between `j`
   * and the centre (inclusive) that held one, every slot strictly between
   * them being empty; a slot that held a name keeps it.
   */
  lemma {:induction false} NearestIsClosestPresent<T>(slots: seq<Option<T>>, hf: nat, j: nat)
    requires |slots| == 2 * hf + 1 && j < |slots|
    requires slots[hf].Some?
    ensures var k := NearestIndex(slots, hf, j);
      && (if j <= hf then j <= k <= hf else hf <= k <= j)
      && slots[k].Some?
      && (slots[j].Some? ==> k == j)
      && (forall m :: j < m < k || k < m < j ==> slots[m].None?)
    decreases if j <= hf then hf - j else j - hf
  {
    if slots[j].None? && j != hf {
      if j < hf {
        NearestIsClosestPresent(slots, hf, j + 1);
      } else {
        NearestIsClosestPresent(slots, hf, j - 1);
      }
    }
  }

  /** With the centre present, no slot is empty after filling. */
  lemma FilledHasNoGaps<T>(slots: seq<Option<T>>, hf: nat)
    requires |slots| == 2 * hf + 1
    requires slots[hf].Some?
    ensures forall j :: 0 <= j < |slots| ==> Nearest(slots, hf, j).Some?
  {
    forall j | 0 <= j < |slots| ensures Nearest(slots, hf, j).Some? {
      NearestIsClosestPresent(slots, hf, j);
    }
  }

  /**
   * In training, every frame of the filled window is the centre file or an
   * existing file named after frame `fidx + (k - hf) * gap`, where `k` is the
   * slot it was copied from; a non-numeric stem repeats the centre.
   */
  lemma TrainFrameOrigin(host: Host, stem: Stem, hf: nat, gap: int, j: nat)
    requires j < 2 * hf + 1
    ensures var slots := TrainSlots(host, stem, hf, gap);
      var k := NearestIndex(slots, hf, j);
      && Nearest(slots, hf, j).Some?
      && (k == hf ==> Nearest(slots, hf, j).value == CentreName(host, stem))
      && (k != hf ==> IsDigits(stem.name)
                      && Nearest(slots, hf, j).value in host.files
                      && Nearest(slots, hf, j).value == FrameName(host, stem, ParseDigits(stem.name) + (k - hf) * gap))
      && (!IsDigits(stem.name) ==> Nearest(slots, hf, j).value == CentreName(host, stem))
  {
    hide Format06;
    var slots := TrainSlots(host, stem, hf, gap);
    forall k | 0 <= k < |slots|
      ensures FromCentreOrFrame(host, stem, hf, gap, slots, k)
    {
      TrainSlotContents(host, stem, hf, gap, k);
    }
    NearestOrigin(host, stem, hf, gap, slots, j);
  }

  /** Slot `k` is empty, or is the centre, or an existing frame `(k - hf) * gap` away from a numeric stem. */
  predicate FromCentreOrFrame(host: Host, stem: Stem, hf: nat, gap: int, slots: seq<Option<string>>, k: nat)
    requires k < |slots|
  {
    && (k == hf ==> slots[k] == Some(CentreName(host, stem)))
    && (k != hf && slots[k].Some? ==> IsDigits(stem.name)
                                      && slots[k].value in host.files
                                      && slots[k].value == FrameName(host, stem, ParseDigits(stem.name) + (k - hf) * gap))
  }

  /** Filling copies a slot, so the filled frame has whatever origin that slot had. */
  lemma NearestOrigin(host: Host, stem: Stem, hf: nat, gap: int, slots: seq<Option<string>>, j: nat)
    requires |slots| == 2 * hf + 1 && j < |slots|
    requires forall k :: 0 <= k < |slots| ==> FromCentreOrFrame(host, stem, hf, gap, slots, k)
    ensures var k := NearestIndex(slots, hf, j);
      && Nearest(slots, hf, j).Some?
      && (k == hf ==> Nearest(slots, hf, j).value == CentreName(host, stem))
      && (k != hf ==> IsDigits(stem.name)
                      && Nearest(slots, hf, j).value in host.files
                      && Nearest(slots, hf, j).value == FrameName(host, stem, ParseDigits(stem.name) + (k - hf) * gap))
      && (!IsDigits(stem.name) ==> Nearest(slots, hf, j).value == CentreName(host, stem))
  {
    hide Format06;
    assert FromCentreOrFrame(host, stem, hf, gap, slots, hf);
    NearestIsClosestPresent(slots, hf, j);
    var k := NearestIndex(slots, hf, j);
    assert FromCentreOrFrame(host, stem, hf, gap, slots, k);
  }

  /** What a present slot of the training window holds. */
  lemma TrainSlotContents(host: Host, stem: Stem, hf: nat, gap: int, k: nat)
    requires k < 2 * hf + 1
    ensures var slot := TrainSlots(host, stem, hf, gap)[k];
      && (k == hf ==> slot == Some(CentreName(host, stem)))
      && (k != hf && slot.Some? ==> IsDigits(stem.name)
                                    && slot.value in host.files
                                    && slot.value == FrameName(host, stem, ParseDigits(stem.name) + (k - hf) * gap))
  {
    hide Format06;
  }

  /** One slot of the two windows, for a frame number whose `'%06d'` name is the centre file. */
  lemma TestSlotMatchesTrain(host: Host, stem: Stem, fidx: int, hf: nat, gap: int, j: nat)
    requires IsDigits(stem.name) && fidx == ParseDigits(stem.name)
    requires FrameName(host, stem, fidx) == CentreName(host, stem)
    requires CentreName(host, stem) in host.files
    requires j < 2 * hf + 1
    ensures TestSlots(host, stem, fidx, hf, gap)[j] == TrainSlots(host, stem, hf, gap)[j]
  {
    hide Format06;
    if j == hf {
      assert fidx + (j - hf) * gap == fidx;
      assert FrameSlot(host, stem, fidx, hf, gap, j) == Probe(host, FrameName(host, stem, fidx));
    }
  }

  /**
   * For a canonical numeric stem whose file exists, the test window equals
   * the training window; `StemReformat` shows that any other numeric stem
   * names a different centre file stem.
   */
  lemma TestWindowMatchesTrain(host: Host, stem: Stem, hf: nat, gap: int)
    requires Canonical06(stem.name)
    requires CentreName(host, stem) in host.files
    ensures TestSlots(host, stem, ParseDigits(stem.name), hf, gap) == TrainSlots(host, stem, hf, gap)
  {
    hide Format06;
    var fidx := ParseDigits(stem.name);
    StemReformat(stem.name);
    assert FrameName(host, stem, fidx) == CentreName(host, stem);
    forall j | 0 <= j < 2 * hf + 1
      ensures TestSlots(host, stem, fidx, hf, gap)[j] == TrainSlots(host, stem, hf, gap)[j]
    {
      TestSlotMatchesTrain(host, stem, fidx, hf, gap, j);
    }
  }
}
