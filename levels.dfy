/**
 * Per-image targets over all anchors, cut into per-level slices
 * (`images_to_levels`), and the concatenation of per-level anchors into
 * one flat buffer (`torch.cat`) that it undoes.
 */
module Levels {

  /** A level's targets for every image, or, with a single image, its rows alone (`squeeze(0)`). */
  datatype Level<T> = PerImage(images: seq<seq<T>>) | Squeezed(rows: seq<T>)

  function SumNat(s: seq<nat>): nat {
    if s == [] then 0 else SumNat(s[..|s| - 1]) + s[|s| - 1]
  }

  /** The first anchor of level `k`: the sum of the earlier levels' counts. */
  function LevelStart(sizes: seq<nat>, k: nat): nat
    requires k <= |sizes|
  {
    SumNat(sizes[..k])
  }

  /** `s[start:end]` for `start <= end`, clamped to the length as Python slicing is. */
  function Slice<T>(s: seq<T>, start: nat, end: nat): seq<T>
    requires start <= end
  {
    var a := if start < |s| then start else |s|;
    var b := if end < |s| then end else |s|;
    s[a..b]
  }

  /** `torch.cat(levels)`. */
  function Flatten<T>(ls: seq<seq<T>>): seq<T> {
    if ls == [] then [] else Flatten(ls[..|ls| - 1]) + ls[|ls| - 1]
  }

  function Sizes<T>(ls: seq<seq<T>>): (r: seq<nat>)
    ensures |r| == |ls|
  {
    seq(|ls|, k requires 0 <= k < |ls| => |ls[k]|)
  }

  /** `torch.stack(target, 0)` needs at least one image and equal lengths. */
  predicate Stackable<T>(target: seq<seq<T>>) {
    |target| >= 1 && forall i :: 0 <= i < |target| ==> |target[i]| == |target[0]|
  }

  /** `target[:, start:start + n].squeeze(0)` of the stacked targets. */
  function LevelOf<T>(target: seq<seq<T>>, start: nat, n: nat): Level<T> {
    if |target| == 1 then Squeezed(Slice(target[0], start, start + n))
    else PerImage(seq(|target|, i requires 0 <= i < |target| => Slice(target[i], start, start + n)))
  }

  /** `images_to_levels`: level `k` covers anchors `[s_k, s_k + n_k)`, with `s_k` the running start. */
  method ImagesToLevels<T>(target: seq<seq<T>>, numLevelAnchors: seq<nat>) returns (levels: seq<Level<T>>)
    requires Stackable(target)
    ensures |levels| == |numLevelAnchors|
    ensures forall k :: 0 <= k < |levels| ==>
      levels[k] == LevelOf(target, LevelStart(numLevelAnchors, k), numLevelAnchors[k])
  {
    levels := [];
    var start := 0;
    for k := 0 to |numLevelAnchors|
      invariant start == LevelStart(numLevelAnchors, k)
      invariant |levels| == k
      invariant forall j :: 0 <= j < k ==>
        levels[j] == LevelOf(target, LevelStart(numLevelAnchors, j), numLevelAnchors[j])
    {
      var end := start + numLevelAnchors[k];
      levels := levels + [LevelOf(target, start, end - start)];
      assert numLevelAnchors[..k + 1][..k] == numLevelAnchors[..k];
      start := end;
    }
  }

  // ---------------------------------------------------------------------
  // Lemmas

  /** Level `k` ends where level `k + 1` starts. */
  lemma LevelsAdjacent(sizes: seq<nat>, k: nat)
    requires k < |sizes|
    ensures LevelStart(sizes, k + 1) == LevelStart(sizes, k) + sizes[k]
  {
    assert sizes[..k + 1][..k] == sizes[..k];
  }

  /** The level slices of one image's targets. */
  function Cuts<T>(s: seq<T>, sizes: seq<nat>): (r: seq<seq<T>>)
    ensures |r| == |sizes|
  {
    seq(|sizes|, k requires 0 <= k < |sizes| => Slice(s, LevelStart(sizes, k), LevelStart(sizes, k) + sizes[k]))
  }

  /** The first `n` level slices depend only on the first `n` level sizes. */
  lemma CutsPrefix<T>(s: seq<T>, sizes: seq<nat>, n: nat)
    requires n <= |sizes|
    ensures Cuts(s, sizes)[..n] == Cuts(s, sizes[..n])
  {
    forall k | 0 <= k < n
      ensures Cuts(s, sizes)[k] == Cuts(s, sizes[..n])[k]
    {
      assert sizes[..n][..k] == sizes[..k];
      assert LevelStart(sizes[..n], k) == LevelStart(sizes, k);
      assert sizes[..n][k] == sizes[k];
    }
    assert |Cuts(s, sizes)[..n]| == n == |Cuts(s, sizes[..n])|;
  }

  /** The level slices of one image, concatenated, give back its first `sum(sizes)` targets. */
  lemma {:induction false} LevelsTile<T>(s: seq<T>, sizes: seq<nat>)
    requires SumNat(sizes) <= |s|
    ensures Flatten(Cuts(s, sizes)) == s[..SumNat(sizes)]
  {
    if sizes != [] {
      var n := |sizes| - 1;
      var p := sizes[..n];
      assert SumNat(sizes) == SumNat(p) + sizes[n];
      LevelsTile(s, p);
      CutsPrefix(s, sizes, n);
      var c := Cuts(s, sizes);
      assert c[n] == s[SumNat(p)..SumNat(sizes)] by {
        assert LevelStart(sizes, n) == SumNat(p);
      }
      assert Flatten(c) == Flatten(c[..n]) + c[n];
      assert s[..SumNat(p)] + s[SumNat(p)..SumNat(sizes)] == s[..SumNat(sizes)];
    }
  }

  lemma {:induction false} FlattenAppend<T>(a: seq<seq<T>>, b: seq<seq<T>>)
    ensures Flatten(a + b) == Flatten(a) + Flatten(b)
  {
    if b != [] {
      var n := |b| - 1;
      assert (a + b)[..|a + b| - 1] == a + b[..n];
      FlattenAppend(a, b[..n]);
    } else {
      assert a + b == a;
    }
  }

  lemma {:induction false} FlattenLength<T>(ls: seq<seq<T>>)
    ensures |Flatten(ls)| == SumNat(Sizes(ls))
  {
    if ls != [] {
      var n := |ls| - 1;
      FlattenLength(ls[..n]);
      assert Sizes(ls)[..n] == Sizes(ls[..n]);
    }
  }

  /** Cutting the concatenation of levels at the levels' own sizes gives back level `k`. */
  lemma SliceOfFlatten<T>(ls: seq<seq<T>>, k: nat)
    requires k < |ls|
    ensures var start := LevelStart(Sizes(ls), k);
      Slice(Flatten(ls), start, start + |ls[k]|) == ls[k]
  {
    var before, after := ls[..k], ls[k + 1..];
    assert ls == before + [ls[k]] + after;
    FlattenAppend(before + [ls[k]], after);
    FlattenAppend(before, [ls[k]]);
    assert Flatten([ls[k]]) == ls[k] by {
      assert [ls[k]][..0] == [];
    }
    FlattenLength(before);
    assert Sizes(ls)[..k] == Sizes(before);
  }

  /**
   * Concatenating every image's levels and then cutting the stacked result
   * with the same level sizes gives, for each level, every image's original
   * level; with one image, that level alone.
   */
  lemma SplitConcatenated<T>(perImage: seq<seq<seq<T>>>, sizes: seq<nat>, k: nat)
    requires |perImage| >= 1 && k < |sizes|
    requires forall i :: 0 <= i < |perImage| ==> |perImage[i]| == |sizes| && Sizes(perImage[i]) == sizes
    ensures var target := seq(|perImage|, i requires 0 <= i < |perImage| => Flatten(perImage[i]));
      LevelOf(target, LevelStart(sizes, k), sizes[k]) ==
        if |perImage| == 1 then Squeezed(perImage[0][k])
        else PerImage(seq(|perImage|, i requires 0 <= i < |perImage| => perImage[i][k]))
  {
    forall i | 0 <= i < |perImage|
      ensures Slice(Flatten(perImage[i]), LevelStart(sizes, k), LevelStart(sizes, k) + sizes[k]) == perImage[i][k]
    {
      assert |Sizes(perImage[i])| == |perImage[i]|;
      assert Sizes(perImage[i])[k] == |perImage[i][k]|;
      SliceOfFlatten(perImage[i], k);
    }
  }
}
