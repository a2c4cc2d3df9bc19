/**
 * Boolean-mask indexing of a flat anchor buffer: `x[mask]` keeps the rows
 * where the mask holds, and `unmap` scatters such a subset back into a
 * full-length buffer.
 */
module Masks {

  function CountTrue(m: seq<bool>): nat {
    if m == [] then 0 else CountTrue(m[..|m| - 1]) + (if m[|m| - 1] then 1 else 0)
  }

  predicate AnyTrue(m: seq<bool>) {
    exists i :: 0 <= i < |m| && m[i]
  }

  /** `x[mask]`: the items where the mask holds, in order. */
  function Select<T>(x: seq<T>, m: seq<bool>): (r: seq<T>)
    requires |x| == |m|
    ensures |r| == CountTrue(m)
  {
    if x == [] then []
    else
      var n := |x| - 1;
      Select(x[..n], m[..n]) + (if m[n] then [x[n]] else [])
  }

  /** `ret = full(|m|, fill); ret[m] = data`: position `i` gets the item of rank `CountTrue(m[..i])`. */
  function Scatter<T>(data: seq<T>, m: seq<bool>, fill: T): (r: seq<T>)
    requires CountTrue(m) == |data|
    ensures |r| == |m|
  {
    seq(|m|, i requires 0 <= i < |m| =>
      if m[i] then RankBelowCount(m, i); data[CountTrue(m[..i])] else fill)
  }

  function Sum(s: seq<real>): real {
    if s == [] then 0.0 else Sum(s[..|s| - 1]) + s[|s| - 1]
  }

  // ---------------------------------------------------------------------
  // unmap

  /**
   * `unmap(data, count, mask, fill)`: a buffer of `count` copies of `fill`
   * into whose masked positions the items of `data` are written in order.
   */
  method Unmap<T>(data: seq<T>, count: nat, mask: seq<bool>, fill: T) returns (r: seq<T>)
    requires |mask| == count && CountTrue(mask) == |data|
    ensures r == Scatter(data, mask, fill)
    ensures |r| == count
    ensures forall i :: 0 <= i < count && !mask[i] ==> r[i] == fill
    ensures Select(r, mask) == data
  {
    var ret := new T[count](_ => fill);
    var k := 0;
    for i := 0 to count
      invariant k == CountTrue(mask[..i])
      invariant forall j :: 0 <= j < i ==> ret[j] == Scatter(data, mask, fill)[j]
      invariant forall j :: i <= j < count ==> ret[j] == fill
    {
      assert mask[..i + 1] == mask[..i] + [mask[i]];
      assert mask[..i + 1][..i] == mask[..i];
      if mask[i] {
        RankBelowCount(mask, i);
        ret[i] := data[k];
        k := k + 1;
      }
    }
    r := ret[..];
    SelectScatter(data, mask, fill);
  }

  // ---------------------------------------------------------------------
  // Lemmas

  lemma {:induction false} CountTruePrefix(m: seq<bool>, i: nat)
    requires i <= |m|
    ensures CountTrue(m[..i]) <= CountTrue(m)
    decreases |m| - i
  {
    if i < |m| {
      var n := |m| - 1;
      assert m[..n][..i] == m[..i];
      CountTruePrefix(m[..n], i);
    } else {
      assert m[..i] == m;
    }
  }

  lemma RankBelowCount(m: seq<bool>, i: nat)
    requires i < |m| && m[i]
    ensures CountTrue(m[..i]) < CountTrue(m)
  {
    assert m[..i + 1][..i] == m[..i];
    CountTruePrefix(m, i + 1);
  }

  lemma {:induction false} CountTrueZeroIffNone(m: seq<bool>)
    ensures CountTrue(m) == 0 <==> !AnyTrue(m)
  {
    if m != [] {
      var n := |m| - 1;
      CountTrueZeroIffNone(m[..n]);
      assert forall i :: 0 <= i < n ==> m[..n][i] == m[i];
    }
  }

  /** The item where the mask holds at `i` is the one of rank `CountTrue(m[..i])` in `x[mask]`. */
  lemma {:induction false} SelectAt<T>(x: seq<T>, m: seq<bool>, i: nat)
    requires |x| == |m| && i < |m| && m[i]
    ensures CountTrue(m[..i]) < CountTrue(m)
    ensures Select(x, m)[CountTrue(m[..i])] == x[i]
  {
    RankBelowCount(m, i);
    var n := |x| - 1;
    if i < n {
      assert m[..n][..i] == m[..i];
      SelectAt(x[..n], m[..n], i);
    } else {
      assert m[..n] == m[..i];
    }
  }

  /** Reading back the masked positions of an unmapped buffer gives the data: `unmap(d)[m] == d`. */
  lemma SelectScatter<T>(data: seq<T>, m: seq<bool>, fill: T)
    requires CountTrue(m) == |data|
    ensures Select(Scatter(data, m, fill), m) == data
  {
    var s := Scatter(data, m, fill);
    SelectScatterPrefix(data, m, fill, |m|);
    assert s[..|m|] == s && m[..|m|] == m;
  }

  lemma {:induction false} SelectScatterPrefix<T>(data: seq<T>, m: seq<bool>, fill: T, n: nat)
    requires CountTrue(m) == |data| && n <= |m|
    ensures CountTrue(m[..n]) <= |data|
    ensures Select(Scatter(data, m, fill)[..n], m[..n]) == data[..CountTrue(m[..n])]
  {
    CountTruePrefix(m, n);
    var s := Scatter(data, m, fill);
    if n > 0 {
      SelectScatterPrefix(data, m, fill, n - 1);
      assert s[..n][..n - 1] == s[..n - 1];
      assert m[..n][..n - 1] == m[..n - 1];
      var c := CountTrue(m[..n - 1]);
      if m[n - 1] {
        RankBelowCount(m, n - 1);
        assert data[..c] + [data[c]] == data[..c + 1];
      }
    }
  }

  /** Scattering into a zero buffer does not change the sum. */
  lemma SumScatterZero(data: seq<real>, m: seq<bool>)
    requires CountTrue(m) == |data|
    ensures Sum(Scatter(data, m, 0.0)) == Sum(data)
  {
    var s := Scatter(data, m, 0.0);
    SumScatterPrefix(data, m, |m|);
    assert s[..|m|] == s && m[..|m|] == m && data[..|data|] == data;
  }

  lemma {:induction false} SumScatterPrefix(data: seq<real>, m: seq<bool>, n: nat)
    requires CountTrue(m) == |data| && n <= |m|
    ensures CountTrue(m[..n]) <= |data|
    ensures Sum(Scatter(data, m, 0.0)[..n]) == Sum(data[..CountTrue(m[..n])])
  {
    CountTruePrefix(m, n);
    var s := Scatter(data, m, 0.0);
    if n > 0 {
      SumScatterPrefix(data, m, n - 1);
      assert s[..n][..n - 1] == s[..n - 1];
      assert m[..n][..n - 1] == m[..n - 1];
      var c := CountTrue(m[..n - 1]);
      if m[n - 1] {
        RankBelowCount(m, n - 1);
        assert (data[..c + 1])[..c] == data[..c];
      }
    }
  }
}
