/**
 * Pre-computed proposals of one image: an `(n, 4)` or `(n, 5)` array whose
 * optional fifth column holds scores. Covers the `[:num_max_proposals]`
 * truncation and the split of the score column from the boxes.
 */
module Proposals {
  import opened Wrappers

  /** A two-dimensional array given by its rows and its column count. */
  datatype Matrix = Matrix(rows: seq<seq<real>>, cols: nat)

  predicate Rectangular(m: Matrix) {
    forall i :: 0 <= i < |m.rows| ==> |m.rows[i]| == m.cols
  }

  type ProposalArray = m: Matrix | Rectangular(m) witness Matrix([], 4)

  /** Boxes (first four columns) and, for five columns, the scores. */
  datatype Split = Split(boxes: seq<seq<real>>, scores: Option<seq<real>>)

  /** The AssertionError raised for a column count other than 4 or 5. */
  datatype ShapeError = ShapeError(rows: nat, cols: nat)

  /** End of the Python slice `[:n]` over `len` items; a negative `n` counts from the end. */
  function PrefixEnd(len: nat, n: int): nat {
    if n >= 0 then (if n < len then n else len)
    else if len + n > 0 then len + n else 0
  }

  /** `proposals[:n]`. */
  function TakeRows(m: ProposalArray, n: int): (r: ProposalArray)
    ensures r.cols == m.cols
    ensures |r.rows| <= |m.rows| && r.rows == m.rows[..|r.rows|]
    ensures n >= 0 ==> |r.rows| <= n
    ensures n >= |m.rows| ==> r == m
    ensures 0 <= n <= |m.rows| ==> |r.rows| == n
  {
    Matrix(m.rows[..PrefixEnd(|m.rows|, n)], m.cols)
  }

  /** `scores = proposals[:, 4, None]; proposals = proposals[:, :4]` for five columns. */
  function SplitScores(m: ProposalArray): (r: Result<Split, ShapeError>)
    ensures r.Err? <==> m.cols != 4 && m.cols != 5
    ensures r.Ok? ==> |r.value.boxes| == |m.rows|
    ensures r.Ok? ==> forall i :: 0 <= i < |m.rows| ==> |r.value.boxes[i]| == 4 && r.value.boxes[i] == m.rows[i][..4]
    ensures r.Ok? ==> (r.value.scores.Some? <==> m.cols == 5)
    ensures r.Ok? && m.cols == 5 ==> |r.value.scores.value| == |m.rows|
    ensures r.Ok? && m.cols == 5 ==> forall i :: 0 <= i < |m.rows| ==> r.value.scores.value[i] == m.rows[i][4]
  {
    if m.cols != 4 && m.cols != 5 then Err(ShapeError(|m.rows|, m.cols))
    else if m.cols == 5 then
      Ok(Split(seq(|m.rows|, i requires 0 <= i < |m.rows| => m.rows[i][..4]),
               Some(seq(|m.rows|, i requires 0 <= i < |m.rows| => m.rows[i][4]))))
    else
      Ok(Split(m.rows, None))
  }

  /** `np.hstack([proposals, scores])` when there are scores, the boxes alone otherwise. */
  function Hstack(sp: Split): seq<seq<real>>
    requires sp.scores.Some? ==> |sp.scores.value| == |sp.boxes|
  {
    if sp.scores.Some? then
      seq(|sp.boxes|, i requires 0 <= i < |sp.boxes| => sp.boxes[i] + [sp.scores.value[i]])
    else sp.boxes
  }

  /** Putting the score column back after the split gives the original rows. */
  lemma SplitHstackRoundTrip(m: ProposalArray)
    requires m.cols == 4 || m.cols == 5
    ensures SplitScores(m).Ok?
    ensures Hstack(SplitScores(m).value) == m.rows
  {
    var sp := SplitScores(m).value;
    if m.cols == 5 {
      var h := Hstack(sp);
      forall i | 0 <= i < |m.rows| ensures h[i] == m.rows[i] {
        assert m.rows[i] == m.rows[i][..4] + [m.rows[i][4]];
      }
    } else {
      forall i | 0 <= i < |m.rows| ensures m.rows[i][..4] == m.rows[i] { }
    }
  }
}
