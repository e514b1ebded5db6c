/**
 * The confusion matrix as the evaluation keeps it: a square array of pixel
 * counts allocated once per run (`generateMatrix`) and updated in place,
 * one pixel pair at a time, by the pure-Python loop of `evaluatePair`.
 */
module Confusion {
  import opened Wrappers
  import opened SeqMath
  import opened Taxonomy
  import opened Matrix

  /** Fatal outcomes of the per-pixel loop. */
  datatype PixelError =
    | UnknownLabel(id: nat)            // ground-truth value not among the evaluated ids ("Unknown label with id")
    | PredictionOutOfRange(id: nat)    // predicted value past the last column (numpy's IndexError)

  class ConfusionMatrix {
    /** `args.evalLabels`: the non-negative taxonomy ids, in table order. */
    const evalLabels: seq<nat>
    /** `maxId + 1`: the number of rows and of columns. */
    const size: nat
    const counts: array2<nat>

    ghost predicate Valid()
      reads this
    {
      && counts.Length0 == size && counts.Length1 == size
      && forall x :: x in evalLabels ==> x < size
    }

    /** The current counts as a matrix value. */
    ghost function Cells(): (c: seq<seq<nat>>)
      requires Valid()
      reads this, counts
      ensures |c| == size && IsSquare(c)
      ensures forall i, j :: 0 <= i < size && 0 <= j < size ==> c[i][j] == counts[i, j]
    {
      seq(size, i requires 0 <= i < size reads counts =>
        seq(size, j requires 0 <= j < size reads counts => counts[i, j]))
    }

    /** An all-zero `size` x `size` matrix for the given evaluated ids. */
    constructor (evalLabels: seq<nat>, size: nat)
      requires forall x :: x in evalLabels ==> x < size
      ensures Valid() && fresh(counts)
      ensures this.evalLabels == evalLabels && this.size == size
      ensures Cells() == Zero(size)
    {
      this.evalLabels := evalLabels;
      this.size := size;
      counts := new nat[size, size]((i, j) => 0);
      new;
      SameCells(Cells(), Zero(size));
    }

    /** The pixel pair can be counted: known ground truth, prediction inside the matrix. */
    predicate Countable(g: nat, p: nat) {
      g in evalLabels && p < size
    }

    /** The first `n` pixel pairs of the image can be counted. */
    predicate AllCountable(gt: seq<nat>, pred: seq<nat>, n: nat)
      requires n <= |gt| == |pred|
    {
      forall k :: 0 <= k < n ==> Countable(gt[k], pred[k])
    }

    /**
     * The pure-Python accumulation: `confMatrix[gt][pred] += 1` for every
     * pixel, aborting at the first ground-truth value that is not evaluated
     * or prediction value that has no column. Pixels before the offending
     * one have already been counted when the run aborts.
     */
    method AddPair(gt: seq<nat>, pred: seq<nat>) returns (r: Result<nat, PixelError>)
      requires Valid() && |gt| == |pred|
      modifies counts
      ensures Valid()
      ensures r.Success? ==>
        && r.value == |gt|
        && AllCountable(gt, pred, |gt|)
        && Cells() == Accumulate(old(Cells()), gt, pred, |gt|)
      ensures r.Failure? ==>
        exists k :: (
          && 0 <= k < |gt|
          && AllCountable(gt, pred, k)
          && !Countable(gt[k], pred[k])
          && r.error == (if gt[k] !in evalLabels then UnknownLabel(gt[k]) else PredictionOutOfRange(pred[k]))
          && Cells() == Accumulate(old(Cells()), gt, pred, k))
    {
      ghost var start := Cells();
      var k := 0;
      while k < |gt|
        invariant 0 <= k <= |gt|
        invariant AllCountable(gt, pred, k)
        invariant Fits(start, gt, pred, k)
        invariant Cells() == Accumulate(start, gt, pred, k)
      {
        var g, p := gt[k], pred[k];
        if g !in evalLabels {
          return Failure(UnknownLabel(g));
        }
        if p >= size {
          return Failure(PredictionOutOfRange(p));
        }
        Bump(g, p);
        k := k + 1;
      }
      return Success(|gt|);
    }

    /** `confMatrix[g][p] += 1`. */
    method Bump(g: nat, p: nat)
      requires Valid() && g < size && p < size
      modifies counts
      ensures Valid()
      ensures Cells() == Increment(old(Cells()), g, p)
    {
      ghost var before := Cells();
      counts[g, p] := counts[g, p] + 1;
      SameCells(Cells(), Increment(before, g, p));
    }

    /** The counts as nested lists (`confMatrix.tolist()`). */
    method Snapshot() returns (m: seq<seq<nat>>)
      requires Valid()
      ensures m == Cells()
    {
      m := [];
      var i := 0;
      while i < size
        invariant 0 <= i <= size
        invariant |m| == i
        invariant forall a :: 0 <= a < i ==> m[a] == Cells()[a]
      {
        var row: seq<nat> := [];
        var j := 0;
        while j < size
          invariant 0 <= j <= size
          invariant |row| == j
          invariant forall b :: 0 <= b < j ==> row[b] == counts[i, b]
        {
          row := row + [counts[i, j]];
          j := j + 1;
        }
        assert row == Cells()[i];
        m := m + [row];
        i := i + 1;
      }
    }

    /** `confMatrix.sum()`. */
    method Sum() returns (s: nat)
      requires Valid()
      ensures s == Total(Cells())
    {
      ghost var c := Cells();
      s := 0;
      var i := 0;
      while i < size
        invariant 0 <= i <= size
        invariant s == Total(c[..i])
      {
        var j := 0;
        var rowSum := 0;
        while j < size
          invariant 0 <= j <= size
          invariant rowSum == RowSum(c[i][..j])
        {
          assert c[i][..j + 1][..j] == c[i][..j];
          rowSum := rowSum + counts[i, j];
          j := j + 1;
        }
        assert c[i][..j] == c[i];
        assert c[..i + 1][..i] == c[..i];
        s := s + rowSum;
        i := i + 1;
      }
      assert c[..i] == c;
    }
  }

  /** Why `generateMatrix` cannot produce a matrix. */
  datatype SetupError = NoEvalLabels   // `max()` of an empty id list

  /**
   * `generateMatrix`: collects every non-negative taxonomy id (ignored
   * labels included) and allocates a zero matrix of side `maxId + 1`.
   */
  method GenerateMatrix(labels: seq<Label>) returns (r: Result<ConfusionMatrix, SetupError>)
    ensures r.Failure? <==> NonNegativeIds(labels) == []
    ensures r.Success? ==>
      && r.value.Valid()
      && fresh(r.value.counts)
      && r.value.evalLabels == NonNegativeIds(labels)
      && r.value.size == Max(NonNegativeIds(labels)) + 1
      && r.value.Cells() == Zero(r.value.size)
  {
    var ids: seq<nat> := [];
    var k := 0;
    while k < |labels|
      invariant 0 <= k <= |labels|
      invariant ids == NonNegativeIds(labels[..k])
    {
      assert labels[..k + 1][..k] == labels[..k];
      if labels[k].id >= 0 {
        ids := ids + [labels[k].id];
      }
      k := k + 1;
    }
    assert labels[..k] == labels;
    if ids == [] {
      return Failure(NoEvalLabels);
    }
    var maxId := Max(ids);
    var matrix := new ConfusionMatrix(ids, maxId + 1);
    return Success(matrix);
  }
}
