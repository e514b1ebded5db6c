/**
 * The confusion matrix as a value: row `i` holds the pixels whose ground
 * truth is label id `i`, column `j` those predicted as label id `j`.
 * Everything the score calculator reads (cells, row sums, column and
 * sub-matrix sums, the total) is defined here, together with the
 * functional meaning of accumulating one image pair.
 */
module Matrix {
  import opened SeqMath

  /** Every row has as many columns as there are rows. */
  predicate IsSquare(m: seq<seq<nat>>) {
    forall i :: 0 <= i < |m| ==> |m[i]| == |m|
  }

  /** The matrix `np.zeros((n, n))`. */
  function Zero(n: nat): (m: seq<seq<nat>>)
    ensures |m| == n && IsSquare(m)
    ensures forall i, j :: 0 <= i < n && 0 <= j < n ==> m[i][j] == 0
  {
    seq(n, _ => seq(n, _ => 0))
  }

  /** Two square matrices of one size that agree on every cell are equal. */
  lemma SameCells(a: seq<seq<nat>>, b: seq<seq<nat>>)
    requires |a| == |b| && IsSquare(a) && IsSquare(b)
    requires forall i, j :: 0 <= i < |a| && 0 <= j < |a| ==> a[i][j] == b[i][j]
    ensures a == b
  {
    forall i | 0 <= i < |a| ensures a[i] == b[i] { }
  }

  /** `row.sum()`. */
  function RowSum(row: seq<nat>): nat {
    if |row| == 0 then 0 else RowSum(row[..|row| - 1]) + row[|row| - 1]
  }

  /** `confMatrix.sum()`: all cells. */
  function Total(m: seq<seq<nat>>): nat {
    if |m| == 0 then 0 else Total(m[..|m| - 1]) + RowSum(m[|m| - 1])
  }

  /** `confMatrix[i][j] += 1`. */
  function Increment(m: seq<seq<nat>>, i: nat, j: nat): (r: seq<seq<nat>>)
    requires i < |m| && j < |m[i]|
    ensures |r| == |m|
    ensures forall a :: 0 <= a < |m| ==> |r[a]| == |m[a]|
    ensures r[i][j] == m[i][j] + 1
    ensures forall a, b :: 0 <= a < |m| && 0 <= b < |m[a]| && (a != i || b != j) ==> r[a][b] == m[a][b]
  {
    m[i := m[i][j := m[i][j] + 1]]
  }

  /** The first `n` pixel pairs each address a cell of `m`. */
  predicate Fits(m: seq<seq<nat>>, gt: seq<nat>, pred: seq<nat>, n: nat) {
    && n <= |gt| == |pred|
    && forall k :: 0 <= k < n ==> gt[k] < |m| && pred[k] < |m|
  }

  /** Among the first `n` pixels, those whose ground truth is `i` and whose prediction is `j`. */
  function Count(gt: seq<nat>, pred: seq<nat>, n: nat, i: nat, j: nat): (c: nat)
    requires n <= |gt| == |pred|
    ensures c <= n
  {
    if n == 0 then 0
    else Count(gt, pred, n - 1, i, j) + (if gt[n - 1] == i && pred[n - 1] == j then 1 else 0)
  }

  /** The matrix after the per-pixel loop has visited the first `n` pixel pairs, in order. */
  function Accumulate(m: seq<seq<nat>>, gt: seq<nat>, pred: seq<nat>, n: nat): (r: seq<seq<nat>>)
    requires IsSquare(m) && Fits(m, gt, pred, n)
    ensures |r| == |m| && IsSquare(r)
  {
    if n == 0 then m
    else Increment(Accumulate(m, gt, pred, n - 1), gt[n - 1], pred[n - 1])
  }

  /** Adding one to a cell adds one to its row sum. */
  lemma {:induction false} RowSumIncrement(row: seq<nat>, j: nat)
    requires j < |row|
    ensures RowSum(row[j := row[j] + 1]) == RowSum(row) + 1
  {
    var n := |row| - 1;
    var row' := row[j := row[j] + 1];
    if j < n {
      assert row'[..n] == row[..n][j := row[j] + 1];
      RowSumIncrement(row[..n], j);
    } else {
      assert row'[..n] == row[..n];
    }
  }

  /** Adding one to a cell adds one to the total. */
  lemma {:induction false} TotalIncrement(m: seq<seq<nat>>, i: nat, j: nat)
    requires i < |m| && j < |m[i]|
    ensures Total(Increment(m, i, j)) == Total(m) + 1
  {
    var n := |m| - 1;
    var r := Increment(m, i, j);
    if i < n {
      assert r[..n] == Increment(m[..n], i, j);
      TotalIncrement(m[..n], i, j);
    } else {
      assert r[..n] == m[..n];
      RowSumIncrement(m[i], j);
    }
  }

  /** Matrix conservation: every accumulated pixel pair adds exactly one to the total. */
  lemma {:induction false} AccumulateTotal(m: seq<seq<nat>>, gt: seq<nat>, pred: seq<nat>, n: nat)
    requires IsSquare(m) && Fits(m, gt, pred, n)
    ensures Total(Accumulate(m, gt, pred, n)) == Total(m) + n
  {
    if n > 0 {
      AccumulateTotal(m, gt, pred, n - 1);
      TotalIncrement(Accumulate(m, gt, pred, n - 1), gt[n - 1], pred[n - 1]);
    }
  }

  /** Each cell grows by exactly the number of pixel pairs that address it. */
  lemma {:induction false} AccumulateCell(m: seq<seq<nat>>, gt: seq<nat>, pred: seq<nat>, n: nat, i: nat, j: nat)
    requires IsSquare(m) && Fits(m, gt, pred, n) && i < |m| && j < |m|
    ensures Accumulate(m, gt, pred, n)[i][j] == m[i][j] + Count(gt, pred, n, i, j)
  {
    if n > 0 {
      AccumulateCell(m, gt, pred, n - 1, i, j);
    }
  }

  /** A matrix whose cells are all zero has total zero. */
  lemma {:induction false} ZeroTotal(m: seq<seq<nat>>)
    requires forall i, j :: 0 <= i < |m| && 0 <= j < |m[i]| ==> m[i][j] == 0
    ensures Total(m) == 0
  {
    if |m| > 0 {
      var n := |m| - 1;
      ZeroTotal(m[..n]);
      ZeroRowSum(m[n]);
    }
  }

  lemma {:induction false} ZeroRowSum(row: seq<nat>)
    requires forall j :: 0 <= j < |row| ==> row[j] == 0
    ensures RowSum(row) == 0
  {
    if |row| > 0 { ZeroRowSum(row[..|row| - 1]); }
  }

  /** A cell never exceeds its row sum. */
  lemma {:induction false} CellWithinRow(row: seq<nat>, j: nat)
    requires j < |row|
    ensures row[j] <= RowSum(row)
  {
    if j < |row| - 1 { CellWithinRow(row[..|row| - 1], j); }
  }

  /** A row sum never exceeds the total. */
  lemma {:induction false} RowWithinTotal(m: seq<seq<nat>>, i: nat)
    requires i < |m|
    ensures RowSum(m[i]) <= Total(m)
  {
    if i < |m| - 1 { RowWithinTotal(m[..|m| - 1], i); }
  }

  // ---------------------------------------------------------------------
  // Sums over index lists: numpy's fancy indexing `confMatrix[rows, :][:, cols].sum()`.
  // ---------------------------------------------------------------------

  /** Every listed index addresses a row (and column) of `m`. */
  predicate Indexes(m: seq<seq<nat>>, ids: seq<nat>) {
    forall k :: 0 <= k < |ids| ==> ids[k] < |m|
  }

  /** `row[cols].sum()`; a repeated column is counted again, as numpy does. */
  function Pick(row: seq<nat>, cols: seq<nat>): nat
    requires forall k :: 0 <= k < |cols| ==> cols[k] < |row|
  {
    if |cols| == 0 then 0 else Pick(row, cols[..|cols| - 1]) + row[cols[|cols| - 1]]
  }

  /** `confMatrix[rows, :][:, cols].sum()`. */
  function BlockSum(m: seq<seq<nat>>, rows: seq<nat>, cols: seq<nat>): nat
    requires IsSquare(m) && Indexes(m, rows) && Indexes(m, cols)
  {
    if |rows| == 0 then 0
    else BlockSum(m, rows[..|rows| - 1], cols) + Pick(m[rows[|rows| - 1]], cols)
  }

  /** `confMatrix[rows, :].sum()`. */
  function RowsSum(m: seq<seq<nat>>, rows: seq<nat>): nat
    requires Indexes(m, rows)
  {
    if |rows| == 0 then 0
    else RowsSum(m, rows[..|rows| - 1]) + RowSum(m[rows[|rows| - 1]])
  }

  /** The values of a sequence, as a set. */
  function Elements(s: seq<nat>): set<nat> {
    set c | c in s
  }

  /** The cells of `row` at the indices in `s`, summed in index order. */
  function Masked(row: seq<nat>, s: set<nat>): nat {
    if |row| == 0 then 0
    else Masked(row[..|row| - 1], s) + (if |row| - 1 in s then row[|row| - 1] else 0)
  }

  lemma {:induction false} MaskedWithinRow(row: seq<nat>, s: set<nat>)
    ensures Masked(row, s) <= RowSum(row)
  {
    if |row| > 0 { MaskedWithinRow(row[..|row| - 1], s); }
  }

  lemma {:induction false} MaskedBeyond(row: seq<nat>, s: set<nat>, c: nat)
    requires c >= |row|
    ensures Masked(row, s + {c}) == Masked(row, s)
  {
    if |row| > 0 { MaskedBeyond(row[..|row| - 1], s, c); }
  }

  lemma {:induction false} MaskedInsert(row: seq<nat>, s: set<nat>, c: nat)
    requires c < |row| && c !in s
    ensures Masked(row, s + {c}) == Masked(row, s) + row[c]
  {
    var n := |row| - 1;
    if c == n {
      MaskedBeyond(row[..n], s, c);
    } else {
      MaskedInsert(row[..n], s, c);
    }
  }

  lemma {:induction false} PickIsMasked(row: seq<nat>, cols: seq<nat>)
    requires Distinct(cols) && forall k :: 0 <= k < |cols| ==> cols[k] < |row|
    ensures Pick(row, cols) == Masked(row, Elements(cols))
  {
    if |cols| == 0 {
      assert Elements(cols) == {};
      MaskedZero(row);
    } else {
      var n := |cols| - 1;
      var init := cols[..n];
      assert Distinct(init);
      PickIsMasked(row, init);
      assert Elements(cols) == Elements(init) + {cols[n]} by {
        assert cols == init + [cols[n]];
      }
      assert cols[n] !in init by {
        forall k | 0 <= k < n ensures init[k] != cols[n] { }
      }
      MaskedInsert(row, Elements(init), cols[n]);
    }
  }

  lemma {:induction false} MaskedZero(row: seq<nat>)
    ensures Masked(row, {}) == 0
  {
    if |row| > 0 { MaskedZero(row[..|row| - 1]); }
  }

  /** Summing distinct columns of a row never exceeds the row sum. */
  lemma PickWithinRow(row: seq<nat>, cols: seq<nat>)
    requires Distinct(cols) && forall k :: 0 <= k < |cols| ==> cols[k] < |row|
    ensures Pick(row, cols) <= RowSum(row)
  {
    PickIsMasked(row, cols);
    MaskedWithinRow(row, Elements(cols));
  }

  /** A listed column contributes its cell to the pick. */
  lemma {:induction false} PickCovers(row: seq<nat>, cols: seq<nat>, c: nat)
    requires forall k :: 0 <= k < |cols| ==> cols[k] < |row|
    requires c in cols
    ensures row[c] <= Pick(row, cols)
  {
    var n := |cols| - 1;
    if cols[n] != c {
      assert c in cols[..n] by { assert cols == cols[..n] + [cols[n]]; }
      PickCovers(row, cols[..n], c);
    }
  }

  /** A sub-matrix with distinct columns never exceeds the sum of its rows. */
  lemma {:induction false} BlockWithinRows(m: seq<seq<nat>>, rows: seq<nat>, cols: seq<nat>)
    requires IsSquare(m) && Indexes(m, rows) && Indexes(m, cols) && Distinct(cols)
    ensures BlockSum(m, rows, cols) <= RowsSum(m, rows)
  {
    if |rows| > 0 {
      var n := |rows| - 1;
      BlockWithinRows(m, rows[..n], cols);
      PickWithinRow(m[rows[n]], cols);
    }
  }

  /** Rows that sum to zero give a zero sub-matrix. */
  lemma {:induction false} BlockOfEmptyRows(m: seq<seq<nat>>, rows: seq<nat>, cols: seq<nat>)
    requires IsSquare(m) && Indexes(m, rows) && Indexes(m, cols)
    requires RowsSum(m, rows) == 0
    ensures BlockSum(m, rows, cols) == 0
  {
    if |rows| > 0 {
      var n := |rows| - 1;
      BlockOfEmptyRows(m, rows[..n], cols);
      forall k | 0 <= k < |cols| ensures m[rows[n]][cols[k]] == 0 {
        CellWithinRow(m[rows[n]], cols[k]);
      }
      PickOfZeros(m[rows[n]], cols);
    }
  }

  lemma {:induction false} PickOfZeros(row: seq<nat>, cols: seq<nat>)
    requires forall k :: 0 <= k < |cols| ==> cols[k] < |row| && row[cols[k]] == 0
    ensures Pick(row, cols) == 0
  {
    if |cols| > 0 { PickOfZeros(row, cols[..|cols| - 1]); }
  }
}
