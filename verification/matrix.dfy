/**
 * Matrices and their nested-row form, as `matrixToTuple` converts between
 * them (src/dynamic_graph/sot/talos/talos.py:28-33).
 *
 * A numpy matrix is a two-dimensional array: a shape and its entries in
 * row-major order. `M.tolist()` splits the entries into rows; the loop in
 * `matrixToTuple` then freezes each row into a tuple. Tuples and lists hold
 * the same values, so both are `seq` here.
 */
module Matrices {

  /** A `rows` x `cols` matrix whose entries are stored row after row. */
  datatype Matrix = Matrix(rows: nat, cols: nat, entries: seq<real>) {

    /** The entries fill the shape exactly. */
    predicate Valid() {
      |entries| == rows * cols
    }

    /** The entry in row `i`, column `j`. */
    function At(i: nat, j: nat): real
      requires Valid() && i < rows && j < cols
    {
      IndexInRange(rows, cols, i, j);
      entries[i * cols + j]
    }
  }

  /** Row `i` of a matrix occupies offsets `i * cols` up to `(i + 1) * cols` of its entries. */
  lemma RowInRange(rows: nat, cols: nat, i: nat)
    requires i < rows
    ensures i * cols + cols == (i + 1) * cols <= rows * cols
  {
    MulMono(i + 1, rows, cols);
  }

  lemma IndexInRange(rows: nat, cols: nat, i: nat, j: nat)
    requires i < rows && j < cols
    ensures i * cols + j < (i + 1) * cols <= rows * cols
  {
    RowInRange(rows, cols, i);
  }

  lemma MulMono(a: nat, b: nat, c: nat)
    requires a <= b
    ensures a * c <= b * c
  {
  }

  /** Row `i` of `M`, as numpy's `tolist` gives it. */
  function Row(M: Matrix, i: nat): (r: seq<real>)
    requires M.Valid() && i < M.rows
    ensures |r| == M.cols
    ensures forall j :: 0 <= j < M.cols ==> r[j] == M.At(i, j)
  {
    RowInRange(M.rows, M.cols, i);
    M.entries[i * M.cols .. (i + 1) * M.cols]
  }

  /**
   * The nested-row form of `M` (what `M.tolist()` returns, and what
   * `matrixToTuple` returns once every row is a tuple): one row per row of
   * `M`, each as long as `M` is wide, holding `M`'s entries in order.
   */
  function Rows(M: Matrix): (t: seq<seq<real>>)
    requires M.Valid()
    ensures |t| == M.rows
    ensures forall i :: 0 <= i < M.rows ==> |t[i]| == M.cols
    ensures forall i, j :: 0 <= i < M.rows && 0 <= j < M.cols ==> t[i][j] == M.At(i, j)
  {
    seq(M.rows, i requires 0 <= i < M.rows => Row(M, i))
  }

  /**
   * `matrixToTuple`: walks the rows of `M.tolist()` and appends each, as a
   * tuple, to the result.
   */
  method MatrixToTuple(M: Matrix) returns (res: seq<seq<real>>)
    requires M.Valid()
    ensures res == Rows(M)
    ensures M.rows > 0 ==> FromRows(res) == M
  {
    var tmp := Rows(M);
    res := [];
    for k := 0 to |tmp|
      invariant res == tmp[..k]
    {
      res := res + [tmp[k]];
    }
    if M.rows > 0 {
      RowsThenFromRows(M);
    }
  }

  /** Every row of `t` has `cols` entries. */
  predicate Rectangular(t: seq<seq<real>>, cols: nat) {
    forall i :: 0 <= i < |t| ==> |t[i]| == cols
  }

  /** The rows of `t`, concatenated in order. */
  function Flatten(t: seq<seq<real>>): seq<real> {
    if t == [] then [] else Flatten(t[..|t| - 1]) + t[|t| - 1]
  }

  /**
   * The matrix numpy builds from a non-empty rectangular nested-row form:
   * its shape is read off the rows.
   */
  function FromRows(t: seq<seq<real>>): Matrix {
    Matrix(|t|, if t == [] then 0 else |t[0]|, Flatten(t))
  }

  lemma {:induction false} FlattenLength(t: seq<seq<real>>, cols: nat)
    requires Rectangular(t, cols)
    ensures |Flatten(t)| == |t| * cols
  {
    if t != [] {
      FlattenLength(t[..|t| - 1], cols);
      assert |t| * cols == (|t| - 1) * cols + cols;
    }
  }

  /** The first `k` rows of `M` flatten to the first `k * cols` entries of `M`. */
  lemma {:induction false} FlattenRowsPrefix(M: Matrix, k: nat)
    requires M.Valid() && k <= M.rows
    ensures k * M.cols <= |M.entries|
    ensures Flatten(Rows(M)[..k]) == M.entries[..k * M.cols]
  {
    MulMono(k, M.rows, M.cols);
    if k > 0 {
      FlattenRowsPrefix(M, k - 1);
      var t := Rows(M)[..k];
      assert t[..k - 1] == Rows(M)[..k - 1];
      assert k * M.cols == (k - 1) * M.cols + M.cols;
      assert t[k - 1] == M.entries[(k - 1) * M.cols .. k * M.cols];
      assert M.entries[..k * M.cols]
          == M.entries[..(k - 1) * M.cols] + M.entries[(k - 1) * M.cols .. k * M.cols];
    }
  }

  /** Row `i` of `t` sits at offset `i * cols` of its flattening. */
  lemma {:induction false} FlattenRow(t: seq<seq<real>>, cols: nat, i: nat)
    requires Rectangular(t, cols) && i < |t|
    ensures (i + 1) * cols <= |Flatten(t)|
    ensures Flatten(t)[i * cols .. (i + 1) * cols] == t[i]
  {
    FlattenLength(t, cols);
    RowInRange(|t|, cols, i);
    var n := |t| - 1;
    var front := t[..n];
    assert Rectangular(front, cols);
    FlattenLength(front, cols);
    var lo, hi := i * cols, (i + 1) * cols;
    assert Flatten(t) == Flatten(front) + t[n];
    if i < n {
      FlattenRow(front, cols, i);
      RowInRange(n, cols, i);
      assert hi <= |Flatten(front)|;
      assert Flatten(t)[lo..hi] == Flatten(front)[lo..hi];
    } else {
      assert lo == |Flatten(front)|;
    }
  }

  /** Converting a matrix with at least one row to nested rows and back gives the matrix. */
  lemma RowsThenFromRows(M: Matrix)
    requires M.Valid() && M.rows > 0
    ensures FromRows(Rows(M)) == M
  {
    FlattenRowsPrefix(M, M.rows);
    assert Rows(M)[..M.rows] == Rows(M);
  }

  /** Building a matrix from rectangular nested rows and converting it back gives the rows. */
  lemma FromRowsThenRows(t: seq<seq<real>>, cols: nat)
    requires Rectangular(t, cols) && (t == [] ==> cols == 0)
    ensures FromRows(t).Valid()
    ensures Rows(FromRows(t)) == t
  {
    FlattenLength(t, cols);
    var M := FromRows(t);
    forall i | 0 <= i < |t|
      ensures Rows(M)[i] == t[i]
    {
      FlattenRow(t, cols, i);
    }
  }
}
