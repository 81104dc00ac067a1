/**
  Two-dimensional integer arrays as sequences of rows, and the few numpy
  operations the pipeline applies to them: flattening in row-major order,
  reshaping, `np.roll(a, -1)` without an axis, `np.ones` and `np.arange`.
 */
module Tensors {

  /** A 2-D integer array given by its rows. */
  type Matrix = seq<seq<int>>

  /** Every row of `m` has `n` columns: `m` is an array of shape (|m|, n). */
  predicate Rectangular(m: Matrix, n: nat) {
    forall q :: 0 <= q < |m| ==> |m[q]| == n
  }

  /** Number of elements of an array of shape (rows, n), counted row by row. */
  function Size(rows: nat, n: nat): nat {
    if rows == 0 then 0 else n + Size(rows - 1, n)
  }

  /** Row-major offset of element (q, c) in an array whose rows have `n` columns. */
  function Offset(q: nat, c: nat, n: nat): nat {
    if q == 0 then c else n + Offset(q - 1, c, n)
  }

  /** The next column of the same row is the next offset. */
  lemma {:induction false} OffsetNext(q: nat, c: nat, n: nat)
    ensures Offset(q, c + 1, n) == Offset(q, c, n) + 1
  {
    if q > 0 {
      OffsetNext(q - 1, c, n);
    }
  }

  /** The rows of `m` laid end to end (numpy's C-order flattening). */
  function Flatten(m: Matrix, n: nat): (s: seq<int>)
    requires Rectangular(m, n)
    ensures |s| == Size(|m|, n)
  {
    if m == [] then [] else m[0] + Flatten(m[1..], n)
  }

  /** Element (q, c) of a (rows, n) array sits at offset Offset(q, c, n) of its flattening. */
  lemma {:induction false} FlattenAt(m: Matrix, n: nat, q: nat, c: nat)
    requires Rectangular(m, n)
    requires q < |m| && c < n
    ensures Offset(q, c, n) < |Flatten(m, n)| && Flatten(m, n)[Offset(q, c, n)] == m[q][c]
  {
    if q > 0 {
      FlattenAt(m[1..], n, q - 1, c);
    }
  }

  /** Cuts a flat sequence of Size(rows, n) values into `rows` rows of `n` values each. */
  function Reshape(s: seq<int>, rows: nat, n: nat): (m: Matrix)
    requires |s| == Size(rows, n)
    ensures |m| == rows && Rectangular(m, n)
  {
    if rows == 0 then [] else [s[..n]] + Reshape(s[n..], rows - 1, n)
  }

  /** Row q, column c of the reshaped array is the value at offset Offset(q, c, n). */
  lemma {:induction false} ReshapeAt(s: seq<int>, rows: nat, n: nat, q: nat, c: nat)
    requires |s| == Size(rows, n)
    requires q < rows && c < n
    ensures Offset(q, c, n) < |s| && Reshape(s, rows, n)[q][c] == s[Offset(q, c, n)]
  {
    if q > 0 {
      ReshapeAt(s[n..], rows - 1, n, q - 1, c);
    }
  }

  /**
    `np.roll(s, -1)` on a one-dimensional array: every element moves one place
    to the left and the first element re-enters at the end.
   */
  function RollLeft(s: seq<int>): (r: seq<int>)
    ensures |r| == |s|
    ensures forall i :: 0 <= i < |s| - 1 ==> r[i] == s[i + 1]
    ensures |s| > 0 ==> r[|s| - 1] == s[0]
  {
    if s == [] then [] else s[1..] + [s[0]]
  }

  /** `a[:, -1] = pad`: the last column of every row replaced by `pad`. */
  function OverwriteLastColumn(m: Matrix, pad: int): (r: Matrix)
    requires forall q :: 0 <= q < |m| ==> |m[q]| > 0
    ensures |r| == |m|
    ensures forall q :: 0 <= q < |m| ==> |r[q]| == |m[q]| && r[q][|m[q]| - 1] == pad
    ensures forall q, c :: 0 <= q < |m| && 0 <= c < |m[q]| - 1 ==> r[q][c] == m[q][c]
  {
    seq(|m|, (q: int) requires 0 <= q < |m| => m[q][..|m[q]| - 1] + [pad])
  }

  /**
    Next-token labels: every row shifted one place to the left, the freed last
    position holding `pad`.
   */
  function ShiftRows(m: Matrix, pad: int): (r: Matrix)
    requires forall q :: 0 <= q < |m| ==> |m[q]| > 0
    ensures |r| == |m|
    ensures forall q :: 0 <= q < |m| ==> |r[q]| == |m[q]| && r[q][|m[q]| - 1] == pad
    ensures forall q, c :: 0 <= q < |m| && 0 <= c < |m[q]| - 1 ==> r[q][c] == m[q][c + 1]
  {
    seq(|m|, (q: int) requires 0 <= q < |m| => m[q][1..] + [pad])
  }

  /**
    Rolling the FLATTENED array left by one and then overwriting the last
    column is the same as shifting each row on its own: the element that the
    roll carries across a row boundary always lands in the last column, which
    the overwrite discards.
   */
  lemma RollThenPadIsRowShift(m: Matrix, n: nat, pad: int)
    requires Rectangular(m, n) && n > 0
    ensures OverwriteLastColumn(Reshape(RollLeft(Flatten(m, n)), |m|, n), pad) == ShiftRows(m, pad)
  {
    var rolled := Reshape(RollLeft(Flatten(m, n)), |m|, n);
    var lhs := OverwriteLastColumn(rolled, pad);
    var rhs := ShiftRows(m, pad);
    forall q | 0 <= q < |m| ensures lhs[q] == rhs[q] {
      assert |lhs[q]| == n == |rhs[q]|;
      forall c | 0 <= c < n ensures lhs[q][c] == rhs[q][c] {
        if c < n - 1 {
          RolledAt(Flatten(m, n), |m|, n, q, c);
          FlattenAt(m, n, q, c + 1);
        }
      }
    }
    assert |lhs| == |rhs|;
  }

  /**
    Inside a row, rolling the flat sequence left by one gives each position the
    value of its right-hand neighbour in the same row.
   */
  lemma RolledAt(s: seq<int>, rows: nat, n: nat, q: nat, c: nat)
    requires |s| == Size(rows, n)
    requires q < rows && c + 1 < n
    ensures Offset(q, c + 1, n) < |s|
    ensures Reshape(RollLeft(s), rows, n)[q][c] == s[Offset(q, c + 1, n)]
  {
    var rolled := RollLeft(s);
    ReshapeAt(s, rows, n, q, c + 1);
    OffsetNext(q, c, n);
    ReshapeAt(rolled, rows, n, q, c);
  }

  /** `np.ones((rows, n))`. */
  function Ones(rows: nat, n: nat): (m: Matrix)
    ensures |m| == rows && Rectangular(m, n)
    ensures forall q, c :: 0 <= q < rows && 0 <= c < n ==> m[q][c] == 1
  {
    seq(rows, _ => seq(n, _ => 1))
  }

  /** `np.arange(n)`: the positions 0, 1, ..., n - 1. */
  function Arange(n: nat): (r: seq<int>)
    ensures |r| == n && forall i :: 0 <= i < n ==> r[i] == i
  {
    seq(n, i => i)
  }

  /** `np.stack([row for _ in range(k)])`: `k` copies of one row. */
  function Replicate(row: seq<int>, k: nat): (m: Matrix)
    ensures |m| == k && forall q :: 0 <= q < k ==> m[q] == row
  {
    seq(k, _ => row)
  }
}
