/**
 * Two-dimensional grids: numpy arrays as values (`seq<seq<_>>`, row by row) and the
 * snapshot of an `array2` as such a value.
 */
module Grids {

  /** A population field: one real per cell. */
  type Grid = seq<seq<real>>

  /** `g` has `rows` rows of `cols` entries each. */
  predicate IsRect<T>(g: seq<seq<T>>, rows: int, cols: int) {
    |g| == rows && forall i :: 0 <= i < |g| ==> |g[i]| == cols
  }

  /** The number of columns of a grid (`shape[1]`); 0 for a grid with no rows. */
  function Width<T>(g: seq<seq<T>>): nat {
    if |g| == 0 then 0 else |g[0]|
  }

  /** Every row of `g` is as long as the first one, as in any numpy array. */
  predicate Rect<T>(g: seq<seq<T>>) {
    IsRect(g, |g|, Width(g))
  }

  /** The current contents of a float array: a grid of its shape holding its values. */
  function Cells(a: array2<real>): (g: Grid)
    reads a
    ensures IsRect(g, a.Length0, a.Length1)
    ensures forall i, j :: 0 <= i < a.Length0 && 0 <= j < a.Length1 ==> g[i][j] == a[i, j]
  {
    seq(a.Length0, i requires 0 <= i < a.Length0 reads a =>
      seq(a.Length1, j requires 0 <= j < a.Length1 reads a => a[i, j]))
  }

  /** The current contents of an integer array, as `Cells` gives those of a float array. */
  function IntCells(a: array2<int>): (g: seq<seq<int>>)
    reads a
    ensures IsRect(g, a.Length0, a.Length1)
    ensures forall i, j :: 0 <= i < a.Length0 && 0 <= j < a.Length1 ==> g[i][j] == a[i, j]
  {
    seq(a.Length0, i requires 0 <= i < a.Length0 reads a =>
      seq(a.Length1, j requires 0 <= j < a.Length1 reads a => a[i, j]))
  }

  /** Two grids of one shape that agree on every cell are equal. */
  lemma CellwiseEqual<T>(g: seq<seq<T>>, h: seq<seq<T>>, rows: nat, cols: nat)
    requires IsRect(g, rows, cols) && IsRect(h, rows, cols)
    requires forall i, j :: 0 <= i < rows && 0 <= j < cols ==> g[i][j] == h[i][j]
    ensures g == h
  {
    forall i | 0 <= i < rows
      ensures g[i] == h[i]
    {
      assert forall j :: 0 <= j < cols ==> g[i][j] == h[i][j];
    }
  }
}
