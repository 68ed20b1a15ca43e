/** Row-major grids stored in flat sequences, and the device memory that holds them. */
module Grids {
  type Alloc = nat

  type Memory<V> = map<Alloc, seq<V>>

  /** The flat index of row r, column c. */
  function At(cols: nat, r: nat, c: nat): nat { r * cols + c }

  lemma Quotient(k: int, d: nat, q: int, m: nat)
    requires k == q * d + m && m < d
    ensures k / d == q && k % d == m
  {
    var gap := q - k / d;
    assert k == d * (k / d) + k % d;
    assert d * gap == k % d - m;
    assert gap >= 1 ==> d * gap >= d;
    assert gap <= -1 ==> d * -gap >= d;
  }

  /** The index map is a bijection from the cells of a grid onto the indices of its storage. */
  lemma AtBounds(rows: nat, cols: nat, r: nat, c: nat)
    requires r < rows && c < cols
    ensures At(cols, r, c) < rows * cols
    ensures At(cols, r, c) / cols == r && At(cols, r, c) % cols == c
  {
    assert At(cols, r, c) < rows * cols by { RowFits(rows, cols, r); }
    Quotient(At(cols, r, c), cols, r, c);
  }

  lemma RowFits(rows: nat, cols: nat, r: nat)
    requires r < rows
    ensures r * cols + cols <= rows * cols
  {
    var gap := rows - (r + 1);
    Distributes(gap, r + 1, cols);
    Distributes(r, 1, cols);
    assert gap * cols >= 0;
  }

  lemma Distributes(a: int, b: int, c: int)
    ensures (a + b) * c == a * c + b * c
  {
  }

  lemma OfIndex(rows: nat, cols: nat, k: nat)
    requires k < rows * cols
    ensures cols > 0 && k / cols < rows && k % cols < cols && At(cols, k / cols, k % cols) == k
  {
    var q := k / cols;
    assert k == cols * q + k % cols;
    assert q >= rows ==> cols * (q - rows) >= 0;
  }

  function Cell<V>(rows: nat, cols: nat, grid: seq<V>, r: nat, c: nat): V
    requires |grid| == rows * cols && r < rows && c < cols
  {
    AtBounds(rows, cols, r, c);
    grid[At(cols, r, c)]
  }

  function Put<V>(rows: nat, cols: nat, grid: seq<V>, r: nat, c: nat, v: V): (grid': seq<V>)
    requires |grid| == rows * cols && r < rows && c < cols
    ensures |grid'| == |grid|
    ensures forall i: nat, j: nat :: i < rows && j < cols ==>
              Cell(rows, cols, grid', i, j) == if i == r && j == c then v else Cell(rows, cols, grid, i, j)
  {
    AtBounds(rows, cols, r, c);
    var grid' := grid[At(cols, r, c) := v];
    assert forall i: nat, j: nat :: i < rows && j < cols ==>
        Cell(rows, cols, grid', i, j) == if i == r && j == c then v else Cell(rows, cols, grid, i, j) by {
      forall i: nat, j: nat | i < rows && j < cols
        ensures Cell(rows, cols, grid', i, j) == if i == r && j == c then v else Cell(rows, cols, grid, i, j)
      {
        AtBounds(rows, cols, i, j);
      }
    }
    grid'
  }

  function Tabulate<V>(rows: nat, cols: nat, f: (nat, nat) --> V): (grid: seq<V>)
    requires forall r: nat, c: nat :: r < rows && c < cols ==> f.requires(r, c)
    ensures |grid| == rows * cols
    ensures forall r: nat, c: nat :: r < rows && c < cols ==> Cell(rows, cols, grid, r, c) == f(r, c)
  {
    var grid := seq(rows * cols, k requires 0 <= k < rows * cols => OfIndex(rows, cols, k); f(k / cols, k % cols));
    assert forall r: nat, c: nat :: r < rows && c < cols ==> Cell(rows, cols, grid, r, c) == f(r, c) by {
      forall r: nat, c: nat | r < rows && c < cols ensures Cell(rows, cols, grid, r, c) == f(r, c) {
        AtBounds(rows, cols, r, c);
      }
    }
    grid
  }

  /** Grids with equal cells are equal. */
  lemma Extensional<V>(rows: nat, cols: nat, g: seq<V>, h: seq<V>)
    requires |g| == |h| == rows * cols
    requires forall r: nat, c: nat :: r < rows && c < cols ==> Cell(rows, cols, g, r, c) == Cell(rows, cols, h, r, c)
    ensures g == h
  {
    forall k | 0 <= k < |g| ensures g[k] == h[k] {
      OfIndex(rows, cols, k);
      assert Cell(rows, cols, g, k / cols, k % cols) == Cell(rows, cols, h, k / cols, k % cols);
    }
  }
}
