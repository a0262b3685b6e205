/** Grid geometry shared by the grid effects: the number of cells needed to
    cover a length (`Math.ceil(length / cellSize)` on integer pixel sizes),
    row-major cell ids, and the inverse mapping from an id back to its
    column and row. */
module Grid {

  /** `Math.ceil(a / d)` for a non-negative integer length and a positive cell size. */
  function CeilDiv(a: nat, d: nat): (r: nat)
    requires d > 0
    ensures r * d >= a
    ensures r > 0 ==> (r - 1) * d < a
  {
    if a % d == 0 then a / d else a / d + 1
  }

  /** Grid dimensions covering a `width` x `height` viewport with square cells. */
  datatype Dims = Dims(cols: nat, rows: nat)

  function GridDims(width: nat, height: nat, cellSize: nat): (g: Dims)
    requires cellSize > 0
    ensures g.cols * cellSize >= width && g.rows * cellSize >= height
    ensures g.cols == 0 <==> width == 0
    ensures g.rows == 0 <==> height == 0
  {
    Dims(CeilDiv(width, cellSize), CeilDiv(height, cellSize))
  }

  /** No grid is smaller: one column or row fewer would leave part of the viewport uncovered. */
  lemma GridDimsMinimal(width: nat, height: nat, cellSize: nat)
    requires cellSize > 0
    ensures var g := GridDims(width, height, cellSize);
      (g.cols > 0 ==> (g.cols - 1) * cellSize < width) && (g.rows > 0 ==> (g.rows - 1) * cellSize < height)
  {
  }

  /** A cell of a row-major grid. */
  datatype Cell = Cell(id: nat, row: nat, col: nat)

  function Id(row: nat, col: nat, cols: nat): nat
  {
    row * cols + col
  }

  lemma {:induction false} IdInRange(row: nat, col: nat, rows: nat, cols: nat)
    requires row < rows && col < cols
    ensures Id(row, col, cols) < rows * cols
  {
    calc {
      Id(row, col, cols);
      <  row * cols + cols;
      == (row + 1) * cols;
      <= { MulMonotone(row + 1, rows, cols); } rows * cols;
    }
  }

  lemma {:induction false} MulMonotone(a: nat, b: nat, c: nat)
    requires a <= b
    ensures a * c <= b * c
  {
    if a < b {
      MulMonotone(a, b - 1, c);
    }
  }

  /** Column and row of cell `i` in a grid with `cols` columns. */
  function ColOf(i: nat, cols: nat): (c: nat)
    requires cols > 0
    ensures c < cols
  {
    i % cols
  }

  function RowOf(i: nat, cols: nat): nat
    requires cols > 0
  {
    i / cols
  }

  /** The index-to-position mapping and the row-major id are inverse to each other. */
  lemma PositionOfId(row: nat, col: nat, cols: nat)
    requires col < cols
    ensures ColOf(Id(row, col, cols), cols) == col && RowOf(Id(row, col, cols), cols) == row
  {
    var i := Id(row, col, cols);
    DivModUnique(i, cols, row, col);
  }

  lemma IdOfPosition(i: nat, cols: nat)
    requires cols > 0
    ensures Id(RowOf(i, cols), ColOf(i, cols), cols) == i
  {
  }

  /** Every cell index below `rows * cols` lies on a row below `rows`. */
  lemma {:induction false} RowInRange(i: nat, rows: nat, cols: nat)
    requires cols > 0 && i < rows * cols
    ensures RowOf(i, cols) < rows
  {
    var r := RowOf(i, cols);
    assert r * cols <= i;
    if r >= rows {
      MulMonotone(rows, r, cols);
      assert false;
    }
  }

  lemma {:induction false} DivModUnique(i: nat, d: nat, q: nat, r: nat)
    requires r < d && i == q * d + r
    ensures i / d == q && i % d == r
  {
    var q2, r2 := i / d, i % d;
    assert q2 * d + r2 == q * d + r;
    if q2 > q {
      assert (q2 - q) * d == q2 * d - q * d;
      MulMonotone(1, q2 - q, d);
      assert false;
    } else if q2 < q {
      assert (q - q2) * d == q * d - q2 * d;
      MulMonotone(1, q - q2, d);
      assert false;
    }
  }

  /** Row `row` of a grid with `cols` columns, left to right. */
  function RowCells(row: nat, cols: nat, n: nat): (r: seq<Cell>)
    requires n <= cols
    ensures |r| == n
  {
    seq(n, x requires 0 <= x < n => Cell(row * cols + x, row, x))
  }

  /** The first `rows` rows of a grid with `cols` columns, in reading order. */
  function RowMajor(rows: nat, cols: nat): (cells: seq<Cell>)
    ensures |cells| == rows * cols
  {
    if rows == 0 then [] else RowMajor(rows - 1, cols) + RowCells(rows - 1, cols, cols)
  }

  /** Cell `k` of the reading order has id `k` and sits at row `k / cols`,
      column `k % cols`. */
  lemma {:induction false} RowMajorAt(rows: nat, cols: nat, k: nat)
    requires k < rows * cols
    ensures cols > 0
    ensures RowMajor(rows, cols)[k] == Cell(k, RowOf(k, cols), ColOf(k, cols))
    ensures RowOf(k, cols) < rows
    decreases rows
  {
    RowInRange(k, rows, cols);
    var prev := (rows - 1) * cols;
    if k < prev {
      RowMajorAt(rows - 1, cols, k);
    } else {
      var x := k - prev;
      assert x < cols;
      assert RowMajor(rows, cols)[k] == Cell(prev + x, rows - 1, x);
      PositionOfId(rows - 1, x, cols);
    }
  }

  /** The nested `for (row) for (col)` loop that pushes one cell per position,
      numbering them consecutively. */
  method RowMajorCells(rows: nat, cols: nat) returns (cells: seq<Cell>)
    ensures cells == RowMajor(rows, cols)
  {
    cells := [];
    var row := 0;
    while row < rows
      invariant 0 <= row <= rows
      invariant cells == RowMajor(row, cols)
    {
      var col := 0;
      while col < cols
        invariant 0 <= col <= cols
        invariant cells == RowMajor(row, cols) + RowCells(row, cols, col)
      {
        assert RowCells(row, cols, col + 1) == RowCells(row, cols, col) + [Cell(row * cols + col, row, col)];
        cells := cells + [Cell(|cells|, row, col)];
        col := col + 1;
      }
      row := row + 1;
    }
  }
}
