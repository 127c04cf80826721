/**
 * The movie grid: library entries laid out five to a row, in library order.
 */
module Grid {
  import opened Movies

  /** Number of posters per grid row. */
  const Columns: nat := 5

  datatype GridCell = GridCell(row: nat, column: nat)

  /** One poster widget of the grid: the cell it occupies and the movie it opens. */
  datatype Placement = Placement(cell: GridCell, movie: MovieRecord)

  /** The cell of the movie at position `idx`: `(idx // 5, idx % 5)`. */
  function Cell(idx: nat): (c: GridCell)
    ensures c.column < Columns
    ensures c.row * Columns + c.column == idx
  {
    GridCell(idx / Columns, idx % Columns)
  }

  /** Row-major order on cells: by row, then by column. */
  predicate Before(a: GridCell, b: GridCell)
  {
    a.row < b.row || (a.row == b.row && a.column < b.column)
  }

  /** Distinct positions never share a cell. */
  lemma CellInjective(i: nat, j: nat)
    ensures Cell(i) == Cell(j) ==> i == j
  {
  }

  /** Cells are handed out in row-major order: an earlier movie sits in an earlier cell. */
  lemma RowMajorOrder(i: nat, j: nat)
    ensures i < j <==> Before(Cell(i), Cell(j))
  {
    var a, b := Cell(i), Cell(j);
    if a.row < b.row {
      assert a.row + 1 <= b.row;
      assert (a.row + 1) * Columns <= b.row * Columns;
    } else if b.row < a.row {
      assert b.row + 1 <= a.row;
      assert (b.row + 1) * Columns <= a.row * Columns;
    }
  }

  /** The cell after the one of `idx`: the next column, or the start of the next row after column 4. */
  lemma NextCell(idx: nat)
    ensures Cell(idx + 1) ==
            if Cell(idx).column + 1 < Columns then GridCell(Cell(idx).row, Cell(idx).column + 1)
            else GridCell(Cell(idx).row + 1, 0)
  {
  }

  /** The grid for a library: one placement per movie, movie `k` in `Cell(k)`. */
  function Layout(movies: seq<MovieRecord>): (g: seq<Placement>)
    ensures |g| == |movies|
    ensures forall k :: 0 <= k < |g| ==> g[k].movie == movies[k] && g[k].cell == Cell(k)
  {
    seq(|movies|, k requires 0 <= k < |movies| => Placement(Cell(k), movies[k]))
  }

  /** Every placement of the grid has its own cell, and placements follow row-major order. */
  lemma LayoutOrdered(movies: seq<MovieRecord>, i: nat, j: nat)
    requires i < j < |movies|
    ensures Before(Layout(movies)[i].cell, Layout(movies)[j].cell)
    ensures Layout(movies)[i].cell != Layout(movies)[j].cell
  {
    RowMajorOrder(i, j);
  }

  /**
   * Appending a movie keeps every existing placement and puts the new movie
   * in the next cell.
   */
  lemma LayoutAppend(movies: seq<MovieRecord>, m: MovieRecord)
    ensures Layout(movies + [m]) == Layout(movies) + [Placement(Cell(|movies|), m)]
  {
    var g, h := Layout(movies + [m]), Layout(movies) + [Placement(Cell(|movies|), m)];
    assert |g| == |h|;
    forall k | 0 <= k < |g| ensures g[k] == h[k] {
      if k < |movies| {
        assert (movies + [m])[k] == movies[k];
      }
    }
  }
}
