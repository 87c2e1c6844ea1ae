/** Positions in a row-major listing: both dispatch loops make their calls
    row by row, a row being one server (batch mode) or one line (prompt). */
module Grid {

  /** The index of the entry at `row`, `column` of rows `width` entries long. */
  function Position(row: nat, column: nat, width: nat): nat
  {
    row * width + column
  }

  lemma RowsGrow(rows: nat, width: nat)
    requires rows > 0
    ensures (rows - 1) * width + width == rows * width
  {
  }

  lemma PositionBelow(row: nat, column: nat, rows: nat, width: nat)
    requires row < rows && column < width
    ensures Position(row, column, width) < rows * width
  {
    RowsGrow(rows - row, width);
    assert rows * width == row * width + (rows - row) * width;
  }

  lemma PositionNextRow(row: nat, column: nat, width: nat)
    ensures Position(row + 1, column, width) == width + Position(row, column, width)
  {
    RowsGrow(row + 1, width);
  }
}
