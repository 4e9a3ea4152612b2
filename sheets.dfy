/**
 * The spreadsheet the scripts write into, reduced to what they use of the
 * SpreadsheetApp service: a fixed grid of cells addressed by one-based
 * (row, column) coordinates, read whole, and changed by clearing or
 * overwriting a rectangle.  A range that leaves the sheet makes the
 * service throw; the model reports that as an `Error` and leaves the
 * sheet as it was at that moment.
 */
module Sheets {
  import opened Dates

  /** A cell value as `Range.getValues()` yields it and `Range.setValues()` takes it. */
  datatype Cell = Empty | DateCell(instant: Instant) | Text(text: string) | Number(number: int)

  /** A single-cell position, one-based, as `Range.getRow()` and `Range.getColumn()` report it. */
  datatype Pos = Pos(row: int, column: int)

  /** A rectangle of cells, as `Sheet.getRange(row, column, numRows, numColumns)` addresses it. */
  datatype Range = Range(row: int, column: int, numRows: int, numColumns: int)
  {
    predicate Contains(r: int, c: int)
    {
      row <= r < row + numRows && column <= c < column + numColumns
    }
  }

  /** Why a step threw: a range the sheet cannot address, or `rangeData[0].length` read from an empty array. */
  datatype Error = OutsideSheet | EmptyRangeData

  /** What one sync step did to the sheet. */
  datatype Outcome = Wrote | Skipped | Threw(error: Error)

  datatype Result<T> = Ok(value: T) | Err(error: Error)

  /** `values` has exactly `rows` rows of `columns` cells each. */
  predicate IsBlock(values: seq<seq<Cell>>, rows: int, columns: int)
  {
    |values| == rows && forall i :: 0 <= i < |values| ==> |values[i]| == columns
  }

  /** Every row of `values` is as long as the first one. */
  predicate Rectangular(values: seq<seq<Cell>>)
  {
    forall i :: 0 <= i < |values| ==> |values[i]| == |values[0]|
  }

  /** A row holds some content. */
  predicate RowHasContent(row: seq<Cell>)
  {
    exists j :: 0 <= j < |row| && row[j] != Empty
  }

  /**
   * The number of the last row of `cells` that holds content, or 0 when
   * every row is blank: `Sheet.getLastRow()`.
   */
  function LastRowOf(cells: seq<seq<Cell>>): (r: nat)
    ensures r <= |cells|
    ensures r > 0 ==> RowHasContent(cells[r - 1])
    ensures forall i :: r <= i < |cells| ==> !RowHasContent(cells[i])
  {
    if cells == [] then 0
    else if RowHasContent(cells[|cells| - 1]) then |cells|
    else LastRowOf(cells[..|cells| - 1])
  }

  /** The contents of one sheet: `maxRows` by `maxColumns` cells. */
  datatype Grid = Grid(maxRows: nat, maxColumns: nat, cells: seq<seq<Cell>>)
  {
    predicate Valid()
    {
      IsBlock(cells, maxRows, maxColumns)
    }

    predicate InSheet(row: int, column: int)
    {
      1 <= row <= maxRows && 1 <= column <= maxColumns
    }

    /** The cell at a one-based position. */
    function At(row: int, column: int): Cell
      requires Valid() && InSheet(row, column)
    {
      cells[row - 1][column - 1]
    }

    /** The service accepts `range`: it is non-empty and lies inside the sheet. */
    predicate Fits(range: Range)
    {
      && 1 <= range.row && 1 <= range.numRows && range.row + range.numRows - 1 <= maxRows
      && 1 <= range.column && 1 <= range.numColumns && range.column + range.numColumns - 1 <= maxColumns
    }

    /** `Sheet.getLastRow()`. */
    function LastRow(): (r: nat)
      requires Valid()
      ensures r <= maxRows
      ensures r > 0 ==> exists c :: 1 <= c <= maxColumns && At(r, c) != Empty
      ensures forall row, c :: r < row <= maxRows && 1 <= c <= maxColumns ==> At(row, c) == Empty
    {
      var r := LastRowOf(cells);
      assert forall row, c :: r < row <= maxRows && 1 <= c <= maxColumns ==> At(row, c) == Empty by {
        forall row, c | r < row <= maxRows && 1 <= c <= maxColumns ensures At(row, c) == Empty {
          assert !RowHasContent(cells[row - 1]);
        }
      }
      if r > 0 then
        var j :| 0 <= j < |cells[r - 1]| && cells[r - 1][j] != Empty;
        assert At(r, j + 1) != Empty;
        r
      else r
    }

    /** `getRange('X:X').getValues()` for the column numbered `column`, top to bottom. */
    function ColumnValues(column: int): (values: seq<Cell>)
      requires Valid() && 1 <= column <= maxColumns
      ensures |values| == maxRows
      ensures forall i :: 0 <= i < maxRows ==> values[i] == At(i + 1, column)
    {
      seq(maxRows, i requires 0 <= i < maxRows => cells[i][column - 1])
    }

    /** The grid after `range.clearContent()`. */
    function Cleared(range: Range): (g: Grid)
      requires Valid()
      ensures g.Valid() && g.maxRows == maxRows && g.maxColumns == maxColumns
      ensures forall r, c {:trigger g.At(r, c)} :: InSheet(r, c) ==> g.At(r, c) == (if range.Contains(r, c) then Empty else At(r, c))
    {
      Grid(maxRows, maxColumns,
        seq(maxRows, i requires 0 <= i < maxRows =>
          seq(maxColumns, j requires 0 <= j < maxColumns =>
            if range.Contains(i + 1, j + 1) then Empty else cells[i][j])))
    }

    /** The grid after `range.setValues(values)`. */
    function Written(range: Range, values: seq<seq<Cell>>): (g: Grid)
      requires Valid() && Fits(range) && IsBlock(values, range.numRows, range.numColumns)
      ensures g.Valid() && g.maxRows == maxRows && g.maxColumns == maxColumns
      ensures forall r, c {:trigger g.At(r, c)} :: InSheet(r, c) ==>
        g.At(r, c) == (if range.Contains(r, c) then values[r - range.row][c - range.column] else At(r, c))
    {
      Grid(maxRows, maxColumns,
        seq(maxRows, i requires 0 <= i < maxRows =>
          seq(maxColumns, j requires 0 <= j < maxColumns =>
            if range.Contains(i + 1, j + 1) then values[i + 1 - range.row][j + 1 - range.column] else cells[i][j])))
    }
  }

  /** Two grids of one size. */
  predicate SameShape(a: Grid, b: Grid)
  {
    a.Valid() && b.Valid() && a.maxRows == b.maxRows && a.maxColumns == b.maxColumns
  }

  /** Grids of one size that agree on every cell are the same grid. */
  lemma Extensionality(a: Grid, b: Grid)
    requires SameShape(a, b)
    requires forall r, c :: a.InSheet(r, c) ==> a.At(r, c) == b.At(r, c)
    ensures a == b
  {
    forall i | 0 <= i < a.maxRows
      ensures a.cells[i] == b.cells[i]
    {
      forall j | 0 <= j < a.maxColumns
        ensures a.cells[i][j] == b.cells[i][j]
      {
        assert a.At(i + 1, j + 1) == b.At(i + 1, j + 1);
      }
    }
  }

  /** The sheet after a step, and what the step did. */
  datatype Effect = Effect(grid: Grid, outcome: Outcome)

  /** The effect of a step that either produced a new grid or threw on `g`. */
  function Apply(g: Grid, r: Result<Grid>): (e: Effect)
    ensures r.Ok? ==> e == Effect(r.value, Wrote)
    ensures r.Err? ==> e == Effect(g, Threw(r.error))
  {
    match r
    case Ok(g') => Effect(g', Wrote)
    case Err(err) => Effect(g, Threw(err))
  }

  /** A sheet of the spreadsheet, whose cells the scripts change in place. */
  class Sheet {
    var grid: Grid

    predicate Valid()
      reads this
    {
      grid.Valid()
    }

    constructor (contents: Grid)
      requires contents.Valid()
      ensures Valid() && grid == contents
    {
      grid := contents;
    }

    /** `getRange(...).clearContent()`: throws, changing nothing, when `range` does not fit. */
    method ClearContent(range: Range) returns (ok: bool)
      requires Valid()
      modifies this
      ensures Valid()
      ensures ok == old(grid).Fits(range)
      ensures grid == if old(grid).Fits(range) then old(grid).Cleared(range) else old(grid)
    {
      ok := grid.Fits(range);
      if ok {
        grid := grid.Cleared(range);
      }
    }

    /** `getRange(...).setValues(values)` for a block of the range's size. */
    method SetValues(range: Range, values: seq<seq<Cell>>) returns (ok: bool)
      requires Valid()
      requires IsBlock(values, range.numRows, range.numColumns)
      modifies this
      ensures Valid()
      ensures ok == old(grid).Fits(range)
      ensures grid == if old(grid).Fits(range) then old(grid).Written(range, values) else old(grid)
    {
      ok := grid.Fits(range);
      if ok {
        grid := grid.Written(range, values);
      }
    }
  }
}
