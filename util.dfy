/**
 * The sheet helpers of lib/util.js: the anchor search by date, the
 * rectangle arithmetic around a top-left cell, and the clear of a block of
 * columns down to the bottom of the sheet.
 */
module Util {
  import opened Dates
  import opened Sheets

  /**
   * `Array.prototype.findIndex`: the index of the first element satisfying
   * `p`, or -1 when there is none.
   */
  function FindIndex<T>(s: seq<T>, p: T -> bool): (r: int)
    ensures -1 <= r < |s|
    ensures r >= 0 ==> p(s[r])
    ensures forall k :: 0 <= k < |s| && (r == -1 || k < r) ==> !p(s[k])
  {
    if |s| == 0 then -1
    else if p(s[0]) then 0
    else
      var k := FindIndex(s[1..], p);
      if k == -1 then -1 else k + 1
  }

  /** `cell instanceof Date && cell.toDateString() === target.toDateString()`. */
  predicate IsDateOnDayOf(cell: Cell, target: Instant)
    ensures IsDateOnDayOf(cell, target) <==>
      cell.DateCell? && DayOf(target) * DAY <= cell.instant < DayOf(target) * DAY + DAY
  {
    cell.DateCell? && (DayOfUnique(cell.instant, DayOf(target)); SameDay(cell.instant, target))
  }

  /** Some cell of the column is a date on the target's day. */
  predicate HasDateOnDayOf(g: Grid, column: int, target: Instant)
    requires g.Valid() && 1 <= column <= g.maxColumns
  {
    exists r :: 1 <= r <= g.maxRows && IsDateOnDayOf(g.At(r, column), target)
  }

  /**
   * `vlookupWithDateOrEmpty`: the cell, in `column`, of the first row whose
   * value is a date on `targetDate`'s calendar day; when no row matches, the
   * cell of the row after the sheet's last row with content.
   */
  function VlookupWithDateOrEmpty(g: Grid, column: int, targetDate: Instant): (p: Pos)
    requires g.Valid() && 1 <= column <= g.maxColumns
    ensures p.column == column
    ensures 1 <= p.row <= g.maxRows + 1
    ensures HasDateOnDayOf(g, column, targetDate) ==>
      p.row <= g.maxRows && IsDateOnDayOf(g.At(p.row, column), targetDate)
    ensures !HasDateOnDayOf(g, column, targetDate) ==> p.row == g.LastRow() + 1
    ensures forall r :: 1 <= r < p.row && r <= g.maxRows ==> !IsDateOnDayOf(g.At(r, column), targetDate)
  {
    var values := g.ColumnValues(column);
    var findRowIndex := FindIndex(values, (cell: Cell) => IsDateOnDayOf(cell, targetDate));
    var resultRowIndex := if findRowIndex == -1 then g.LastRow() else findRowIndex;
    assert forall r :: 1 <= r <= g.maxRows && (findRowIndex == -1 || r <= findRowIndex) ==>
             !IsDateOnDayOf(g.At(r, column), targetDate) by {
      forall r | 1 <= r <= g.maxRows && (findRowIndex == -1 || r <= findRowIndex)
        ensures !IsDateOnDayOf(g.At(r, column), targetDate)
      {
        assert values[r - 1] == g.At(r, column);
      }
    }
    Pos(resultRowIndex + 1, column)
  }

  /** A sheet with no content anywhere: the lookup lands on row 1. */
  lemma VlookupOnBlankSheet(g: Grid, column: int, targetDate: Instant)
    requires g.Valid() && 1 <= column <= g.maxColumns
    requires forall r, c :: g.InSheet(r, c) ==> g.At(r, c) == Empty
    ensures VlookupWithDateOrEmpty(g, column, targetDate) == Pos(1, column)
  {
  }

  /** Text, numbers and blanks never match: a column without dates always falls back. */
  lemma VlookupIgnoresNonDates(g: Grid, column: int, targetDate: Instant)
    requires g.Valid() && 1 <= column <= g.maxColumns
    requires forall r :: 1 <= r <= g.maxRows ==> !g.At(r, column).DateCell?
    ensures VlookupWithDateOrEmpty(g, column, targetDate).row == g.LastRow() + 1
  {
  }

  /**
   * The fallback row counts content in every column of the sheet, not only
   * in the searched one: content at row `r` in any column pushes it below `r`.
   */
  lemma VlookupFallbackCountsEveryColumn(g: Grid, column: int, targetDate: Instant, r: int, c: int)
    requires g.Valid() && 1 <= column <= g.maxColumns && g.InSheet(r, c)
    requires !HasDateOnDayOf(g, column, targetDate)
    requires g.At(r, c) != Empty
    ensures VlookupWithDateOrEmpty(g, column, targetDate).row > r
  {
  }

  /**
   * When `h` agrees with `g` on the searched column above `g`'s anchor and
   * holds a date on the target's day at the anchor, the lookup in `h` finds
   * the same cell.  This is what makes a re-run overwrite rather than append.
   */
  lemma VlookupStable(g: Grid, h: Grid, column: int, targetDate: Instant)
    requires SameShape(g, h) && 1 <= column <= g.maxColumns
    requires VlookupWithDateOrEmpty(g, column, targetDate).row <= h.maxRows
    requires IsDateOnDayOf(h.At(VlookupWithDateOrEmpty(g, column, targetDate).row, column), targetDate)
    requires forall r :: 1 <= r < VlookupWithDateOrEmpty(g, column, targetDate).row ==> h.At(r, column) == g.At(r, column)
    ensures VlookupWithDateOrEmpty(h, column, targetDate) == VlookupWithDateOrEmpty(g, column, targetDate)
  {
    var p := VlookupWithDateOrEmpty(g, column, targetDate);
    var q := VlookupWithDateOrEmpty(h, column, targetDate);
    assert HasDateOnDayOf(h, column, targetDate);
  }

  /** The lookup depends only on the target's calendar day, not on its time of day. */
  lemma VlookupSameDay(g: Grid, column: int, a: Instant, b: Instant)
    requires g.Valid() && 1 <= column <= g.maxColumns
    requires SameDay(a, b)
    ensures VlookupWithDateOrEmpty(g, column, a) == VlookupWithDateOrEmpty(g, column, b)
  {
    var p := VlookupWithDateOrEmpty(g, column, a);
    var q := VlookupWithDateOrEmpty(g, column, b);
    assert forall r :: 1 <= r <= g.maxRows ==>
      (IsDateOnDayOf(g.At(r, column), a) <==> IsDateOnDayOf(g.At(r, column), b));
    assert HasDateOnDayOf(g, column, a) <==> HasDateOnDayOf(g, column, b);
    if HasDateOnDayOf(g, column, a) {
      assert !(p.row < q.row) && !(q.row < p.row);
    }
  }

  /**
   * `getTargetRange`: the range with `topLeftRange` as its top-left cell and
   * the size of `rangeData`; reading `rangeData[0].length` of an empty array throws.
   */
  function GetTargetRange(topLeftRange: Pos, rangeData: seq<seq<Cell>>): (r: Result<Range>)
    ensures r.Err? <==> |rangeData| == 0
    ensures r.Err? ==> r.error == EmptyRangeData
    ensures r.Ok? ==> r.value.row == topLeftRange.row && r.value.column == topLeftRange.column
    ensures r.Ok? ==> r.value.numRows == |rangeData| && r.value.numColumns == |rangeData[0]|
  {
    if |rangeData| == 0 then Err(EmptyRangeData)
    else Ok(Range(topLeftRange.row, topLeftRange.column, |rangeData|, |rangeData[0]|))
  }

  /** `getNextRow`: the cell one row below, in the same column. */
  function GetNextRow(cell: Pos): (next: Pos)
    ensures next.column == cell.column
    ensures next.row == cell.row + 1
  {
    Pos(cell.row + 1, cell.column)
  }

  /**
   * `getTargetRange(...).setValues(rangeData)`: the rectangular block written
   * with its top-left cell at `topLeftRange`, or the error the service throws.
   */
  function WriteBlock(g: Grid, topLeftRange: Pos, rangeData: seq<seq<Cell>>): (r: Result<Grid>)
    requires g.Valid() && Rectangular(rangeData)
    ensures r.Err? ==> r.error == (if |rangeData| == 0 then EmptyRangeData else OutsideSheet)
    ensures r.Ok? <==> |rangeData| > 0 && g.Fits(Range(topLeftRange.row, topLeftRange.column, |rangeData|, |rangeData[0]|))
    ensures r.Ok? ==> SameShape(g, r.value)
    ensures r.Ok? ==> forall row, c {:trigger r.value.At(row, c)} :: g.InSheet(row, c) ==>
      r.value.At(row, c) ==
        if topLeftRange.row <= row < topLeftRange.row + |rangeData|
           && topLeftRange.column <= c < topLeftRange.column + |rangeData[0]|
        then rangeData[row - topLeftRange.row][c - topLeftRange.column]
        else g.At(row, c)
  {
    match GetTargetRange(topLeftRange, rangeData)
    case Err(e) => Err(e)
    case Ok(range) =>
      if g.Fits(range) then Ok(g.Written(range, rangeData)) else Err(OutsideSheet)
  }

  /** Writing one block twice at one place gives what writing it once gave. */
  lemma WriteBlockTwice(g: Grid, topLeftRange: Pos, rangeData: seq<seq<Cell>>)
    requires g.Valid() && Rectangular(rangeData)
    requires WriteBlock(g, topLeftRange, rangeData).Ok?
    ensures WriteBlock(WriteBlock(g, topLeftRange, rangeData).value, topLeftRange, rangeData)
         == WriteBlock(g, topLeftRange, rangeData)
  {
    var g1 := WriteBlock(g, topLeftRange, rangeData).value;
    var g2 := WriteBlock(g1, topLeftRange, rangeData);
    assert g2.Ok?;
    Extensionality(g2.value, g1);
  }

  /** The range `clearColumnsFromTopLeft` clears: `numCols` columns from the top-left cell to the sheet's last row. */
  function ColumnsToBottom(g: Grid, topLeftRange: Pos, numCols: int): (r: Range)
    ensures r.row == topLeftRange.row && r.column == topLeftRange.column && r.numColumns == numCols
    ensures r.row + r.numRows - 1 == g.maxRows
    ensures forall row, c :: r.Contains(row, c) <==>
      topLeftRange.row <= row <= g.maxRows && topLeftRange.column <= c < topLeftRange.column + numCols
  {
    Range(topLeftRange.row, topLeftRange.column, g.maxRows - topLeftRange.row + 1, numCols)
  }

  /**
   * The grid after `clearColumnsFromTopLeft`: rows `topLeftRange.row` to
   * `maxRows` of the `numCols` columns from `topLeftRange.column` are
   * emptied and every other cell is kept; the service throws when that
   * range is empty or leaves the sheet.
   */
  function ClearedFromTopLeft(g: Grid, topLeftRange: Pos, numCols: int): (r: Result<Grid>)
    requires g.Valid()
    ensures r.Ok? <==> g.Fits(ColumnsToBottom(g, topLeftRange, numCols))
    ensures r.Err? ==> r.error == OutsideSheet
    ensures r.Ok? ==> SameShape(g, r.value)
    ensures r.Ok? ==> forall row, c {:trigger r.value.At(row, c)} :: g.InSheet(row, c) ==>
      r.value.At(row, c) ==
        if topLeftRange.row <= row && topLeftRange.column <= c < topLeftRange.column + numCols
        then Empty else g.At(row, c)
  {
    var range := ColumnsToBottom(g, topLeftRange, numCols);
    if g.Fits(range) then Ok(g.Cleared(range)) else Err(OutsideSheet)
  }

  /**
   * `clearColumnsFromTopLeft` and then writing `rangeData` at the same
   * top-left cell; a clear that throws stops the write.
   */
  function ClearThenWrite(g: Grid, topLeftRange: Pos, rangeData: seq<seq<Cell>>, numCols: int): (e: Effect)
    requires g.Valid() && Rectangular(rangeData)
    ensures SameShape(g, e.grid)
  {
    match ClearedFromTopLeft(g, topLeftRange, numCols)
    case Err(err) => Effect(g, Threw(err))
    case Ok(cleared) => Apply(cleared, WriteBlock(cleared, topLeftRange, rangeData))
  }

  /**
   * The value at row `r`, column `c` after a clear that fit and a write
   * with the given outcome: in the cleared columns from the top-left row
   * down, the block's value where it was written and blank elsewhere;
   * outside them, the cell as it was.
   */
  function ClearedAndWrittenCell(g: Grid, topLeftRange: Pos, rangeData: seq<seq<Cell>>, numCols: int,
                                 outcome: Outcome, r: int, c: int): Cell
    requires g.Valid() && g.InSheet(r, c) && IsBlock(rangeData, |rangeData|, numCols)
  {
    if topLeftRange.row <= r && topLeftRange.column <= c < topLeftRange.column + numCols then
      if outcome == Wrote && r < topLeftRange.row + |rangeData|
      then rangeData[r - topLeftRange.row][c - topLeftRange.column]
      else Empty
    else g.At(r, c)
  }

  /**
   * Once the clear fits, the write that follows succeeds exactly when the
   * block fits below the top-left cell, and fails on the range otherwise.
   */
  lemma ClearThenWriteOutcome(g: Grid, topLeftRange: Pos, rangeData: seq<seq<Cell>>, numCols: int)
    requires g.Valid() && |rangeData| > 0 && IsBlock(rangeData, |rangeData|, numCols)
    requires g.Fits(ColumnsToBottom(g, topLeftRange, numCols))
    ensures ClearThenWrite(g, topLeftRange, rangeData, numCols).outcome == Wrote
        <==> topLeftRange.row + |rangeData| - 1 <= g.maxRows
    ensures ClearThenWrite(g, topLeftRange, rangeData, numCols).outcome != Wrote
        ==> ClearThenWrite(g, topLeftRange, rangeData, numCols).outcome == Threw(OutsideSheet)
  {
  }

  /** One cell after a clear that fit and the write that follows it. */
  lemma ClearThenWriteCell(g: Grid, topLeftRange: Pos, rangeData: seq<seq<Cell>>, numCols: int, r: int, c: int)
    requires g.Valid() && |rangeData| > 0 && IsBlock(rangeData, |rangeData|, numCols) && g.InSheet(r, c)
    requires g.Fits(ColumnsToBottom(g, topLeftRange, numCols))
    ensures ClearThenWrite(g, topLeftRange, rangeData, numCols).grid.At(r, c)
         == ClearedAndWrittenCell(g, topLeftRange, rangeData, numCols,
                                  ClearThenWrite(g, topLeftRange, rangeData, numCols).outcome, r, c)
  {
    var cleared := ClearedFromTopLeft(g, topLeftRange, numCols).value;
    assert cleared.At(r, c) ==
      if topLeftRange.row <= r && topLeftRange.column <= c < topLeftRange.column + numCols then Empty else g.At(r, c);
  }

  /** `clearColumnsFromTopLeft` on a sheet. */
  method ClearColumnsFromTopLeft(sheet: Sheet, topLeftRange: Pos, numCols: int) returns (outcome: Outcome)
    requires sheet.Valid()
    modifies sheet
    ensures sheet.Valid()
    ensures Effect(sheet.grid, outcome) == Apply(old(sheet.grid), ClearedFromTopLeft(old(sheet.grid), topLeftRange, numCols))
  {
    var startRow := topLeftRange.row;
    var startColumn := topLeftRange.column;
    var numRows := sheet.grid.maxRows - startRow + 1;
    var ok := sheet.ClearContent(Range(startRow, startColumn, numRows, numCols));
    outcome := if ok then Wrote else Threw(OutsideSheet);
  }

  /** `getTargetRange(...).setValues(rangeData)` on a sheet. */
  method SetBlock(sheet: Sheet, topLeftRange: Pos, rangeData: seq<seq<Cell>>) returns (outcome: Outcome)
    requires sheet.Valid() && Rectangular(rangeData)
    modifies sheet
    ensures sheet.Valid()
    ensures Effect(sheet.grid, outcome) == Apply(old(sheet.grid), WriteBlock(old(sheet.grid), topLeftRange, rangeData))
  {
    var targetRange := GetTargetRange(topLeftRange, rangeData);
    if targetRange.Err? {
      return Threw(targetRange.error);
    }
    var ok := sheet.SetValues(targetRange.value, rangeData);
    outcome := if ok then Wrote else Threw(OutsideSheet);
  }
}
