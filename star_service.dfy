/**
 * lib/star_service.js: the stargazer sync.  It owns two whole columns of
 * the sheet: it clears them top to bottom, writes the two-cell header at
 * the configured top-left cell and the `[date, login]` rows of every
 * stargazer from the row below it.
 *
 * GitHub's paginated stargazer list is a parameter, and so is
 * `formatDate`, taken as a function of the UTC calendar day.
 */
module StarService {
  import opened Dates
  import opened Sheets
  import opened Util

  /** The `user` object of a GitHub stargazer entry; only its login is read. */
  datatype GitHubUser = GitHubUser(login: string)

  /** One stargazer as GitHub lists it: `{starred_at, user}`. */
  datatype StargazerEntry = StargazerEntry(starredAt: Instant, user: GitHubUser)

  /** A normalised stargazer: `{starred_at: 'YYYY-MM-DD', user: login}`. */
  datatype Stargazer = Stargazer(starredAt: string, user: string)

  /** The header row above the stargazer rows. */
  const HEADER: seq<Cell> := [Text("Date (UTC)"), Text("User")]

  /** The stargazer sync owns this many columns, starting at the top-left cell's. */
  const STAR_COLUMNS: int := 2

  /** `_normalizeStargazers`: the star date rendered by `formatDate`, and the user's login. */
  function NormalizeStargazers(data: seq<StargazerEntry>, formatDate: int -> string): (r: seq<Stargazer>)
    ensures |r| == |data|
    ensures forall i :: 0 <= i < |data| ==>
      r[i].starredAt == formatDate(DayOf(data[i].starredAt)) && r[i].user == data[i].user.login
  {
    if data == [] then []
    else [Stargazer(formatDate(DayOf(data[0].starredAt)), data[0].user.login)]
         + NormalizeStargazers(data[1..], formatDate)
  }

  /** `_convertTo2DArrayForStargazers`: one `[starred_at, user]` row per stargazer. */
  function ConvertTo2DArrayForStargazers(data: seq<Stargazer>): (rows: seq<seq<Cell>>)
    ensures IsBlock(rows, |data|, STAR_COLUMNS)
    ensures forall i :: 0 <= i < |data| ==> rows[i] == [Text(data[i].starredAt), Text(data[i].user)]
  {
    if data == [] then []
    else [[Text(data[0].starredAt), Text(data[0].user)]] + ConvertTo2DArrayForStargazers(data[1..])
  }

  /** The rows `_insertBodyForStargazers` writes. */
  function StargazerRows(stargazers: seq<StargazerEntry>, formatDate: int -> string): seq<seq<Cell>>
  {
    ConvertTo2DArrayForStargazers(NormalizeStargazers(stargazers, formatDate))
  }

  /**
   * `_clearRangeForStargazers`: the whole of the top-left cell's column and
   * the next one, every row, emptied; throws when the next column is outside
   * the sheet.
   */
  function ClearedForStargazers(g: Grid, topLeft: Pos): (r: Result<Grid>)
    requires g.Valid() && g.InSheet(topLeft.row, topLeft.column)
    ensures r.Ok? <==> topLeft.column + 1 <= g.maxColumns
    ensures r.Err? ==> r.error == OutsideSheet
    ensures r.Ok? ==> SameShape(g, r.value)
    ensures r.Ok? ==> forall row, c {:trigger r.value.At(row, c)} :: g.InSheet(row, c) ==>
      r.value.At(row, c) == if topLeft.column <= c <= topLeft.column + 1 then Empty else g.At(row, c)
  {
    if topLeft.column + 1 <= g.maxColumns then Ok(g.Cleared(Range(1, topLeft.column, g.maxRows, STAR_COLUMNS)))
    else Err(OutsideSheet)
  }

  /** `_insertHeaderForStargazers`: the header in the top-left cell and the one to its right. */
  function WithHeaderForStargazers(g: Grid, topLeft: Pos): (r: Result<Grid>)
    requires g.Valid() && g.InSheet(topLeft.row, topLeft.column)
    ensures r.Ok? <==> topLeft.column + 1 <= g.maxColumns
    ensures r.Err? ==> r.error == OutsideSheet
    ensures r.Ok? ==> SameShape(g, r.value)
    ensures r.Ok? ==> r.value.At(topLeft.row, topLeft.column) == Text("Date (UTC)")
    ensures r.Ok? ==> r.value.At(topLeft.row, topLeft.column + 1) == Text("User")
    ensures r.Ok? ==> forall row, c {:trigger r.value.At(row, c)} :: g.InSheet(row, c) && !(row == topLeft.row && topLeft.column <= c <= topLeft.column + 1) ==>
      r.value.At(row, c) == g.At(row, c)
  {
    var range := Range(topLeft.row, topLeft.column, 1, STAR_COLUMNS);
    if g.Fits(range) then Ok(g.Written(range, [HEADER])) else Err(OutsideSheet)
  }

  /** `_insertBodyForStargazers`: the stargazer rows written from `topLeft`. */
  function WithBodyForStargazers(g: Grid, topLeft: Pos, stargazers: seq<StargazerEntry>, formatDate: int -> string): (r: Result<Grid>)
    requires g.Valid()
    ensures r.Ok? <==> |stargazers| > 0 && g.Fits(Range(topLeft.row, topLeft.column, |stargazers|, STAR_COLUMNS))
    ensures r.Err? ==> r.error == (if |stargazers| == 0 then EmptyRangeData else OutsideSheet)
    ensures r.Ok? ==> SameShape(g, r.value)
    ensures r.Ok? ==> forall row, c {:trigger r.value.At(row, c)} :: g.InSheet(row, c) ==>
      r.value.At(row, c) ==
        if topLeft.row <= row < topLeft.row + |stargazers| && topLeft.column <= c < topLeft.column + STAR_COLUMNS
        then StargazerRows(stargazers, formatDate)[row - topLeft.row][c - topLeft.column]
        else g.At(row, c)
  {
    WriteBlock(g, topLeft, StargazerRows(stargazers, formatDate))
  }

  /** `updateSheetWithStargazers` as a change of the sheet's grid. */
  function StargazersUpdate(g: Grid, topLeft: Pos, stargazers: seq<StargazerEntry>, formatDate: int -> string): (e: Effect)
    requires g.Valid() && g.InSheet(topLeft.row, topLeft.column)
    ensures SameShape(g, e.grid)
  {
    match ClearedForStargazers(g, topLeft)
    case Err(err) => Effect(g, Threw(err))
    case Ok(cleared) =>
      match WithHeaderForStargazers(cleared, topLeft)
      case Err(err) => Effect(cleared, Threw(err))
      case Ok(headed) =>
        Apply(headed, WithBodyForStargazers(headed, GetNextRow(topLeft), stargazers, formatDate))
  }

  /**
   * The cell a stargazer sync leaves at row `r` of the `k`-th owned column:
   * the header on the top-left row, stargazer `r - topLeft.row - 1` on the
   * rows below it when the body was written, and blank everywhere else,
   * above the header included.
   */
  function StarColumnCell(topLeft: Pos, rows: seq<seq<Cell>>, bodyWritten: bool, r: int, k: int): Cell
    requires IsBlock(rows, |rows|, STAR_COLUMNS) && 0 <= k < STAR_COLUMNS
  {
    if r == topLeft.row then HEADER[k]
    else if bodyWritten && topLeft.row < r <= topLeft.row + |rows| then rows[r - topLeft.row - 1][k]
    else Empty
  }

  /**
   * How `updateSheetWithStargazers` ends.  When the column right of the
   * top-left cell is outside the sheet it throws and nothing changes.
   * Otherwise it writes exactly when there is a stargazer and the rows fit
   * below the header; an empty list throws on `rangeData[0].length`, too long a
   * list on the range, both after the clear and the header.
   */
  lemma StargazersUpdateOutcome(g: Grid, topLeft: Pos, stargazers: seq<StargazerEntry>, formatDate: int -> string)
    requires g.Valid() && g.InSheet(topLeft.row, topLeft.column)
    ensures var e := StargazersUpdate(g, topLeft, stargazers, formatDate);
      var c := topLeft.column;
      var n := |stargazers|;
      && (c + 1 > g.maxColumns ==> e == Effect(g, Threw(OutsideSheet)))
      && (c + 1 <= g.maxColumns ==> (e.outcome == Wrote <==> n > 0 && topLeft.row + n <= g.maxRows))
      && (c + 1 <= g.maxColumns && n == 0 ==> e.outcome == Threw(EmptyRangeData))
      && (c + 1 <= g.maxColumns && n > 0 && e.outcome != Wrote ==> e.outcome == Threw(OutsideSheet))
  {
  }

  /** A stargazer sync never changes a cell outside its two columns. */
  lemma StargazersUpdateKeepsOtherColumns(g: Grid, topLeft: Pos, stargazers: seq<StargazerEntry>, formatDate: int -> string)
    requires g.Valid() && g.InSheet(topLeft.row, topLeft.column)
    ensures var e := StargazersUpdate(g, topLeft, stargazers, formatDate);
      forall r, col {:trigger e.grid.At(r, col)} :: g.InSheet(r, col) && (col < topLeft.column || topLeft.column + 1 < col) ==>
        e.grid.At(r, col) == g.At(r, col)
  {
  }

  /**
   * The two owned columns after a stargazer sync hold exactly the header on
   * the top-left row, the stargazer rows below it when the body was
   * written, and blanks everywhere else, rows above the header included.
   */
  lemma StargazersUpdateOwnedColumns(g: Grid, topLeft: Pos, stargazers: seq<StargazerEntry>, formatDate: int -> string)
    requires g.Valid() && g.InSheet(topLeft.row, topLeft.column)
    requires topLeft.column + 1 <= g.maxColumns
    ensures var e := StargazersUpdate(g, topLeft, stargazers, formatDate);
      forall r, col {:trigger e.grid.At(r, col)} :: 1 <= r <= g.maxRows && topLeft.column <= col <= topLeft.column + 1 ==>
        e.grid.At(r, col) ==
          StarColumnCell(topLeft, StargazerRows(stargazers, formatDate), e.outcome == Wrote, r, col - topLeft.column)
  {
    var e := StargazersUpdate(g, topLeft, stargazers, formatDate);
    forall r, col {:trigger e.grid.At(r, col)} | 1 <= r <= g.maxRows && topLeft.column <= col <= topLeft.column + 1
      ensures e.grid.At(r, col) ==
        StarColumnCell(topLeft, StargazerRows(stargazers, formatDate), e.outcome == Wrote, r, col - topLeft.column)
    {
      StargazersUpdateOwnedCell(g, topLeft, stargazers, formatDate, r, col);
    }
  }

  /** Once the clear and the header fit, a stargazer sync ends as its body write does. */
  lemma StargazersUpdateSteps(g: Grid, topLeft: Pos, stargazers: seq<StargazerEntry>, formatDate: int -> string)
    requires g.Valid() && g.InSheet(topLeft.row, topLeft.column)
    requires topLeft.column + 1 <= g.maxColumns
    ensures var e := StargazersUpdate(g, topLeft, stargazers, formatDate);
      var headed := WithHeaderForStargazers(ClearedForStargazers(g, topLeft).value, topLeft).value;
      var body := WithBodyForStargazers(headed, GetNextRow(topLeft), stargazers, formatDate);
      && e.grid == (if body.Ok? then body.value else headed)
      && (e.outcome == Wrote <==> body.Ok?)
  {
  }

  /** An owned column after the clear and the header: the header on the top-left row, blank elsewhere. */
  lemma StargazersHeadedCell(g: Grid, topLeft: Pos, r: int, col: int)
    requires g.Valid() && g.InSheet(topLeft.row, topLeft.column)
    requires topLeft.column + 1 <= g.maxColumns
    requires 1 <= r <= g.maxRows && topLeft.column <= col <= topLeft.column + 1
    ensures var cleared := ClearedForStargazers(g, topLeft).value;
      WithHeaderForStargazers(cleared, topLeft).value.At(r, col)
        == if r == topLeft.row then HEADER[col - topLeft.column] else Empty
  {
    var cleared := ClearedForStargazers(g, topLeft).value;
    assert cleared.At(r, col) == Empty;
  }

  /** An owned column after a body write that succeeded: the stargazer rows below the header row, the cell as before elsewhere. */
  lemma StargazersBodyCell(headed: Grid, topLeft: Pos, stargazers: seq<StargazerEntry>, formatDate: int -> string, r: int, col: int)
    requires headed.Valid() && headed.InSheet(r, col) && topLeft.column <= col <= topLeft.column + 1
    ensures var body := WithBodyForStargazers(headed, GetNextRow(topLeft), stargazers, formatDate);
      var rows := StargazerRows(stargazers, formatDate);
      body.Ok? ==>
        body.value.At(r, col) ==
          if topLeft.row < r <= topLeft.row + |rows| then rows[r - topLeft.row - 1][col - topLeft.column] else headed.At(r, col)
  {
  }

  /** One cell of `StargazersUpdateOwnedColumns`. */
  lemma StargazersUpdateOwnedCell(g: Grid, topLeft: Pos, stargazers: seq<StargazerEntry>, formatDate: int -> string, r: int, col: int)
    requires g.Valid() && g.InSheet(topLeft.row, topLeft.column)
    requires topLeft.column + 1 <= g.maxColumns
    requires 1 <= r <= g.maxRows && topLeft.column <= col <= topLeft.column + 1
    ensures var e := StargazersUpdate(g, topLeft, stargazers, formatDate);
      e.grid.At(r, col) ==
        StarColumnCell(topLeft, StargazerRows(stargazers, formatDate), e.outcome == Wrote, r, col - topLeft.column)
  {
    var c := topLeft.column;
    var rows := StargazerRows(stargazers, formatDate);
    var cleared := ClearedForStargazers(g, topLeft).value;
    var headed := WithHeaderForStargazers(cleared, topLeft).value;
    var body := WithBodyForStargazers(headed, GetNextRow(topLeft), stargazers, formatDate);
    var e := StargazersUpdate(g, topLeft, stargazers, formatDate);
    StargazersUpdateSteps(g, topLeft, stargazers, formatDate);
    StargazersHeadedCell(g, topLeft, r, col);
    var want := StarColumnCell(topLeft, rows, e.outcome == Wrote, r, col - c);
    if body.Ok? {
      assert e.grid == body.value && e.outcome == Wrote;
      StargazersBodyCell(headed, topLeft, stargazers, formatDate, r, col);
      if topLeft.row < r <= topLeft.row + |rows| {
        assert want == rows[r - topLeft.row - 1][col - c];
        assert body.value.At(r, col) == want;
      } else {
        assert want == headed.At(r, col);
        assert body.value.At(r, col) == want;
      }
    } else {
      assert e.grid == headed && e.outcome != Wrote;
      assert want == headed.At(r, col);
    }
  }

  /**
   * The owned columns after a stargazer sync depend only on the stargazer
   * list, the top-left cell and the sheet's size, never on what the
   * columns held before; so does the outcome.
   */
  lemma StargazersUpdateIgnoresPriorContents(g: Grid, h: Grid, topLeft: Pos, stargazers: seq<StargazerEntry>, formatDate: int -> string)
    requires SameShape(g, h) && g.InSheet(topLeft.row, topLeft.column)
    requires topLeft.column + 1 <= g.maxColumns
    ensures var eg := StargazersUpdate(g, topLeft, stargazers, formatDate);
      var eh := StargazersUpdate(h, topLeft, stargazers, formatDate);
      && eg.outcome == eh.outcome
      && forall r, col :: 1 <= r <= g.maxRows && topLeft.column <= col <= topLeft.column + 1 ==>
           eg.grid.At(r, col) == eh.grid.At(r, col)
  {
    StargazersUpdateOutcome(g, topLeft, stargazers, formatDate);
    StargazersUpdateOutcome(h, topLeft, stargazers, formatDate);
    StargazersUpdateOwnedColumns(g, topLeft, stargazers, formatDate);
    StargazersUpdateOwnedColumns(h, topLeft, stargazers, formatDate);
  }

  /** Running the stargazer sync twice with the same list leaves the sheet as one run does. */
  lemma StargazersUpdateIdempotent(g: Grid, topLeft: Pos, stargazers: seq<StargazerEntry>, formatDate: int -> string)
    requires g.Valid() && g.InSheet(topLeft.row, topLeft.column)
    ensures StargazersUpdate(StargazersUpdate(g, topLeft, stargazers, formatDate).grid, topLeft, stargazers, formatDate)
         == StargazersUpdate(g, topLeft, stargazers, formatDate)
  {
    var e1 := StargazersUpdate(g, topLeft, stargazers, formatDate);
    var e2 := StargazersUpdate(e1.grid, topLeft, stargazers, formatDate);
    StargazersUpdateOutcome(g, topLeft, stargazers, formatDate);
    if topLeft.column + 1 <= g.maxColumns {
      StargazersUpdateIgnoresPriorContents(g, e1.grid, topLeft, stargazers, formatDate);
      StargazersUpdateKeepsOtherColumns(g, topLeft, stargazers, formatDate);
      StargazersUpdateKeepsOtherColumns(e1.grid, topLeft, stargazers, formatDate);
      Extensionality(e2.grid, e1.grid);
    }
  }

  /** `_clearRangeForStargazers` on a sheet. */
  method ClearRangeForStargazers(sheet: Sheet, topLeft: Pos) returns (outcome: Outcome)
    requires sheet.Valid() && sheet.grid.InSheet(topLeft.row, topLeft.column)
    modifies sheet
    ensures sheet.Valid()
    ensures Effect(sheet.grid, outcome) == Apply(old(sheet.grid), ClearedForStargazers(old(sheet.grid), topLeft))
  {
    var colIndex := topLeft.column;
    if colIndex + 1 > sheet.grid.maxColumns {
      return Threw(OutsideSheet);
    }
    var ok := sheet.ClearContent(Range(1, colIndex, sheet.grid.maxRows, STAR_COLUMNS));
    outcome := if ok then Wrote else Threw(OutsideSheet);
  }

  /** `_insertHeaderForStargazers` on a sheet. */
  method InsertHeaderForStargazers(sheet: Sheet, topLeft: Pos) returns (outcome: Outcome)
    requires sheet.Valid() && sheet.grid.InSheet(topLeft.row, topLeft.column)
    modifies sheet
    ensures sheet.Valid()
    ensures Effect(sheet.grid, outcome) == Apply(old(sheet.grid), WithHeaderForStargazers(old(sheet.grid), topLeft))
  {
    var ok := sheet.SetValues(Range(topLeft.row, topLeft.column, 1, STAR_COLUMNS), [HEADER]);
    outcome := if ok then Wrote else Threw(OutsideSheet);
  }

  /** `_insertBodyForStargazers` on a sheet. */
  method InsertBodyForStargazers(sheet: Sheet, topLeft: Pos, stargazers: seq<StargazerEntry>, formatDate: int -> string)
    returns (outcome: Outcome)
    requires sheet.Valid()
    modifies sheet
    ensures sheet.Valid()
    ensures Effect(sheet.grid, outcome) == Apply(old(sheet.grid), WithBodyForStargazers(old(sheet.grid), topLeft, stargazers, formatDate))
  {
    var normalized := NormalizeStargazers(stargazers, formatDate);
    var twoDArray := ConvertTo2DArrayForStargazers(normalized);
    outcome := SetBlock(sheet, topLeft, twoDArray);
  }

  /** `updateSheetWithStargazers`, with GitHub's full stargazer list as a parameter. */
  method UpdateSheetWithStargazers(sheet: Sheet, topLeft: Pos, stargazers: seq<StargazerEntry>, formatDate: int -> string)
    returns (outcome: Outcome)
    requires sheet.Valid() && sheet.grid.InSheet(topLeft.row, topLeft.column)
    modifies sheet
    ensures sheet.Valid()
    ensures Effect(sheet.grid, outcome) == StargazersUpdate(old(sheet.grid), topLeft, stargazers, formatDate)
  {
    outcome := ClearRangeForStargazers(sheet, topLeft);
    if outcome.Threw? {
      return;
    }
    outcome := InsertHeaderForStargazers(sheet, topLeft);
    if outcome.Threw? {
      return;
    }
    var nextTopLeft := GetNextRow(topLeft);
    outcome := InsertBodyForStargazers(sheet, nextTopLeft, stargazers, formatDate);
  }
}
