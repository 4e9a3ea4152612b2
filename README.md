# GitHub traffic and stargazers into a spreadsheet — a Dafny model

The repository's Apps Script copies a GitHub repository's statistics into
Google Sheets. This project models three parts of it:

- **Views and clones.** The daily readings are normalised and trimmed to the
  last ten days. Zero placeholders are added for every calendar day from the
  earliest reading up to the current instant, and the real readings are
  merged over them. The result is written as a block of
  `[date, count, uniques]` rows. The block starts at the row where the
  earliest day already stands, or after the sheet's last row with content.
- **Referrers.** The readings are tagged with the run's instant. The four
  columns are cleared from today's row to the bottom of the sheet, and
  `[date, referrer, count, uniques]` rows are written there.
- **Stargazers.** Two whole columns are cleared. A two-cell header goes at
  the configured cell, and one `[date, login]` row per stargazer goes
  beneath it.

Modules:

- `Dates` covers instants and calendar days.
- `Sheets` has two parts:
  - the sheet as a grid value (`Grid`, with its pure `Cleared` and
    `Written` updates);
  - a `Sheet` class whose `ClearContent` and `SetValues` change that grid
    in place.
- `Util` covers the helpers of `lib/util.js`.
- `TrafficService` and `StarService` cover the two services.

Each service entry point is a `method` on a `Sheet`. Its `ensures` ties the
new grid and the step's `Outcome` to a pure function of the old grid:
`TrafficDataUpdate`, `TrafficReferrersUpdate` or `StargazersUpdate`. Lemmas
about those functions state three things for each path:

- the layout it leaves behind;
- the conditions under which it writes or throws;
- that running it twice changes nothing more.

A SpreadsheetApp call on a range outside the sheet throws, and so does
reading `rangeData[0].length` of an empty array (lib/util.js:49). The model returns these as
`Threw(OutsideSheet)` and `Threw(EmptyRangeData)`. It keeps the sheet as it
was when the throw happened. So a referrer sync can clear and then fail to
write, and a stargazer sync can clear and write its header before the body
fails.

Where the code and its doc comment differ, the model follows the code.
`vlookupWithDateOrEmpty` falls back to the row after
`getLastRow()`, and `getLastRow()` counts content in every column of the
sheet. The doc comment at lib/util.js:56 speaks of "the last row that has
content", but lib/util.js:71-73 adds one. Content in another column
therefore pushes the anchor down (`Util.VlookupFallbackCountsEveryColumn`).

`_buildBlankData` compares each date against the current instant, not
against midnight. A series started on a day boundary therefore includes the
day of `now`, unless `now` is exactly midnight
(`TrafficService.BlankSeriesReachesToday`).

Two helpers of `Sheets` carry the model's own conventions rather than a
line of the source: `Apply` records a step that produced a grid as a write
and keeps the given grid for a step that threw, and `Extensionality` says
that grids of one size agreeing on every cell are equal, which the
idempotence lemmas use.

## Model

| member | source | states |
|---|---|---|
| `Dates.DayOfShift` | lib/traffic_service.js:218 | moving an instant by k whole days moves its calendar day by k, which is what `setDate(getDate() + 1)` does under a fixed-length day |
| `Dates.DayOfMonotone` | lib/traffic_service.js:201 | a later instant never falls on an earlier calendar day |
| `Dates.DayOfUnique` | lib/util.js:68 | an instant falls on day d exactly when it lies within that day's bounds |
| `Sheets.LastRowOf` | lib/util.js:71 | the number of the last row with content: that row has a non-empty cell and every row below it is blank |
| `Sheets.Grid.LastRow` | lib/util.js:71 | `getLastRow()`: some column of the returned row is non-empty and every cell below it is empty, in every column |
| `Sheets.Grid.ColumnValues` | lib/util.js:64 | `getRange('X:X').getValues()`: one value per row of the sheet, each the cell of that row in the column |
| `Sheets.Grid.Cleared` | lib/util.js:16 | `clearContent()`: cells inside the range become empty and all others keep their values |
| `Sheets.Grid.Written` | lib/traffic_service.js:81 | `setValues()`: each cell inside the range takes the value at its offset in the block, and all others keep their values |
| `Sheets.Sheet.ClearContent` | lib/util.js:14-16 | a range that fits the sheet is cleared in place; one that does not makes the call fail and leaves the sheet unchanged |
| `Sheets.Sheet.SetValues` | lib/star_service.js:54-55 | a block of the range's size is written in place when the range fits; otherwise the call fails and the sheet is unchanged |
| `Util.FindIndex` | lib/util.js:66-69 | `findIndex`: the first index satisfying the predicate, or -1 exactly when none does |
| `Util.IsDateOnDayOf` | lib/util.js:67-68 | a cell matches exactly when it is a date whose instant lies within the target's calendar day |
| `Util.VlookupWithDateOrEmpty` | lib/util.js:63-74 | the result stays in the requested column; with a matching date it is the FIRST row holding a date on the target's calendar day; with none it is the row after `getLastRow()` |
| `Util.VlookupOnBlankSheet` | lib/util.js:71-73 | on a sheet with no content the anchor is row 1 |
| `Util.VlookupIgnoresNonDates` | lib/util.js:67-68 | text, numbers and blanks never match, so a column without dates always falls back to the row after the last row |
| `Util.VlookupFallbackCountsEveryColumn` | lib/util.js:71 | with no match, content in any column at row r puts the anchor below r |
| `Util.VlookupStable` | lib/util.js:63-74 | a sheet that agrees above the anchor and holds a date of the target's day at the anchor yields the same anchor, so a re-run overwrites instead of appending |
| `Util.VlookupSameDay` | lib/util.js:66-69 | the lookup depends only on the target's calendar day: two instants of one day find the same cell |
| `Util.GetTargetRange` | lib/util.js:47-52 | the range keeps the top-left cell and has `rangeData.length` rows and `rangeData[0].length` columns; an empty `rangeData` throws |
| `Util.GetNextRow` | lib/util.js:34-37 | the same column, one row down |
| `Util.WriteBlock` | lib/util.js:47-52 | writing a block at a top-left cell succeeds exactly when the data is non-empty and fits the sheet; the block's cells get its values and every other cell is unchanged |
| `Util.WriteBlockTwice` | lib/traffic_service.js:76-81 | writing the same block at the same place twice gives what writing it once gave |
| `Util.ClearedFromTopLeft` | lib/util.js:9-17 | exactly rows `startRow..maxRows` across columns `startCol..startCol+numCols-1` become empty and every other cell is unchanged; a range outside the sheet throws |
| `Util.ColumnsToBottom` | lib/util.js:10-14 | the range starts at the top-left cell, spans `numCols` columns and ends on the sheet's last row, so it holds exactly the cells from the top-left row down in those columns |
| `Util.ClearThenWriteOutcome` | lib/traffic_service.js:99-106 | after a clear that fits, the write that follows at the same top-left cell succeeds exactly when the block fits below it, and otherwise fails on the range |
| `Util.ClearThenWriteCell` | lib/traffic_service.js:99-106 | after a clear that fits and the write that follows, a cell in the cleared columns from the top-left row down holds the block's value where it was written and is blank elsewhere; every other cell is unchanged |
| `Util.ClearColumnsFromTopLeft` | lib/util.js:9-17 | the in-place clear has exactly the effect `ClearedFromTopLeft` describes, failure included |
| `Util.SetBlock` | lib/traffic_service.js:76-81 | the in-place `getTargetRange(...).setValues(...)` has exactly the effect `WriteBlock` describes, failure included |
| `TrafficService.NormalizeTrafficData` | lib/traffic_service.js:115-121 | same length and order; each record's date is the timestamp, and count and uniques are copied |
| `TrafficService.NormalizeTrafficReferrers` | lib/traffic_service.js:130-137 | same length and order; every record carries the target date and its own referrer, count and uniques |
| `TrafficService.RetainDate` | lib/traffic_service.js:160-163 | the retain instant lies ten calendar days before now, at the same time of day, and so before now |
| `TrafficService.Retained` | lib/traffic_service.js:165-173 | the filter's result is a subsequence of the input, holds only dates at or after the retain instant, and keeps every such reading as often as it occurs |
| `TrafficService.ApplyWorkaround` | lib/traffic_service.js:155-174 | exactly the readings dated at or after now minus ten days, in their original order, as a subsequence; an empty list comes back unchanged |
| `TrafficService.WorkaroundKeepsRecent` | lib/traffic_service.js:165-166 | every reading inside the ten-day window survives the trim |
| `TrafficService.EarliestFrom` | lib/traffic_service.js:200-203 | the reduce result is at most its seed and every date, and is the seed or one of the dates |
| `TrafficService.GetEarliestDate` | lib/traffic_service.js:198-205 | for a non-empty list, a date at most every reading's date and equal to one of them |
| `TrafficService.BlankSeries` | lib/traffic_service.js:213-223 | the series `_buildBlankData` returns: empty exactly when start >= now, and every placeholder is dated before now with zero count and uniques |
| `TrafficService.BlankSeriesShape` | lib/traffic_service.js:213-223 | empty exactly when start >= now; otherwise it starts at start, steps exactly one day, keeps every date before now, holds zero counts and uniques, and stops at the first step not before now |
| `TrafficService.BlankSeriesReachesToday` | lib/traffic_service.js:218 | started on a day boundary, the last placeholder is on the day of now itself, or on the day before when now is exactly midnight |
| `TrafficService.BuildBlankData` | lib/traffic_service.js:213-223 | the loop builds exactly the placeholder series from the argument to now; the argument is a value and cannot change |
| `TrafficService.MergedItem` | lib/traffic_service.js:184-189 | the first real reading on the placeholder's calendar day when there is one, otherwise the placeholder; always on the placeholder's day |
| `TrafficService.MergeActualAndBlank` | lib/traffic_service.js:183-190 | one output per placeholder, in order, each the first real reading of that day or the placeholder, so real data wins |
| `TrafficService.CompleteSeriesOnePerDay` | lib/traffic_service.js:69-71 | the merged series has exactly one reading per calendar day from the earliest day, with no gap or repeat, and ends on the day of now or the day before |
| `TrafficService.ConvertTrafficDataTo2DArray` | lib/traffic_service.js:231-233 | a 3-column block with row i equal to `[date, count, uniques]` of reading i |
| `TrafficService.ConvertTrafficReferrersTo2DArray` | lib/traffic_service.js:241-243 | a 4-column block with row i equal to `[date, referrer, count, uniques]` of reading i |
| `TrafficService.TrafficDataUpdate` | lib/traffic_service.js:63-67 | an empty list leaves the sheet unchanged and skips; a step that does not write leaves the sheet unchanged |
| `TrafficService.TrafficDataUpdateLayout` | lib/traffic_service.js:63-82 | it writes exactly when the earliest date is before now and the block fits; the merged 3-column block stands at the earliest date's anchor, and no cell outside it changes; otherwise it throws and changes nothing, reported as `EmptyRangeData` when the earliest date is not before now (the source may throw in `vlookupWithDateOrEmpty` first when the anchor is below the sheet) |
| `TrafficService.TrafficDataRowsStartOnEarliestDay` | lib/traffic_service.js:69-72 | the block's first cell is a date on the earliest reading's calendar day |
| `TrafficService.TrafficDataUpdateIdempotent` | lib/traffic_service.js:63-82 | after a write, a second run with the same readings and the same now finds the same anchor and leaves the sheet as it was |
| `TrafficService.UpdateSheetWithTrafficData` | lib/traffic_service.js:63-82 | the in-place sync has exactly the effect `TrafficDataUpdate` describes |
| `TrafficService.LatestTrafficWithinWindow` | lib/traffic_service.js:155-173 | for readings inside the ten-day window, as `ApplyWorkaround` returns them, every written reading falls on a day from ten days before now up to the day of now |
| `TrafficService.LatestTrafficDataUpdate` | lib/traffic_service.js:9-15 | the views or clones sync from GitHub's entries never changes the sheet's size, changes nothing unless it writes, and skips when every entry is older than the ten-day window |
| `TrafficService.UpdateSheetWithLatestTrafficViews` | lib/traffic_service.js:9-15 | normalise, trim and write the views, with exactly the effect of `TrafficDataUpdate` on the trimmed list |
| `TrafficService.UpdateSheetWithLatestTrafficClones` | lib/traffic_service.js:25-31 | normalise, trim and write the clones, with exactly the effect of `TrafficDataUpdate` on the trimmed list |
| `TrafficService.TrafficReferrersUpdate` | lib/traffic_service.js:92-107 | the referrer sync never changes the sheet's size |
| `TrafficService.TrafficReferrersUpdateLayout` | lib/traffic_service.js:92-107 | the four columns from today's anchor to the bottom are emptied and the block is written over their top when it fits; every other cell is unchanged; an empty list throws before clearing, and a clear outside the sheet changes nothing |
| `TrafficService.LatestTrafficReferrersUpdate` | lib/traffic_service.js:41-51 | an empty referrer list leaves the sheet unchanged |
| `TrafficService.LatestTrafficReferrersUpdateIdempotent` | lib/traffic_service.js:41-51 | after a write, a second run at the same instant with the same list finds the same anchor and leaves the sheet as it was (a corollary; `TrafficReferrersSameDayRerun` covers a later instant and another list) |
| `TrafficService.TrafficReferrersRerunAnchor` | lib/traffic_service.js:92-107 | after a referrer sync wrote, a lookup at any instant of the same calendar day finds the row it wrote at |
| `TrafficService.TrafficReferrersSameDayRerun` | lib/traffic_service.js:92-107 | a later sync on the same calendar day with any non-empty list reuses the first run's anchor, empties the four columns from there down and writes its own rows over their top (when they fit), so the first run's rows are replaced; every other cell is as before either run |
| `TrafficService.UpdateSheetWithLatestTrafficReferrers` | lib/traffic_service.js:41-51 | the in-place entry point has exactly the effect `LatestTrafficReferrersUpdate` describes |
| `TrafficService.UpdateSheetWithTrafficReferrers` | lib/traffic_service.js:92-107 | the in-place clear-then-write has exactly the effect `TrafficReferrersUpdate` describes |
| `StarService.NormalizeStargazers` | lib/star_service.js:81-86 | same length and order; each date is the formatted day of `starred_at`, and each user is `user.login` |
| `StarService.ConvertTo2DArrayForStargazers` | lib/star_service.js:94-96 | a 2-column block with row i equal to `[starred_at, user]` of stargazer i |
| `StarService.ClearedForStargazers` | lib/star_service.js:34-43 | every row of the top-left cell's column and the next one becomes empty, rows above the top-left included, and other columns are unchanged; the clear throws when the next column is outside the sheet |
| `StarService.WithHeaderForStargazers` | lib/star_service.js:52-56 | 'Date (UTC)' and 'User' go in the top-left cell and the one to its right, and nothing else changes |
| `StarService.WithBodyForStargazers` | lib/star_service.js:66-73 | the body write succeeds exactly when there is a stargazer and the rows fit; stargazer k's `[date, login]` row stands k rows below the given cell, across two columns, and every other cell is unchanged; an empty list throws `EmptyRangeData` |
| `StarService.StargazersUpdate` | lib/star_service.js:9-22 | `updateSheetWithStargazers` as one step: clear, header, body on the next row, stopping at the first throw; the sheet keeps its size |
| `StarService.StargazersUpdateOutcome` | lib/star_service.js:9-22 | it writes exactly when there is at least one stargazer and all rows fit below the header; an out-of-sheet second column throws before anything changes; otherwise a failed body is reported as `EmptyRangeData` for an empty list (`rangeData[0].length`, lib/util.js:49) and `OutsideSheet` for too many rows; when the top-left cell is on the sheet's last row, the source throws in `getNextRow` instead |
| `StarService.StargazersUpdateKeepsOtherColumns` | lib/star_service.js:9-22 | no cell outside the two owned columns changes, whether the sync writes or throws |
| `StarService.StargazersUpdateOwnedColumns` | lib/star_service.js:16-21 | the owned columns hold the header on the top-left row and, when written, stargazer k on the k-th row below it; every other row is blank, so a failed body leaves the clear and the header in place |
| `StarService.StargazersUpdateIgnoresPriorContents` | lib/star_service.js:9-22 | the owned columns and the outcome depend only on the stargazer list, the top-left cell and the sheet's size, never on the prior contents |
| `StarService.StargazersUpdateIdempotent` | lib/star_service.js:9-22 | running the sync twice with the same list leaves the sheet as one run does |
| `StarService.ClearRangeForStargazers` | lib/star_service.js:34-43 | the in-place clear has exactly the effect `ClearedForStargazers` describes |
| `StarService.InsertHeaderForStargazers` | lib/star_service.js:52-56 | the in-place header write has exactly the effect `WithHeaderForStargazers` describes |
| `StarService.InsertBodyForStargazers` | lib/star_service.js:66-73 | the in-place body write has exactly the effect of writing the converted rows at the given cell |
| `StarService.UpdateSheetWithStargazers` | lib/star_service.js:9-22 | clear, then header, then body on the next row, with exactly the effect `StargazersUpdate` describes, stopping at the first throw |

## Left out

- The GitHub client in lib/github.js is left out: HTTP requests, JWT signing, the token cache and pagination. The fetched views, clones, referrers and stargazer lists are parameters of the entry points.
- repo2/main.js is configuration and a fixed sequence of calls, and is not part of this model.
- Every `new Date()` of one sync is a single parameter `now`. The source reads the clock separately in the trim, the blank builder and the referrer sync, and these reads can differ by milliseconds.
- The JavaScript `Date` library is not modelled: parsing of ISO timestamps, local time zones and daylight saving. Instants are integer milliseconds and a day is a fixed 86 400 000 ms in UTC.
- `formatDate` (`toISOString().split('T')[0]`) is a parameter from the UTC day number to a string, not an implementation of ISO rendering.
- A1 notation is not modelled: `getA1Notation`, `replace(/\d/g, '')`, `getRange('A:B')`. Cells, columns and ranges are numeric coordinates, and the configured column and top-left cell are required to lie inside the sheet.
- When the anchor is the row just below the sheet, `getRange` throws already in `vlookupWithDateOrEmpty` (lib/util.js:73) or `getNextRow` (lib/util.js:36). The model reports it as the later step's failure instead: `OutsideSheet`, or `EmptyRangeData` when the block to be written is empty. The sheet state is the same either way; only the reported error differs.
- `setValues` with a block whose shape differs from the range is excluded by `Sheets.Sheet.SetValues`' precondition. Every caller in the source passes a block of the range's own shape.
- Logging (`console.log` and the `_consoleLog*` functions) has no effect on data and is left out.
- Spreadsheet cells hold JavaScript numbers; the model uses unbounded integers for counts, since GitHub returns small non-negative integers.
