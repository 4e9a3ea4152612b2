/**
 * lib/traffic_service.js: the views, clones and referrer syncs.  Views and
 * clones are normalised, trimmed to the last ten days, padded with zero
 * placeholders so that every calendar day from the earliest one up to now
 * has a row, merged with the real readings, and written as a block of
 * `[date, count, uniques]` rows at the row where the earliest day already
 * stands (or after the sheet's last row).  Referrers are tagged with the
 * run's instant and written as `[date, referrer, count, uniques]` rows at
 * the row of today's date, after clearing those four columns to the bottom.
 *
 * Every `new Date()` of one sync is the parameter `now`; the GitHub fetch
 * is the entry points' list parameter.
 */
module TrafficService {
  import opened Dates
  import opened Sheets
  import opened Util

  /** One day of GitHub's views or clones response: `{timestamp, count, uniques}`. */
  datatype TrafficEntry = TrafficEntry(timestamp: Instant, count: int, uniques: int)

  /** A normalised views or clones reading: `{date, count, uniques}`. */
  datatype TrafficRecord = TrafficRecord(date: Instant, count: int, uniques: int)

  /** One entry of GitHub's referrers response: `{referrer, count, uniques}`. */
  datatype ReferrerEntry = ReferrerEntry(referrer: string, count: int, uniques: int)

  /** A referrer reading tagged with the sync's date. */
  datatype ReferrerRecord = ReferrerRecord(date: Instant, referrer: string, count: int, uniques: int)

  /** Of GitHub's 14 days, only the most recent ones are trusted. */
  const RETAIN_DAYS: int := 10

  /** Width of a views or clones row, and of a referrer row. */
  const TRAFFIC_COLUMNS: int := 3
  const REFERRER_COLUMNS: int := 4

  // ---------------------------------------------------------------------
  // Shaping the readings

  /** `_normalizeTrafficData`. */
  function NormalizeTrafficData(data: seq<TrafficEntry>): (r: seq<TrafficRecord>)
    ensures |r| == |data|
    ensures forall i :: 0 <= i < |data| ==>
      r[i].date == data[i].timestamp && r[i].count == data[i].count && r[i].uniques == data[i].uniques
  {
    if data == [] then []
    else [TrafficRecord(data[0].timestamp, data[0].count, data[0].uniques)] + NormalizeTrafficData(data[1..])
  }

  /** `_normalizeTrafficReferrers`. */
  function NormalizeTrafficReferrers(data: seq<ReferrerEntry>, targetDate: Instant): (r: seq<ReferrerRecord>)
    ensures |r| == |data|
    ensures forall i :: 0 <= i < |data| ==>
      && r[i].date == targetDate && r[i].referrer == data[i].referrer
      && r[i].count == data[i].count && r[i].uniques == data[i].uniques
  {
    if data == [] then []
    else [ReferrerRecord(targetDate, data[0].referrer, data[0].count, data[0].uniques)]
         + NormalizeTrafficReferrers(data[1..], targetDate)
  }

  /** `a` is `b` with some elements left out, the rest in their order. */
  predicate IsSubsequence<T(==)>(a: seq<T>, b: seq<T>)
  {
    a == [] || (b != [] && ((a[0] == b[0] && IsSubsequence(a[1..], b[1..])) || IsSubsequence(a, b[1..])))
  }

  /** The instant ten days before `now`: `retainDate` of `_applyWorkaround`. */
  function RetainDate(now: Instant): (r: Instant)
    ensures r < now
    ensures DayOf(r) == DayOf(now) - RETAIN_DAYS && r % DAY == now % DAY
  {
    DayOfShift(now, -RETAIN_DAYS);
    now - RETAIN_DAYS * DAY
  }

  /** `data.filter((item) => item.date >= retainDate)`. */
  function Retained(data: seq<TrafficRecord>, retainDate: Instant): (r: seq<TrafficRecord>)
    ensures IsSubsequence(r, data)
    ensures forall i :: 0 <= i < |r| ==> r[i].date >= retainDate
    ensures forall x :: multiset(r)[x] == if x.date >= retainDate then multiset(data)[x] else 0
  {
    if data == [] then []
    else
      assert data == [data[0]] + data[1..];
      if data[0].date >= retainDate then [data[0]] + Retained(data[1..], retainDate)
      else Retained(data[1..], retainDate)
  }

  /**
   * `_applyWorkaround`: exactly the readings dated at or after ten days
   * before `now`, in their order; an empty list comes back as it is.
   */
  function ApplyWorkaround(data: seq<TrafficRecord>, now: Instant): (r: seq<TrafficRecord>)
    ensures data == [] ==> r == data
    ensures IsSubsequence(r, data)
    ensures forall i :: 0 <= i < |r| ==> r[i].date >= RetainDate(now)
    ensures forall x :: multiset(r)[x] == if x.date >= RetainDate(now) then multiset(data)[x] else 0
  {
    if |data| == 0 then data
    else Retained(data, RetainDate(now))
  }

  /** Every reading inside the window survives the trim. */
  lemma WorkaroundKeepsRecent(data: seq<TrafficRecord>, now: Instant, i: int)
    requires 0 <= i < |data| && data[i].date >= RetainDate(now)
    ensures data[i] in ApplyWorkaround(data, now)
  {
    assert data[i] in multiset(data);
    assert data[i] in multiset(ApplyWorkaround(data, now));
  }

  /** The reduce step of `_getEarliestDate`, started from `first`. */
  function EarliestFrom(first: Instant, data: seq<TrafficRecord>): (r: Instant)
    ensures r <= first
    ensures forall i :: 0 <= i < |data| ==> r <= data[i].date
    ensures r == first || exists i :: 0 <= i < |data| && r == data[i].date
    decreases |data|
  {
    if data == [] then first
    else
      var r := EarliestFrom(if data[0].date < first then data[0].date else first, data[1..]);
      assert r == first || r == data[0].date || exists i :: 1 <= i < |data| && r == data[i].date by {
        if r != first && r != data[0].date {
          var i :| 0 <= i < |data[1..]| && r == data[1..][i].date;
          assert r == data[i + 1].date;
        }
      }
      r
  }

  /** `_getEarliestDate`: the smallest date of a non-empty list of readings. */
  function GetEarliestDate(data: seq<TrafficRecord>): (r: Instant)
    requires |data| > 0
    ensures forall i :: 0 <= i < |data| ==> r <= data[i].date
    ensures exists i :: 0 <= i < |data| && r == data[i].date
  {
    EarliestFrom(data[0].date, data)
  }

  /** A zero reading for one day. */
  function Placeholder(date: Instant): TrafficRecord
  {
    TrafficRecord(date, 0, 0)
  }

  /** The placeholders `_buildBlankData` produces: one per day from `start` while the date is before `now`. */
  function BlankSeries(start: Instant, now: Instant): (r: seq<TrafficRecord>)
    ensures r == [] <==> start >= now
    ensures forall k :: 0 <= k < |r| ==> r[k].date < now && r[k].count == 0 && r[k].uniques == 0
    decreases now - start
  {
    if start >= now then [] else [Placeholder(start)] + BlankSeries(start + DAY, now)
  }

  /**
   * The placeholder series starts at `start`, steps one day at a time, and
   * stops at the first date not before `now`: it holds zeros only, is empty
   * exactly when `start >= now`, and includes the day of `now` whenever that
   * day reaches `now` in `start`'s one-day steps.
   */
  lemma {:induction false} BlankSeriesShape(start: Instant, now: Instant)
    ensures var r := BlankSeries(start, now);
      && (r == [] <==> start >= now)
      && (forall k :: 0 <= k < |r| ==> r[k] == Placeholder(start + k * DAY))
      && (forall k :: 0 <= k < |r| ==> r[k].date < now && r[k].count == 0 && r[k].uniques == 0)
      && (forall k :: 0 <= k < |r| - 1 ==> r[k + 1].date == r[k].date + DAY)
      && start + |r| * DAY >= now
    decreases now - start
  {
    if start < now {
      BlankSeriesShape(start + DAY, now);
      var r := BlankSeries(start, now);
      var rest := BlankSeries(start + DAY, now);
      assert r == [Placeholder(start)] + rest;
      assert forall k :: 1 <= k < |r| ==> r[k] == rest[k - 1];
    }
  }

  /**
   * Started on a day boundary, as GitHub's timestamps are, the series runs
   * through the day of `now` itself unless `now` is exactly midnight: the
   * loop compares against the current instant, not against today's start.
   */
  lemma BlankSeriesReachesToday(start: Instant, now: Instant)
    requires start % DAY == 0 && start < now
    ensures var r := BlankSeries(start, now);
      |r| > 0 && DayOf(r[|r| - 1].date) == if now % DAY == 0 then DayOf(now) - 1 else DayOf(now)
  {
    BlankSeriesShape(start, now);
    var r := BlankSeries(start, now);
    var n := |r|;
    var last := r[n - 1].date;
    assert last == start + (n - 1) * DAY;
    DayOfShift(0, DayOf(start) + n - 1);
    DayOfShift(0, DayOf(start) + n);
    assert last == (DayOf(start) + n - 1) * DAY;
    assert DayOf(last) == DayOf(start) + n - 1;
    if now % DAY == 0 {
      assert now == start + n * DAY;
      DayOfShift(last, 1);
    } else {
      assert now < last + DAY;
      DayOfUnique(now, DayOf(last));
    }
  }

  /**
   * `_buildBlankData`: walks a date from `inStartDate` one day at a time
   * while it is before `now`, collecting a placeholder for each.  The
   * argument is an integer value, so the caller's date cannot change.
   */
  method BuildBlankData(inStartDate: Instant, now: Instant) returns (result: seq<TrafficRecord>)
    ensures result == BlankSeries(inStartDate, now)
  {
    result := [];
    var i := inStartDate;
    while i < now
      invariant result + BlankSeries(i, now) == BlankSeries(inStartDate, now)
      decreases now - i
    {
      assert BlankSeries(i, now) == [Placeholder(i)] + BlankSeries(i + DAY, now);
      assert result + BlankSeries(i, now) == (result + [Placeholder(i)]) + BlankSeries(i + DAY, now);
      result := result + [Placeholder(i)];
      i := i + DAY;
    }
    assert BlankSeries(i, now) == [];
    assert result + [] == result;
  }

  /** Some reading falls on the calendar day of `date`. */
  predicate HasReadingOnDay(actual: seq<TrafficRecord>, date: Instant)
  {
    exists k :: 0 <= k < |actual| && SameDay(actual[k].date, date)
  }

  /** `actual[k]` is the first reading on the calendar day of `date`. */
  predicate FirstOnDay(actual: seq<TrafficRecord>, k: int, date: Instant)
  {
    && 0 <= k < |actual| && SameDay(actual[k].date, date)
    && forall j :: 0 <= j < k ==> !SameDay(actual[j].date, date)
  }

  /**
   * One step of `_mergeActualAndBlank`: the first real reading on the
   * placeholder's calendar day, or the placeholder when there is none.
   */
  function MergedItem(actual: seq<TrafficRecord>, blankItem: TrafficRecord): (r: TrafficRecord)
    ensures HasReadingOnDay(actual, blankItem.date) ==>
      exists k :: FirstOnDay(actual, k, blankItem.date) && r == actual[k]
    ensures !HasReadingOnDay(actual, blankItem.date) ==> r == blankItem
    ensures SameDay(r.date, blankItem.date)
  {
    var k := FindIndex(actual, (a: TrafficRecord) => SameDay(a.date, blankItem.date));
    if k == -1 then blankItem
    else
      assert FirstOnDay(actual, k, blankItem.date);
      actual[k]
  }

  /** `_mergeActualAndBlank`: one merged reading per placeholder, in the placeholders' order. */
  function MergeActualAndBlank(actual: seq<TrafficRecord>, blank: seq<TrafficRecord>): (r: seq<TrafficRecord>)
    ensures |r| == |blank|
    ensures forall i :: 0 <= i < |blank| ==> r[i] == MergedItem(actual, blank[i])
  {
    if blank == [] then []
    else [MergedItem(actual, blank[0])] + MergeActualAndBlank(actual, blank[1..])
  }

  /**
   * The merged series has exactly one reading per calendar day, from the
   * day of `start` on, with no gap and no repeated day, and it ends on the
   * day of `now` or the day before.
   */
  lemma CompleteSeriesOnePerDay(actual: seq<TrafficRecord>, start: Instant, now: Instant)
    ensures var r := MergeActualAndBlank(actual, BlankSeries(start, now));
      && (forall i :: 0 <= i < |r| ==> DayOf(r[i].date) == DayOf(start) + i)
      && (|r| > 0 ==> DayOf(now) - 1 <= DayOf(r[|r| - 1].date) <= DayOf(now))
  {
    var blank := BlankSeries(start, now);
    var r := MergeActualAndBlank(actual, blank);
    BlankSeriesShape(start, now);
    forall i | 0 <= i < |r|
      ensures DayOf(r[i].date) == DayOf(start) + i
    {
      DayOfShift(start, i);
    }
    if |r| > 0 {
      var last := blank[|r| - 1].date;
      DayOfMonotone(last, now);
      DayOfMonotone(now, last + DAY);
      DayOfShift(last, 1);
    }
  }

  /** `_convertTrafficDataTo2DArray`: one `[date, count, uniques]` row per reading. */
  function ConvertTrafficDataTo2DArray(inputData: seq<TrafficRecord>): (rows: seq<seq<Cell>>)
    ensures IsBlock(rows, |inputData|, TRAFFIC_COLUMNS)
    ensures forall i :: 0 <= i < |inputData| ==>
      rows[i] == [DateCell(inputData[i].date), Number(inputData[i].count), Number(inputData[i].uniques)]
  {
    if inputData == [] then []
    else [[DateCell(inputData[0].date), Number(inputData[0].count), Number(inputData[0].uniques)]]
         + ConvertTrafficDataTo2DArray(inputData[1..])
  }

  /** `_convertTrafficReferrersTo2DArray`: one `[date, referrer, count, uniques]` row per reading. */
  function ConvertTrafficReferrersTo2DArray(inputData: seq<ReferrerRecord>): (rows: seq<seq<Cell>>)
    ensures IsBlock(rows, |inputData|, REFERRER_COLUMNS)
    ensures forall i :: 0 <= i < |inputData| ==>
      rows[i] == [DateCell(inputData[i].date), Text(inputData[i].referrer),
                  Number(inputData[i].count), Number(inputData[i].uniques)]
  {
    if inputData == [] then []
    else [[DateCell(inputData[0].date), Text(inputData[0].referrer),
           Number(inputData[0].count), Number(inputData[0].uniques)]]
         + ConvertTrafficReferrersTo2DArray(inputData[1..])
  }

  // ---------------------------------------------------------------------
  // Views and clones

  /** The readings `_updateSheetWithTrafficData` writes: every day from the earliest one, real data first. */
  function CompleteData(trafficData: seq<TrafficRecord>, now: Instant): seq<TrafficRecord>
    requires |trafficData| > 0
  {
    MergeActualAndBlank(trafficData, BlankSeries(GetEarliestDate(trafficData), now))
  }

  /** The block `_updateSheetWithTrafficData` writes. */
  function TrafficDataRows(trafficData: seq<TrafficRecord>, now: Instant): seq<seq<Cell>>
    requires |trafficData| > 0
  {
    ConvertTrafficDataTo2DArray(CompleteData(trafficData, now))
  }

  /** Where `_updateSheetWithTrafficData` writes: the anchor of the earliest date. */
  function TrafficDataTopLeft(g: Grid, column: int, trafficData: seq<TrafficRecord>): Pos
    requires g.Valid() && 1 <= column <= g.maxColumns && |trafficData| > 0
  {
    VlookupWithDateOrEmpty(g, column, GetEarliestDate(trafficData))
  }

  /** `_updateSheetWithTrafficData` as a change of the sheet's grid. */
  function TrafficDataUpdate(g: Grid, column: int, trafficData: seq<TrafficRecord>, now: Instant): (e: Effect)
    requires g.Valid() && 1 <= column <= g.maxColumns
    ensures SameShape(g, e.grid)
    ensures trafficData == [] ==> e == Effect(g, Skipped)
    ensures e.outcome != Wrote ==> e.grid == g
  {
    if |trafficData| == 0 then Effect(g, Skipped)
    else
      var rows := TrafficDataRows(trafficData, now);
      Apply(g, WriteBlock(g, TrafficDataTopLeft(g, column, trafficData), rows))
  }

  /**
   * What `_updateSheetWithTrafficData` leaves behind.  With no readings
   * nothing changes.  Otherwise it writes when the earliest date is before
   * `now` and the block fits the sheet, throws (changing nothing) when it
   * does not, and on a write the block of merged rows stands with its
   * top-left at the earliest date's anchor while every other cell keeps
   * its value.
   */
  lemma TrafficDataUpdateLayout(g: Grid, column: int, trafficData: seq<TrafficRecord>, now: Instant)
    requires g.Valid() && 1 <= column <= g.maxColumns
    requires |trafficData| > 0
    ensures var e := TrafficDataUpdate(g, column, trafficData, now);
      var top := TrafficDataTopLeft(g, column, trafficData);
      var earliest := GetEarliestDate(trafficData);
      var n := |BlankSeries(earliest, now)|;
      && (e.outcome == Threw(EmptyRangeData) <==> earliest >= now)
      && (e.outcome == Wrote <==> earliest < now && g.Fits(Range(top.row, column, n, TRAFFIC_COLUMNS)))
      && (e.outcome.Threw? <==> e.outcome != Wrote)
      && (e.outcome == Wrote ==> forall r, c {:trigger e.grid.At(r, c)} :: g.InSheet(r, c) ==>
            e.grid.At(r, c) ==
              if top.row <= r < top.row + n && column <= c < column + TRAFFIC_COLUMNS
              then TrafficDataRows(trafficData, now)[r - top.row][c - column]
              else g.At(r, c))
  {
    BlankSeriesShape(GetEarliestDate(trafficData), now);
  }

  /** The block's first cell is a date on the earliest reading's calendar day. */
  lemma TrafficDataRowsStartOnEarliestDay(trafficData: seq<TrafficRecord>, now: Instant)
    requires |trafficData| > 0
    requires GetEarliestDate(trafficData) < now
    ensures |TrafficDataRows(trafficData, now)| > 0
    ensures IsDateOnDayOf(TrafficDataRows(trafficData, now)[0][0], GetEarliestDate(trafficData))
  {
    var earliest := GetEarliestDate(trafficData);
    BlankSeriesShape(earliest, now);
    var blank := BlankSeries(earliest, now);
    assert blank[0].date == earliest;
    assert CompleteData(trafficData, now)[0] == MergedItem(trafficData, blank[0]);
  }

  /**
   * Running `_updateSheetWithTrafficData` again with the same readings and
   * the same `now` leaves the sheet as the first run left it: the second
   * lookup finds the row the first run wrote, so it overwrites instead of
   * appending.
   */
  lemma TrafficDataUpdateIdempotent(g: Grid, column: int, trafficData: seq<TrafficRecord>, now: Instant)
    requires g.Valid() && 1 <= column <= g.maxColumns
    requires TrafficDataUpdate(g, column, trafficData, now).outcome == Wrote
    ensures TrafficDataUpdate(TrafficDataUpdate(g, column, trafficData, now).grid, column, trafficData, now)
         == TrafficDataUpdate(g, column, trafficData, now)
  {
    var e := TrafficDataUpdate(g, column, trafficData, now);
    var top := TrafficDataTopLeft(g, column, trafficData);
    var rows := TrafficDataRows(trafficData, now);
    var earliest := GetEarliestDate(trafficData);
    TrafficDataUpdateLayout(g, column, trafficData, now);
    TrafficDataRowsStartOnEarliestDay(trafficData, now);
    assert e.grid.At(top.row, column) == rows[0][0];
    VlookupStable(g, e.grid, column, earliest);
    WriteBlockTwice(g, top, rows);
  }

  /** `_updateSheetWithTrafficData` on a sheet. */
  method UpdateSheetWithTrafficData(sheet: Sheet, column: int, trafficData: seq<TrafficRecord>, now: Instant)
    returns (outcome: Outcome)
    requires sheet.Valid() && 1 <= column <= sheet.grid.maxColumns
    modifies sheet
    ensures sheet.Valid()
    ensures Effect(sheet.grid, outcome) == TrafficDataUpdate(old(sheet.grid), column, trafficData, now)
  {
    if |trafficData| == 0 {
      return Skipped;
    }
    var earliestDate := GetEarliestDate(trafficData);
    var blankData := BuildBlankData(earliestDate, now);
    var completeData := MergeActualAndBlank(trafficData, blankData);
    var twoDArray := ConvertTrafficDataTo2DArray(completeData);
    var topLeftRange := VlookupWithDateOrEmpty(sheet.grid, column, earliestDate);
    outcome := SetBlock(sheet, topLeftRange, twoDArray);
  }

  /** The views or clones sync from GitHub's raw entries: normalise, trim, write. */
  function LatestTrafficDataUpdate(g: Grid, column: int, entries: seq<TrafficEntry>, now: Instant): (e: Effect)
    requires g.Valid() && 1 <= column <= g.maxColumns
    ensures SameShape(g, e.grid)
    ensures e.outcome != Wrote ==> e.grid == g
    ensures (forall i :: 0 <= i < |entries| ==> entries[i].timestamp < RetainDate(now)) ==> e == Effect(g, Skipped)
  {
    var trimmed := ApplyWorkaround(NormalizeTrafficData(entries), now);
    if trimmed != [] then
      assert trimmed[0] in multiset(trimmed);
      assert trimmed[0] in multiset(NormalizeTrafficData(entries));
      TrafficDataUpdate(g, column, trimmed, now)
    else
      TrafficDataUpdate(g, column, trimmed, now)
  }

  /**
   * After the trim, every merged reading of a views or clones sync falls on
   * a calendar day from ten days before `now` up to the day of `now`.  The
   * premise is what `ApplyWorkaround` guarantees of its result.
   */
  lemma LatestTrafficWithinWindow(trimmed: seq<TrafficRecord>, now: Instant)
    requires |trimmed| > 0
    requires forall i :: 0 <= i < |trimmed| ==> trimmed[i].date >= RetainDate(now)
    ensures var data := CompleteData(trimmed, now);
      forall i :: 0 <= i < |data| ==> DayOf(RetainDate(now)) <= DayOf(data[i].date) <= DayOf(now)
  {
    var earliest := GetEarliestDate(trimmed);
    var data := CompleteData(trimmed, now);
    CompleteSeriesOnePerDay(trimmed, earliest, now);
    DayOfMonotone(RetainDate(now), earliest);
    if |data| > 0 {
      assert DayOf(data[|data| - 1].date) <= DayOf(now);
    }
  }

  /** `updateSheetWithLatestTrafficViews`, with GitHub's `views` list as a parameter. */
  method UpdateSheetWithLatestTrafficViews(sheet: Sheet, column: int, views: seq<TrafficEntry>, now: Instant)
    returns (outcome: Outcome)
    requires sheet.Valid() && 1 <= column <= sheet.grid.maxColumns
    modifies sheet
    ensures sheet.Valid()
    ensures Effect(sheet.grid, outcome) == LatestTrafficDataUpdate(old(sheet.grid), column, views, now)
  {
    var normalized := NormalizeTrafficData(views);
    var fixed := ApplyWorkaround(normalized, now);
    outcome := UpdateSheetWithTrafficData(sheet, column, fixed, now);
  }

  /** `updateSheetWithLatestTrafficClones`, with GitHub's `clones` list as a parameter. */
  method UpdateSheetWithLatestTrafficClones(sheet: Sheet, column: int, clones: seq<TrafficEntry>, now: Instant)
    returns (outcome: Outcome)
    requires sheet.Valid() && 1 <= column <= sheet.grid.maxColumns
    modifies sheet
    ensures sheet.Valid()
    ensures Effect(sheet.grid, outcome) == LatestTrafficDataUpdate(old(sheet.grid), column, clones, now)
  {
    var normalized := NormalizeTrafficData(clones);
    var fixed := ApplyWorkaround(normalized, now);
    outcome := UpdateSheetWithTrafficData(sheet, column, fixed, now);
  }

  // ---------------------------------------------------------------------
  // Referrers

  /** The block `_updateSheetWithTrafficReferrers` writes. */
  function TrafficReferrersRows(trafficReferrers: seq<ReferrerEntry>, today: Instant): seq<seq<Cell>>
  {
    ConvertTrafficReferrersTo2DArray(NormalizeTrafficReferrers(trafficReferrers, today))
  }

  /**
   * `_updateSheetWithTrafficReferrers` as a change of the sheet's grid:
   * find today's anchor, clear the block's columns from there to the
   * bottom, then write the block.  An empty list throws on
   * `twoDArray[0].length` before anything is cleared.
   */
  function TrafficReferrersUpdate(g: Grid, column: int, trafficReferrers: seq<ReferrerEntry>, today: Instant): (e: Effect)
    requires g.Valid() && 1 <= column <= g.maxColumns
    ensures SameShape(g, e.grid)
  {
    var twoDArray := TrafficReferrersRows(trafficReferrers, today);
    var topLeftRange := VlookupWithDateOrEmpty(g, column, today);
    if |twoDArray| == 0 then Effect(g, Threw(EmptyRangeData))
    else ClearThenWrite(g, topLeftRange, twoDArray, |twoDArray[0]|)
  }

  /**
   * What `_updateSheetWithTrafficReferrers` leaves behind.  When the four
   * columns from today's anchor down to the last row fit the sheet, they
   * are emptied and the block is written over their top when it fits too
   * (otherwise the write throws and the columns stay empty); every other
   * cell keeps its value.  When they do not fit, nothing changes.
   */
  lemma TrafficReferrersUpdateLayout(g: Grid, column: int, trafficReferrers: seq<ReferrerEntry>, today: Instant)
    requires g.Valid() && 1 <= column <= g.maxColumns
    ensures var e := TrafficReferrersUpdate(g, column, trafficReferrers, today);
      var top := VlookupWithDateOrEmpty(g, column, today);
      var n := |trafficReferrers|;
      var clears := g.Fits(ColumnsToBottom(g, top, REFERRER_COLUMNS));
      && (n == 0 ==> e == Effect(g, Threw(EmptyRangeData)))
      && (n > 0 && !clears ==> e == Effect(g, Threw(OutsideSheet)))
      && (n > 0 && clears ==> (e.outcome == Wrote <==> top.row + n - 1 <= g.maxRows))
      && (n > 0 && clears ==> e.outcome != Wrote ==> e.outcome == Threw(OutsideSheet))
      && (n > 0 && clears ==> forall r, c {:trigger e.grid.At(r, c)} :: g.InSheet(r, c) ==>
            e.grid.At(r, c) == ClearedAndWrittenCell(g, top, TrafficReferrersRows(trafficReferrers, today), REFERRER_COLUMNS, e.outcome, r, c))
  {
    var top := VlookupWithDateOrEmpty(g, column, today);
    if |trafficReferrers| > 0 && g.Fits(ColumnsToBottom(g, top, REFERRER_COLUMNS)) {
      TrafficReferrersUpdateOutcome(g, column, trafficReferrers, today);
      var e := TrafficReferrersUpdate(g, column, trafficReferrers, today);
      forall r, c {:trigger e.grid.At(r, c)} | g.InSheet(r, c)
        ensures e.grid.At(r, c) == ClearedAndWrittenCell(g, top, TrafficReferrersRows(trafficReferrers, today), REFERRER_COLUMNS, e.outcome, r, c)
      {
        TrafficReferrersUpdateCell(g, column, trafficReferrers, today, r, c);
      }
    }
  }

  /** `updateSheetWithLatestTrafficReferrers` as a change of the sheet's grid: an empty list is a no-op. */
  function LatestTrafficReferrersUpdate(g: Grid, column: int, trafficReferrers: seq<ReferrerEntry>, now: Instant): (e: Effect)
    requires g.Valid() && 1 <= column <= g.maxColumns
    ensures trafficReferrers == [] ==> e == Effect(g, Skipped)
  {
    if |trafficReferrers| == 0 then Effect(g, Skipped)
    else TrafficReferrersUpdate(g, column, trafficReferrers, now)
  }

  /** A referrer sync that wrote had a non-empty list, a clear that fit, and a block that fit. */
  lemma TrafficReferrersUpdateWrote(g: Grid, column: int, trafficReferrers: seq<ReferrerEntry>, today: Instant)
    requires g.Valid() && 1 <= column <= g.maxColumns
    requires TrafficReferrersUpdate(g, column, trafficReferrers, today).outcome == Wrote
    ensures var top := VlookupWithDateOrEmpty(g, column, today);
      && |trafficReferrers| > 0
      && g.Fits(ColumnsToBottom(g, top, REFERRER_COLUMNS))
      && top.row + |trafficReferrers| - 1 <= g.maxRows
  {
    TrafficReferrersUpdateOutcome(g, column, trafficReferrers, today);
  }

  /** Once the clear fits, a referrer sync writes exactly when the block fits, and otherwise fails on the range. */
  lemma TrafficReferrersUpdateOutcome(g: Grid, column: int, trafficReferrers: seq<ReferrerEntry>, today: Instant)
    requires g.Valid() && 1 <= column <= g.maxColumns && |trafficReferrers| > 0
    requires g.Fits(ColumnsToBottom(g, VlookupWithDateOrEmpty(g, column, today), REFERRER_COLUMNS))
    ensures var e := TrafficReferrersUpdate(g, column, trafficReferrers, today);
      var top := VlookupWithDateOrEmpty(g, column, today);
      && (e.outcome == Wrote <==> top.row + |trafficReferrers| - 1 <= g.maxRows)
      && (e.outcome != Wrote ==> e.outcome == Threw(OutsideSheet))
  {
    var top := VlookupWithDateOrEmpty(g, column, today);
    var rows := TrafficReferrersRows(trafficReferrers, today);
    assert |rows| == |trafficReferrers| && |rows[0]| == REFERRER_COLUMNS;
    assert TrafficReferrersUpdate(g, column, trafficReferrers, today) == ClearThenWrite(g, top, rows, REFERRER_COLUMNS);
    ClearThenWriteOutcome(g, top, rows, REFERRER_COLUMNS);
  }

  /** One cell after a referrer sync whose clear fit: the layout of `TrafficReferrersUpdateLayout`, cell by cell. */
  lemma TrafficReferrersUpdateCell(g: Grid, column: int, trafficReferrers: seq<ReferrerEntry>, today: Instant, r: int, c: int)
    requires g.Valid() && 1 <= column <= g.maxColumns && |trafficReferrers| > 0 && g.InSheet(r, c)
    requires g.Fits(ColumnsToBottom(g, VlookupWithDateOrEmpty(g, column, today), REFERRER_COLUMNS))
    ensures var e := TrafficReferrersUpdate(g, column, trafficReferrers, today);
      var top := VlookupWithDateOrEmpty(g, column, today);
      e.grid.At(r, c) == ClearedAndWrittenCell(g, top, TrafficReferrersRows(trafficReferrers, today), REFERRER_COLUMNS, e.outcome, r, c)
  {
    var top := VlookupWithDateOrEmpty(g, column, today);
    var rows := TrafficReferrersRows(trafficReferrers, today);
    assert |rows| == |trafficReferrers| && |rows[0]| == REFERRER_COLUMNS;
    assert TrafficReferrersUpdate(g, column, trafficReferrers, today) == ClearThenWrite(g, top, rows, REFERRER_COLUMNS);
    ClearThenWriteCell(g, top, rows, REFERRER_COLUMNS, r, c);
  }

  /**
   * After a referrer sync wrote, a lookup on the same calendar day finds the
   * row it wrote at: the first written cell is a date of that day and
   * nothing above it changed.
   */
  lemma TrafficReferrersRerunAnchor(g: Grid, column: int, first: seq<ReferrerEntry>, now: Instant, later: Instant)
    requires g.Valid() && 1 <= column <= g.maxColumns
    requires TrafficReferrersUpdate(g, column, first, now).outcome == Wrote
    requires SameDay(now, later)
    ensures VlookupWithDateOrEmpty(TrafficReferrersUpdate(g, column, first, now).grid, column, later)
         == VlookupWithDateOrEmpty(g, column, now)
  {
    var h := TrafficReferrersUpdate(g, column, first, now).grid;
    var top := VlookupWithDateOrEmpty(g, column, now);
    TrafficReferrersUpdateWrote(g, column, first, now);
    TrafficReferrersUpdateCell(g, column, first, now, top.row, column);
    assert IsDateOnDayOf(h.At(top.row, column), later);
    forall r | 1 <= r < top.row
      ensures h.At(r, column) == g.At(r, column)
    {
      TrafficReferrersUpdateCell(g, column, first, now, r, column);
    }
    VlookupSameDay(g, column, now, later);
    VlookupStable(g, h, column, later);
  }

  /**
   * A later referrer sync on the same calendar day, with any non-empty
   * list, lands on the row the first sync wrote: it clears the four columns
   * from there down and puts its own rows over their top, so the first
   * run's rows are replaced rather than followed.  Everything outside those
   * columns is as it was before either run.
   */
  lemma TrafficReferrersSameDayRerun(g: Grid, column: int, first: seq<ReferrerEntry>, second: seq<ReferrerEntry>,
                                     now: Instant, later: Instant, h: Grid, e: Effect)
    requires g.Valid() && 1 <= column <= g.maxColumns
    requires SameDay(now, later) && |second| > 0
    requires LatestTrafficReferrersUpdate(g, column, first, now) == Effect(h, Wrote)
    requires e == LatestTrafficReferrersUpdate(h, column, second, later)
    ensures var top := VlookupWithDateOrEmpty(g, column, now);
      && VlookupWithDateOrEmpty(h, column, later) == top
      && (e.outcome == Wrote <==> top.row + |second| - 1 <= g.maxRows)
      && (e.outcome != Wrote ==> e.outcome == Threw(OutsideSheet))
      && forall r, c {:trigger e.grid.At(r, c)} :: g.InSheet(r, c) ==>
           e.grid.At(r, c) == ClearedAndWrittenCell(g, top, TrafficReferrersRows(second, later), REFERRER_COLUMNS, e.outcome, r, c)
  {
    var top := VlookupWithDateOrEmpty(g, column, now);
    assert TrafficReferrersUpdate(g, column, first, now) == Effect(h, Wrote);
    assert e == TrafficReferrersUpdate(h, column, second, later);
    TrafficReferrersRerunAnchor(g, column, first, now, later);
    TrafficReferrersUpdateWrote(g, column, first, now);
    assert SameShape(g, h);
    assert h.Fits(ColumnsToBottom(h, top, REFERRER_COLUMNS));
    TrafficReferrersUpdateOutcome(h, column, second, later);
    forall r, c {:trigger e.grid.At(r, c)} | g.InSheet(r, c)
      ensures e.grid.At(r, c) == ClearedAndWrittenCell(g, top, TrafficReferrersRows(second, later), REFERRER_COLUMNS, e.outcome, r, c)
    {
      TrafficReferrersRerunCell(g, column, first, second, now, later, h, e, top, r, c);
    }
  }

  /** One cell of `TrafficReferrersSameDayRerun`, given the shared anchor. */
  lemma TrafficReferrersRerunCell(g: Grid, column: int, first: seq<ReferrerEntry>, second: seq<ReferrerEntry>,
                                  now: Instant, later: Instant, h: Grid, e: Effect, top: Pos, r: int, c: int)
    requires g.Valid() && 1 <= column <= g.maxColumns && |second| > 0 && g.InSheet(r, c)
    requires TrafficReferrersUpdate(g, column, first, now) == Effect(h, Wrote)
    requires e == TrafficReferrersUpdate(h, column, second, later)
    requires top == VlookupWithDateOrEmpty(g, column, now) == VlookupWithDateOrEmpty(h, column, later)
    requires g.Fits(ColumnsToBottom(g, top, REFERRER_COLUMNS))
    ensures e.grid.At(r, c) == ClearedAndWrittenCell(g, top, TrafficReferrersRows(second, later), REFERRER_COLUMNS, e.outcome, r, c)
  {
    TrafficReferrersUpdateWrote(g, column, first, now);
    TrafficReferrersUpdateCell(g, column, first, now, r, c);
    assert SameShape(g, h) && h.InSheet(r, c);
    assert h.Fits(ColumnsToBottom(h, top, REFERRER_COLUMNS));
    TrafficReferrersUpdateCell(h, column, second, later, r, c);
  }

  /**
   * Running the referrer sync again at the same instant with the same list
   * leaves the sheet as the first run left it: the same-day re-run with the
   * same rows writes exactly what the first run wrote.
   */
  lemma LatestTrafficReferrersUpdateIdempotent(g: Grid, column: int, trafficReferrers: seq<ReferrerEntry>, now: Instant)
    requires g.Valid() && 1 <= column <= g.maxColumns
    requires LatestTrafficReferrersUpdate(g, column, trafficReferrers, now).outcome == Wrote
    ensures LatestTrafficReferrersUpdate(LatestTrafficReferrersUpdate(g, column, trafficReferrers, now).grid, column, trafficReferrers, now)
         == LatestTrafficReferrersUpdate(g, column, trafficReferrers, now)
  {
    var e1 := LatestTrafficReferrersUpdate(g, column, trafficReferrers, now);
    var h := e1.grid;
    var e2 := LatestTrafficReferrersUpdate(h, column, trafficReferrers, now);
    var top := VlookupWithDateOrEmpty(g, column, now);
    assert e1 == TrafficReferrersUpdate(g, column, trafficReferrers, now);
    TrafficReferrersUpdateWrote(g, column, trafficReferrers, now);
    TrafficReferrersSameDayRerun(g, column, trafficReferrers, trafficReferrers, now, now, h, e2);
    forall r, c | h.InSheet(r, c)
      ensures e2.grid.At(r, c) == h.At(r, c)
    {
      TrafficReferrersUpdateCell(g, column, trafficReferrers, now, r, c);
    }
    Extensionality(e2.grid, h);
  }

  /** `updateSheetWithLatestTrafficReferrers`, with GitHub's referrer list as a parameter. */
  method UpdateSheetWithLatestTrafficReferrers(sheet: Sheet, column: int, trafficReferrers: seq<ReferrerEntry>, now: Instant)
    returns (outcome: Outcome)
    requires sheet.Valid() && 1 <= column <= sheet.grid.maxColumns
    modifies sheet
    ensures sheet.Valid()
    ensures Effect(sheet.grid, outcome) == LatestTrafficReferrersUpdate(old(sheet.grid), column, trafficReferrers, now)
  {
    if |trafficReferrers| == 0 {
      return Skipped;
    }
    outcome := UpdateSheetWithTrafficReferrers(sheet, column, trafficReferrers, now);
  }

  /** `_updateSheetWithTrafficReferrers` on a sheet; `today` is its `new Date()`. */
  method UpdateSheetWithTrafficReferrers(sheet: Sheet, column: int, trafficReferrers: seq<ReferrerEntry>, today: Instant)
    returns (outcome: Outcome)
    requires sheet.Valid() && 1 <= column <= sheet.grid.maxColumns
    modifies sheet
    ensures sheet.Valid()
    ensures Effect(sheet.grid, outcome) == TrafficReferrersUpdate(old(sheet.grid), column, trafficReferrers, today)
  {
    var normalized := NormalizeTrafficReferrers(trafficReferrers, today);
    var twoDArray := ConvertTrafficReferrersTo2DArray(normalized);
    var topLeftRange := VlookupWithDateOrEmpty(sheet.grid, column, today);
    if |twoDArray| == 0 {
      return Threw(EmptyRangeData);
    }
    var numCols := |twoDArray[0]|;
    outcome := ClearColumnsFromTopLeft(sheet, topLeftRange, numCols);
    if outcome.Threw? {
      return;
    }
    outcome := SetBlock(sheet, topLeftRange, twoDArray);
  }
}
