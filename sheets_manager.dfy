/*
 * SheetsManager of src/sheets_manager.py: the region-specific tab
 * names, where an upsert writes in a tab (the dashboard row of a date,
 * the ad-details row of an ad, the start of a batch write), what a batch
 * reports, and the row colours.
 *
 * The Google Sheets service is not modelled: the first column a call
 * reads back (`values`), the sheet id it looks up and whether its
 * requests succeed are parameters.
 */
module SheetsManagement {
  import opened Common
  import Pipeline
  import SheetsFormatting

  const DashboardTab: string := "Dashboard"
  const AdDetailsTab: string := "Ad Details"
  const SegmentsTab: string := "Segments"

  const ValidRegions: seq<string> := ["ASI", "EUR", "LAT", "PAC", "GBR", "NAM"]

  /** The region a manager uses: the one asked for when valid, else GBR. */
  function RegionOrDefault(region: string): (r: string)
    ensures r in ValidRegions
    ensures r == region <==> region in ValidRegions
    ensures region !in ValidRegions ==> r == "GBR"
  {
    if region in ValidRegions then region else "GBR"
  }

  // ---- locating rows ----

  /** A row read back from column A whose first cell is `key` (`row and row[0] == key`). */
  predicate Matches(row: seq<string>, key: string) {
    row != [] && row[0] == key
  }

  /** The index of the first row at or after `from` that matches `key`. */
  function FirstMatch(values: seq<seq<string>>, key: string, from: nat): (r: Option<nat>)
    ensures r.Some? ==>
      from <= r.value < |values| && Matches(values[r.value], key)
      && forall j :: from <= j < r.value ==> !Matches(values[j], key)
    ensures r.None? ==> forall j :: from <= j < |values| ==> !Matches(values[j], key)
    decreases |values| - from
  {
    if from >= |values| then None
    else if Matches(values[from], key) then Some(from)
    else FirstMatch(values, key, from + 1)
  }

  /** The scan over `values` with an early break. */
  method FindRow(values: seq<seq<string>>, key: string, from: nat) returns (found: Option<nat>)
    ensures found == FirstMatch(values, key, from)
  {
    found := None;
    var i := from;
    while i < |values|
      invariant from <= i
      invariant FirstMatch(values, key, from) == FirstMatch(values, key, i)
      decreases |values| - i
    {
      if Matches(values[i], key) {
        found := Some(i);
        break;
      }
      i := i + 1;
    }
  }

  /** The 1-based row the dashboard writes for a date: the first row holding it, else the next free row. */
  function DashboardRow(values: seq<seq<string>>, date: string): (r: nat)
    ensures 1 <= r <= |values| + 1
  {
    match FirstMatch(values, date, 0)
    case Some(i) => i + 1
    case None => |values| + 1
  }

  /** The 1-based row the ad details write for an ad: the search skips the header row. */
  function AdDetailsRow(values: seq<seq<string>>, adId: string): (r: nat)
    ensures 1 <= r <= |values| + 1
  {
    match FirstMatch(values, adId, 1)
    case Some(i) => i + 1
    case None => |values| + 1
  }

  /** Below a header the ad details never overwrite row 1. */
  lemma AdDetailsSkipsHeader(values: seq<seq<string>>, adId: string)
    requires values != []
    ensures AdDetailsRow(values, adId) >= 2
  {
  }

  /** The first column after writing `cells` at 1-based row `row` (an update, or an append just past the end). */
  function Written(values: seq<seq<string>>, row: nat, cells: seq<string>): (r: seq<seq<string>>)
    requires 1 <= row <= |values| + 1
    ensures |r| == if row <= |values| then |values| else |values| + 1
    ensures r[row - 1] == cells
    ensures forall j :: 0 <= j < |values| && j != row - 1 ==> r[j] == values[j]
  {
    if row <= |values| then values[row - 1 := cells] else values + [cells]
  }

  /** The row a search finds after the key was written at the row it chose first. */
  lemma {:induction false} WrittenIsFound(values: seq<seq<string>>, key: string, from: nat, rest: seq<string>)
    requires from <= |values|
    ensures var row := match FirstMatch(values, key, from) case Some(i) => i + 1 case None => |values| + 1;
      FirstMatch(Written(values, row, [key] + rest), key, from) == Some(row - 1)
  {
    var row := match FirstMatch(values, key, from) case Some(i) => i + 1 case None => |values| + 1;
    var w := Written(values, row, [key] + rest);
    assert Matches(w[row - 1], key);
    FirstMatchAt(w, key, from, row - 1);
  }

  /** A search finds the first matching row. */
  lemma {:induction false} FirstMatchAt(values: seq<seq<string>>, key: string, from: nat, k: nat)
    requires from <= k < |values| && Matches(values[k], key)
    requires forall j :: from <= j < k ==> !Matches(values[j], key)
    ensures FirstMatch(values, key, from) == Some(k)
    decreases k - from
  {
    if from < k {
      FirstMatchAt(values, key, from + 1, k);
    }
  }

  /** A second dashboard update for the same date writes the same row: the upsert does not duplicate dates. */
  lemma DashboardUpsertStable(values: seq<seq<string>>, date: string, rest: seq<string>)
    ensures var row := DashboardRow(values, date);
      DashboardRow(Written(values, row, [date] + rest), date) == row
  {
    WrittenIsFound(values, date, 0, rest);
  }

  /** Below a header a second ad-details update for the same ad writes the same row. */
  lemma AdDetailsUpsertStable(values: seq<seq<string>>, adId: string, rest: seq<string>)
    requires values != []
    ensures var row := AdDetailsRow(values, adId);
      AdDetailsRow(Written(values, row, [adId] + rest), adId) == row
  {
    WrittenIsFound(values, adId, 1, rest);
  }

  /** On an empty tab the first ad lands in row 1, which the next search skips, so the next update appends it again. */
  lemma AdDetailsEmptyTabDuplicates(adId: string, rest: seq<string>)
    ensures AdDetailsRow([], adId) == 1
    ensures AdDetailsRow(Written([], 1, [adId] + rest), adId) == 2
  {
  }

  // ---- the batch write ----

  /** The row a batch write starts at, from the number of rows in column A. */
  function BatchStart(rowsInUse: nat): (r: nat)
  {
    var next := rowsInUse + 1;
    if next == 1 then 1 else if next > 2 then next else 2
  }

  /** The start is always the next free row; the header goes out only to an empty tab. */
  lemma BatchStartIsNextRow(rowsInUse: nat)
    ensures BatchStart(rowsInUse) == rowsInUse + 1
    ensures BatchStart(rowsInUse) == 1 <==> rowsInUse == 0
  {
  }

  /** The rows written from the start row: without the header unless the start is row 1. */
  function BatchBody(grid: seq<seq<string>>, start: nat): (r: seq<seq<string>>)
    requires grid != []
    ensures start <= 1 ==> r == grid
    ensures start > 1 ==> [grid[0]] + r == grid
  {
    if start > 1 then grid[1..] else grid
  }

  /** `if not sheet_id`: a missing id, and also the id 0. */
  predicate NoSheet(sheetId: Option<int>) {
    sheetId.None? || sheetId.value == 0
  }

  datatype BatchWrite = BatchWrite(start: nat, rows: seq<seq<string>>)

  datatype Rgb = Rgb(red: real, green: real, blue: real)

  const Grey: Rgb := Rgb(0.95, 0.95, 0.95)
  const White: Rgb := Rgb(1.0, 1.0, 1.0)
  const Green: Rgb := Rgb(0.0, 0.6, 0.0)
  const Red: Rgb := Rgb(0.8, 0.0, 0.0)

  /** The background of a 1-based row: grey on even rows, white on odd ones. */
  function Background(rowIndex: int): (c: Rgb)
    ensures c == Grey || c == White
  {
    if rowIndex % 2 == 0 then Grey else White
  }

  /** Adjacent rows differ and the pattern repeats every two rows. */
  lemma BackgroundAlternates(rowIndex: int)
    ensures Background(rowIndex) != Background(rowIndex + 1)
    ensures Background(rowIndex) == Background(rowIndex + 2)
  {
  }

  /** The colour of the performance cell: green at 20 or above, red at -20 or below, none between. */
  function PerformanceColour(score: real): (c: Option<Rgb>)
  {
    if score >= 20.0 then Some(Green)
    else if score <= -20.0 then Some(Red)
    else None
  }

  /** The colour agrees with the status the formatter gives the same score. */
  lemma ColourMatchesStatus(score: real)
    ensures PerformanceColour(score) == Some(Green) <==> SheetsFormatting.StatusAction(score).0 == "Winning"
    ensures PerformanceColour(score) == Some(Red) <==> SheetsFormatting.StatusAction(score).0 == "Losing"
    ensures PerformanceColour(score).None? <==> SheetsFormatting.StatusAction(score).0 == "Average"
  {
    SheetsFormatting.StatusActionRanges(score);
    assert Green != Red;
  }

  // ---- the dashboard row ----

  function LeaderName(ps: seq<Pipeline.Performer>): Value {
    if ps == [] then Str("None") else ps[0].adName
  }

  function LeaderScore(ps: seq<Pipeline.Performer>): Value {
    if ps == [] then Int(0) else Float(ps[0].score)
  }

  /** The seven cells of a dashboard row. */
  function DashboardCells(s: Pipeline.DashboardSummary): (r: seq<Value>)
    ensures |r| == 7 && r[0] == Str(s.date) && r[1] == Int(s.adsAnalyzed) && r[2] == Float(s.avgScore)
  {
    [Str(s.date), Int(s.adsAnalyzed), Float(s.avgScore),
     LeaderName(s.topPerformers), LeaderScore(s.topPerformers),
     LeaderName(s.bottomPerformers), LeaderScore(s.bottomPerformers)]
  }

  /** Shown the first of a top selection ranked by score, the dashboard shows the best score of the whole list. */
  lemma LeaderIsBest(s: Pipeline.DashboardSummary, p: seq<Pipeline.Performer>)
    requires p != [] ==> s.topPerformers != []
    requires multiset(s.topPerformers) <= multiset(p)
    requires forall i, j :: 0 <= i < j < |s.topPerformers| ==> s.topPerformers[i].score >= s.topPerformers[j].score
    requires forall q, x :: q in s.topPerformers && x in multiset(p) - multiset(s.topPerformers) ==> q.score >= x.score
    ensures var cells := DashboardCells(s);
      (s.topPerformers == [] ==> cells[3] == Str("None") && cells[4] == Int(0))
      && (p != [] ==> exists x :: x in p && cells[3] == x.adName && cells[4] == Float(x.score)
                                 && forall y :: y in p ==> y.score <= x.score)
  {
    var t := s.topPerformers;
    if p != [] {
      assert t[0] in multiset(p);
      forall y | y in p ensures y.score <= t[0].score {
        assert y in multiset(p);
        if y in multiset(t) {
          var i :| 0 <= i < |t| && t[i] == y;
        } else {
          assert y in multiset(p) - multiset(t);
          assert t[0] in t;
        }
      }
      assert t[0] in p;
    }
  }

  /** Shown the first of a bottom selection ranked by score, the dashboard shows the worst score of the whole list. */
  lemma LeaderIsWorst(s: Pipeline.DashboardSummary, p: seq<Pipeline.Performer>)
    requires p != [] ==> s.bottomPerformers != []
    requires multiset(s.bottomPerformers) <= multiset(p)
    requires forall i, j :: 0 <= i < j < |s.bottomPerformers| ==> s.bottomPerformers[i].score <= s.bottomPerformers[j].score
    requires forall q, x :: q in s.bottomPerformers && x in multiset(p) - multiset(s.bottomPerformers) ==> q.score <= x.score
    ensures var cells := DashboardCells(s);
      (s.bottomPerformers == [] ==> cells[5] == Str("None") && cells[6] == Int(0))
      && (p != [] ==> exists x :: x in p && cells[5] == x.adName && cells[6] == Float(x.score)
                                 && forall y :: y in p ==> x.score <= y.score)
  {
    var b := s.bottomPerformers;
    if p != [] {
      assert b[0] in multiset(p);
      forall y | y in p ensures b[0].score <= y.score {
        assert y in multiset(p);
        if y in multiset(b) {
          var i :| 0 <= i < |b| && b[i] == y;
        } else {
          assert y in multiset(p) - multiset(b);
          assert b[0] in b;
        }
      }
      assert b[0] in p;
    }
  }

  /** For a prepared summary, the top performer shown has the best score of all performers, or is "None" with 0. */
  lemma DashboardShowsBest(ads: seq<Pipeline.AnalyzedAd>, today: string)
    requires forall i :: 0 <= i < |ads| ==> Pipeline.ScoreReadable(ads[i])
    ensures var cells := DashboardCells(Pipeline.PrepareDashboardSummary(ads, today));
      var p := Pipeline.Performers(ads);
      (p == [] ==> cells[3] == Str("None") && cells[4] == Int(0))
      && (p != [] ==> exists x :: x in p && cells[3] == x.adName && cells[4] == Float(x.score)
                                 && forall y :: y in p ==> y.score <= x.score)
  {
    var p := Pipeline.Performers(ads);
    var s := Pipeline.PrepareDashboardSummary(ads, today);
    Pipeline.TopPerformersRanked(ads, today);
    LeaderIsBest(s, p);
  }

  /** For a prepared summary, the bottom performer shown has the worst score of all performers, or is "None" with 0. */
  lemma DashboardShowsWorst(ads: seq<Pipeline.AnalyzedAd>, today: string)
    requires forall i :: 0 <= i < |ads| ==> Pipeline.ScoreReadable(ads[i])
    ensures var cells := DashboardCells(Pipeline.PrepareDashboardSummary(ads, today));
      var p := Pipeline.Performers(ads);
      (p == [] ==> cells[5] == Str("None") && cells[6] == Int(0))
      && (p != [] ==> exists x :: x in p && cells[5] == x.adName && cells[6] == Float(x.score)
                                 && forall y :: y in p ==> x.score <= y.score)
  {
    var p := Pipeline.Performers(ads);
    var s := Pipeline.PrepareDashboardSummary(ads, today);
    Pipeline.BottomPerformersRanked(ads, today);
    LeaderIsWorst(s, p);
  }

  // ---- the manager ----

  class SheetsManager {
    var region: string

    /** `__init__`: an invalid region falls back to GBR. */
    constructor(region: string)
      ensures this.region == RegionOrDefault(region)
    {
      this.region := RegionOrDefault(region);
    }

    /** The Ad Details tab is named after the region; every other tab is "<region>_<base>". */
    function TabName(base: string): (r: string)
      reads this
      ensures base == AdDetailsTab ==> r == region
      ensures base != AdDetailsTab ==> r == region + "_" + base
    {
      if base == AdDetailsTab then region else region + "_" + base
    }

    /**
     * `update_dashboard`: the tab, row and cells written, whether the row
     * gets its background (a new row of a tab whose sheet id is known),
     * and the returned flag. `apiOk` says whether the Sheets requests
     * succeed; a failure is caught and answered with False.
     */
    method UpdateDashboard(summary: Pipeline.DashboardSummary, values: seq<seq<string>>,
                           sheetId: Option<int>, apiOk: bool)
      returns (ok: bool, tab: string, row: nat, cells: seq<Value>, formatted: bool)
      ensures ok == apiOk
      ensures tab == TabName(DashboardTab)
      ensures row == DashboardRow(values, summary.date)
      ensures cells == DashboardCells(summary)
      ensures formatted <==> apiOk && row == |values| + 1 && !NoSheet(sheetId)
    {
      tab := TabName(DashboardTab);
      cells := DashboardCells(summary);
      var found := FindRow(values, summary.date, 0);
      row := if found.Some? then found.value + 1 else |values| + 1;
      if !apiOk {
        return false, tab, row, cells, false;
      }
      formatted := found.None? && !NoSheet(sheetId);
      ok := true;
    }

    /**
     * `update_ad_details`: the tab and row written, the colours a new row
     * gets when its tab's sheet id is known, and the returned flag. A
     * failed Sheets request is caught and answered with False.
     */
    method UpdateAdDetails(adId: string, score: real, values: seq<seq<string>>,
                           sheetId: Option<int>, apiOk: bool)
      returns (ok: bool, tab: string, row: nat, colours: Option<(Rgb, Option<Rgb>)>)
      ensures ok == apiOk
      ensures tab == TabName(AdDetailsTab) == region
      ensures row == AdDetailsRow(values, adId)
      ensures colours.Some? <==> apiOk && row == |values| + 1 && !NoSheet(sheetId)
      ensures colours.Some? ==> colours.value == (Background(row), PerformanceColour(score))
    {
      tab := TabName(AdDetailsTab);
      var found := FindRow(values, adId, 1);
      row := if found.Some? then found.value + 1 else |values| + 1;
      if !apiOk {
        return false, tab, row, None;
      }
      ok := true;
      if found.Some? || NoSheet(sheetId) {
        colours := None;
      } else {
        colours := Some((Background(row), PerformanceColour(score)));
      }
    }

    /**
     * `update_ad_details_batch`: format the ads, and, when the tab has a
     * sheet id, write the grid from the next free row. `apiOk` says whether
     * the Sheets requests succeed.
     */
    method UpdateAdDetailsBatch(ads: seq<Pipeline.AnalyzedAd>, sheetId: Option<int>,
                                values: seq<seq<string>>, apiOk: bool)
      returns (successes: nat, errors: nat, write: Option<BatchWrite>)
      requires forall i :: 0 <= i < |ads| ==> SheetsFormatting.EntryReadable(ads[i])
      ensures var ready := SheetsFormatting.FormatAll(ads);
        && (NoSheet(sheetId) ==> successes == 0 && errors == |ads| && write.None?)
        && (!NoSheet(sheetId) ==>
              (successes, errors) == (if apiOk then (|ready|, 0) else (0, |ready|))
              && write.Some? && write.value.start == |values| + 1
              && |write.value.rows| == (if values == [] then |ready| + 1 else |ready|)
              && write.value.rows == BatchBody(SheetsFormatting.Grid(Map(ready, SheetsFormatting.SheetsRow)), |values| + 1))
      ensures successes + errors <= |ads|
    {
      var formatted := SheetsFormatting.FormatAdDataForSheets(ads);
      var ready := SheetsFormatting.CreateSheetsFormulas(formatted);
      var grid := SheetsFormatting.FormatForSheetsApi(ready);
      if NoSheet(sheetId) {
        return 0, |ads|, None;
      }
      var start := BatchStart(|values|);
      BatchStartIsNextRow(|values|);
      write := Some(BatchWrite(start, BatchBody(grid, start)));
      if apiOk {
        successes, errors := |ready|, 0;
      } else {
        successes, errors := 0, |ready|;
      }
    }
  }

  /** Managers of two different regions never write to the same tab. */
  lemma RegionsKeepApart(a: SheetsManager, b: SheetsManager, x: string, y: string)
    requires a.region in ValidRegions && b.region in ValidRegions && a.region != b.region
    ensures a.TabName(x) != b.TabName(y)
  {
    assert |a.region| == 3 && |b.region| == 3;
    assert a.TabName(x)[..3] == a.region;
    assert b.TabName(y)[..3] == b.region;
  }

  /** Within one manager, different base tabs get different names. */
  lemma TabNamesDistinct(m: SheetsManager, x: string, y: string)
    requires m.region in ValidRegions && x != y
    ensures m.TabName(x) != m.TabName(y)
  {
    var n := |m.region| + 1;
    if x != AdDetailsTab && y != AdDetailsTab {
      assert m.TabName(x)[n..] == x;
      assert m.TabName(y)[n..] == y;
    }
  }
}
