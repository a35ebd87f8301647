/**
 * The Min_Summary worksheet of the tracker (`main.py`): one row per (date,
 * canonical_id) holding that day's cheapest effective cost, its shop and
 * url. Reading builds yesterday's per-product minimum and the all-time
 * per-product minimum; writing upserts today's row.
 *
 * Reads see the sheet as records (`get_all_records`: one record per data
 * row, fields already stripped and the cost already read as a number);
 * the upsert sees it as raw cell rows (`get_all_values`, header row first).
 */
module MinSummary {
  import opened Wrappers

  /** A cost cell as read: `safe_float(…, math.inf)` yields +∞ when the value is missing or unreadable. */
  datatype Cost = Finite(value: real) | Infinite

  /** Python's `<` on these floats. */
  predicate CostLess(a: Cost, b: Cost) {
    match a
    case Infinite => false
    case Finite(x) => b.Infinite? || x < b.value
  }

  /** One data row of the sheet, as `get_all_records` gives it. */
  datatype MinRecord = MinRecord(date: string, canonicalId: string, minCost: Cost, minShop: string, minUrl: string)

  /** The (cost, shop, url) tuple kept per product. */
  datatype MinEntry = MinEntry(cost: Cost, shop: string, url: string)

  function EntryOf(r: MinRecord): MinEntry {
    MinEntry(r.minCost, r.minShop, r.minUrl)
  }

  // ---------------------------------------------------------------------
  // read_min_summary
  // ---------------------------------------------------------------------

  /** Row `r` is a row of product `cid` on `date`. */
  predicate OnDate(r: MinRecord, date: string, cid: string) {
    r.date == date && r.canonicalId == cid && cid != ""
  }

  /** The dictionary `read_min_summary` has built after reading `records` in order. */
  function SummaryOf(records: seq<MinRecord>, targetDate: string): map<string, MinEntry>
    decreases |records|
  {
    if records == [] then map[]
    else
      var m := SummaryOf(records[..|records| - 1], targetDate);
      var r := records[|records| - 1];
      if r.date != targetDate || r.canonicalId == "" then m else m[r.canonicalId := EntryOf(r)]
  }

  /** `read_min_summary`: per product, the entry of its row on the target date. */
  method ReadMinSummary(records: seq<MinRecord>, targetDate: string) returns (out: map<string, MinEntry>)
    ensures out == SummaryOf(records, targetDate)
  {
    out := map[];
    var i := 0;
    while i < |records|
      invariant 0 <= i <= |records|
      invariant out == SummaryOf(records[..i], targetDate)
    {
      var r := records[i];
      assert records[..i + 1][..i] == records[..i];
      if r.date == targetDate && r.canonicalId != "" {
        out := out[r.canonicalId := EntryOf(r)];
      }
      i := i + 1;
    }
    assert records[..|records|] == records;
  }

  /**
   * Only rows of the target date contribute: a product has an entry
   * exactly when it has a row on that date, and the entry is that of its
   * last such row, since a later row overwrites an earlier one.
   */
  lemma {:induction false} SummaryOfSpec(records: seq<MinRecord>, targetDate: string, cid: string)
    ensures cid in SummaryOf(records, targetDate) <==>
            exists j :: 0 <= j < |records| && OnDate(records[j], targetDate, cid)
    ensures cid in SummaryOf(records, targetDate) ==>
            exists j :: && 0 <= j < |records| && OnDate(records[j], targetDate, cid)
                        && SummaryOf(records, targetDate)[cid] == EntryOf(records[j])
                        && forall k :: j < k < |records| ==> !OnDate(records[k], targetDate, cid)
    decreases |records|
  {
    if records != [] {
      var n := |records| - 1;
      var p := records[..n];
      SummaryOfSpec(p, targetDate, cid);
      forall j | 0 <= j < n ensures p[j] == records[j] { }
      var m := SummaryOf(p, targetDate);
      var r := records[n];
      if OnDate(r, targetDate, cid) {
        assert SummaryOf(records, targetDate) == m[cid := EntryOf(r)];
      } else {
        assert SummaryOf(records, targetDate) == m || (r.canonicalId != cid && SummaryOf(records, targetDate) == m[r.canonicalId := EntryOf(r)]);
        assert cid in SummaryOf(records, targetDate) <==> cid in m;
        if cid in m {
          var j :| && 0 <= j < |p| && OnDate(p[j], targetDate, cid)
                   && m[cid] == EntryOf(p[j])
                   && forall k :: j < k < |p| ==> !OnDate(p[k], targetDate, cid);
          assert SummaryOf(records, targetDate)[cid] == EntryOf(records[j]);
        }
      }
    }
  }

  // ---------------------------------------------------------------------
  // read_alltime_min
  // ---------------------------------------------------------------------

  /** The dictionary `read_alltime_min` has built after reading `records` in order. */
  function AlltimeOf(records: seq<MinRecord>): map<string, MinEntry>
    decreases |records|
  {
    if records == [] then map[]
    else
      var m := AlltimeOf(records[..|records| - 1]);
      var r := records[|records| - 1];
      if r.canonicalId == "" then m
      else if r.canonicalId !in m || CostLess(r.minCost, m[r.canonicalId].cost) then m[r.canonicalId := EntryOf(r)]
      else m
  }

  /** `read_alltime_min`: per product, the entry of its cheapest row. */
  method ReadAlltimeMin(records: seq<MinRecord>) returns (out: map<string, MinEntry>)
    ensures out == AlltimeOf(records)
  {
    out := map[];
    var i := 0;
    while i < |records|
      invariant 0 <= i <= |records|
      invariant out == AlltimeOf(records[..i])
    {
      var r := records[i];
      assert records[..i + 1][..i] == records[..i];
      if r.canonicalId != "" {
        if r.canonicalId !in out || CostLess(r.minCost, out[r.canonicalId].cost) {
          out := out[r.canonicalId := EntryOf(r)];
        }
      }
      i := i + 1;
    }
    assert records[..|records|] == records;
  }

  /** Row `j` is the earliest row of product `cid` with the least cost among that product's rows. */
  predicate IsEarliestMin(records: seq<MinRecord>, cid: string, j: int) {
    && 0 <= j < |records|
    && records[j].canonicalId == cid
    && (forall i :: 0 <= i < |records| && records[i].canonicalId == cid ==>
          !CostLess(records[i].minCost, records[j].minCost))
    && (forall i :: 0 <= i < j && records[i].canonicalId == cid ==>
          CostLess(records[j].minCost, records[i].minCost))
  }

  /** A product has an all-time entry exactly when it has at least one row. */
  lemma {:induction false} AlltimeOfKeys(records: seq<MinRecord>, cid: string)
    ensures cid in AlltimeOf(records) <==>
            cid != "" && exists j :: 0 <= j < |records| && records[j].canonicalId == cid
    decreases |records|
  {
    if records != [] {
      var n := |records| - 1;
      AlltimeOfKeys(records[..n], cid);
      forall j | 0 <= j < n ensures records[..n][j] == records[j] { }
    }
  }

  /** `CostLess` is a strict total order: not below `b` and `c` below `b` puts `c` below `a`. */
  lemma CostLessTrans(a: Cost, b: Cost, c: Cost)
    requires !CostLess(a, b) && CostLess(c, b)
    ensures CostLess(c, a)
  {
  }

  /** A row cheaper than the earliest minimum so far becomes the earliest minimum. */
  lemma MinStepReplace(records: seq<MinRecord>, cid: string, j: nat)
    requires records != [] && IsEarliestMin(records[..|records| - 1], cid, j)
    requires records[|records| - 1].canonicalId == cid
    requires CostLess(records[|records| - 1].minCost, records[j].minCost)
    ensures IsEarliestMin(records, cid, |records| - 1)
  {
    var n := |records| - 1;
    var p := records[..n];
    forall i | 0 <= i < n && records[i].canonicalId == cid
      ensures CostLess(records[n].minCost, records[i].minCost)
    {
      assert p[i] == records[i];
      CostLessTrans(records[i].minCost, records[j].minCost, records[n].minCost);
    }
  }

  /** A row of another product, or one not cheaper, leaves the earliest minimum where it was. */
  lemma MinStepKeep(records: seq<MinRecord>, cid: string, j: nat)
    requires records != [] && IsEarliestMin(records[..|records| - 1], cid, j)
    requires records[|records| - 1].canonicalId == cid ==> !CostLess(records[|records| - 1].minCost, records[j].minCost)
    ensures IsEarliestMin(records, cid, j)
  {
    var n := |records| - 1;
    var p := records[..n];
    forall i | 0 <= i < n ensures p[i] == records[i] { }
  }

  /** The first row of a product is its earliest minimum so far. */
  lemma MinStepFirst(records: seq<MinRecord>, cid: string)
    requires records != [] && records[|records| - 1].canonicalId == cid
    requires forall i :: 0 <= i < |records| - 1 ==> records[i].canonicalId != cid
    ensures IsEarliestMin(records, cid, |records| - 1)
  {
  }

  /** The entry of a product is that of its cheapest row, the first one read among equal costs. */
  lemma {:induction false} AlltimeOfMin(records: seq<MinRecord>, cid: string)
    requires cid in AlltimeOf(records)
    ensures exists j :: IsEarliestMin(records, cid, j) && AlltimeOf(records)[cid] == EntryOf(records[j])
    decreases |records|
  {
    if records != [] {
      var n := |records| - 1;
      var p := records[..n];
      var r := records[n];
      var m := AlltimeOf(p);
      AlltimeOfKeys(p, cid);
      if cid in m {
        AlltimeOfMin(p, cid);
        var j :| IsEarliestMin(p, cid, j) && m[cid] == EntryOf(p[j]);
        assert p[j] == records[j];
        if r.canonicalId == cid && CostLess(r.minCost, m[cid].cost) {
          MinStepReplace(records, cid, j);
        } else {
          MinStepKeep(records, cid, j);
        }
      } else {
        assert forall i :: 0 <= i < n ==> p[i] == records[i];
        MinStepFirst(records, cid);
      }
    }
  }

  // ---------------------------------------------------------------------
  // upsert_today_min
  // ---------------------------------------------------------------------

  /** Cells A and B of `row` hold `date` and `cid`. */
  predicate RowMatches(row: seq<string>, date: string, cid: string) {
    |row| >= 2 && row[0] == date && row[1] == cid
  }

  /** The first row at or after index `from` matching (date, cid). */
  function FirstMatchFrom(values: seq<seq<string>>, date: string, cid: string, from: nat): (t: Option<nat>)
    ensures t.Some? ==> && from <= t.value < |values| && RowMatches(values[t.value], date, cid)
                        && forall j :: from <= j < t.value ==> !RowMatches(values[j], date, cid)
    ensures t.None? ==> forall j :: from <= j < |values| ==> !RowMatches(values[j], date, cid)
    decreases |values| - from
  {
    if from >= |values| then None
    else if RowMatches(values[from], date, cid) then Some(from)
    else FirstMatchFrom(values, date, cid, from + 1)
  }

  /** The row to update: the first data row (sheet row 2 onward, index 1 onward) matching (date, cid). */
  function TargetRow(values: seq<seq<string>>, date: string, cid: string): Option<nat> {
    FirstMatchFrom(values, date, cid, 1)
  }

  /** The update of range C:F of a row: cells 2 to 5 replaced, the rest kept. */
  function UpdateCells(row: seq<string>, cells: seq<string>): (r: seq<string>)
    requires |row| >= 2 && |cells| == 4
  {
    row[..2] + cells + (if |row| > 6 then row[6..] else [])
  }

  /** Only columns C to F change, and they receive the new values. */
  lemma UpdateCellsColumns(row: seq<string>, cells: seq<string>)
    requires |row| >= 2 && |cells| == 4
    ensures |UpdateCells(row, cells)| == if |row| > 6 then |row| else 6
    ensures UpdateCells(row, cells)[..2] == row[..2]
    ensures UpdateCells(row, cells)[2..6] == cells
    ensures forall i :: 6 <= i < |row| ==> UpdateCells(row, cells)[i] == row[i]
  {
    var r := UpdateCells(row, cells);
    assert r[2..6] == cells;
  }

  /** The sheet after `upsert_today_min`: the target row's C:F updated, or a new row appended. */
  function UpsertRows(values: seq<seq<string>>, date: string, cid: string, cells: seq<string>): seq<seq<string>>
    requires |cells| == 4
  {
    match TargetRow(values, date, cid)
    case Some(t) => values[t := UpdateCells(values[t], cells)]
    case None => values + [[date, cid] + cells]
  }

  /**
   * An upsert either rewrites exactly one existing row, the first data row
   * with that (date, cid), or appends exactly one row; every other row is
   * left as it was.
   */
  lemma UpsertChangesOneRow(values: seq<seq<string>>, date: string, cid: string, cells: seq<string>)
    requires |cells| == 4
    ensures TargetRow(values, date, cid).Some? ==>
      var t := TargetRow(values, date, cid).value;
      && 1 <= t
      && |UpsertRows(values, date, cid, cells)| == |values|
      && UpsertRows(values, date, cid, cells)[t][..2] == values[t][..2]
      && UpsertRows(values, date, cid, cells)[t][2..6] == cells
      && (forall c :: 6 <= c < |values[t]| ==> UpsertRows(values, date, cid, cells)[t][c] == values[t][c])
      && forall i :: 0 <= i < |values| && i != t ==> UpsertRows(values, date, cid, cells)[i] == values[i]
    ensures TargetRow(values, date, cid).None? ==>
      && |UpsertRows(values, date, cid, cells)| == |values| + 1
      && UpsertRows(values, date, cid, cells)[|values|] == [date, cid] + cells
      && forall i :: 0 <= i < |values| ==> UpsertRows(values, date, cid, cells)[i] == values[i]
  {
    if TargetRow(values, date, cid).Some? {
      var t := TargetRow(values, date, cid).value;
      UpdateCellsColumns(values[t], cells);
    }
  }

  /**
   * After an upsert on a sheet with its header row, the lookup finds the key
   * with the new values. The header matters: the scan starts at the second
   * row, and the header is only written when the worksheet is created, so on
   * a sheet without one the first row is never looked at
   * (`HeaderlessSheetAppendsAgain`).
   */
  lemma UpsertThenFind(values: seq<seq<string>>, date: string, cid: string, cells: seq<string>)
    requires |cells| == 4 && |values| >= 1
    ensures var after := UpsertRows(values, date, cid, cells);
      && TargetRow(after, date, cid).Some?
      && |after[TargetRow(after, date, cid).value]| >= 6
      && after[TargetRow(after, date, cid).value][2..6] == cells
  {
    var after := UpsertRows(values, date, cid, cells);
    match TargetRow(values, date, cid)
    case Some(t) =>
      UpdateCellsColumns(values[t], cells);
      assert RowMatches(after[t], date, cid);
      assert forall j :: 1 <= j < t ==> after[j] == values[j];
      assert TargetRow(after, date, cid) == Some(t);
    case None =>
      assert RowMatches(after[|values|], date, cid);
      assert forall j :: 1 <= j < |values| ==> after[j] == values[j];
      assert TargetRow(after, date, cid) == Some(|values|);
  }

  /** On an empty sheet, with no header row, the first upsert's row is not found again and a second one is appended. */
  lemma HeaderlessSheetAppendsAgain(date: string, cid: string, cells: seq<string>)
    requires |cells| == 4
    ensures UpsertRows([], date, cid, cells) == [[date, cid] + cells]
    ensures UpsertRows(UpsertRows([], date, cid, cells), date, cid, cells) == [[date, cid] + cells, [date, cid] + cells]
  {
    var once := UpsertRows([], date, cid, cells);
    assert TargetRow([], date, cid) == None;
    assert TargetRow(once, date, cid) == None;
  }

  /** Upserting the same values twice leaves a sheet with its header row as one upsert does. */
  lemma UpsertIdempotent(values: seq<seq<string>>, date: string, cid: string, cells: seq<string>)
    requires |cells| == 4 && |values| >= 1
    ensures UpsertRows(UpsertRows(values, date, cid, cells), date, cid, cells) == UpsertRows(values, date, cid, cells)
  {
    var after := UpsertRows(values, date, cid, cells);
    UpsertThenFind(values, date, cid, cells);
    var t := TargetRow(after, date, cid).value;
    var row := after[t];
    assert row == row[..2] + row[2..6] + row[6..];
  }

  /** Rows of other (date, cid) keys are found where they were before. */
  lemma UpsertKeepsOtherKeys(values: seq<seq<string>>, date: string, cid: string, cells: seq<string>,
                             date': string, cid': string)
    requires |cells| == 4 && (date', cid') != (date, cid)
    ensures TargetRow(UpsertRows(values, date, cid, cells), date', cid') == TargetRow(values, date', cid')
  {
    var after := UpsertRows(values, date, cid, cells);
    match TargetRow(values, date, cid)
    case Some(t) =>
      UpdateCellsColumns(values[t], cells);
      assert forall j :: 0 <= j < |values| ==> (RowMatches(after[j], date', cid') <==> RowMatches(values[j], date', cid'));
      FirstMatchSame(values, after, date', cid', 1);
    case None =>
      assert !RowMatches(after[|values|], date', cid');
      assert forall j :: 0 <= j < |values| ==> after[j] == values[j];
      FirstMatchSame(values, after, date', cid', 1);
  }

  /** Two sheets whose rows match a key alike, index by index, give the same first match. */
  lemma {:induction false} FirstMatchSame(a: seq<seq<string>>, b: seq<seq<string>>, date: string, cid: string, from: nat)
    requires forall j :: from <= j < |a| && j < |b| ==> (RowMatches(a[j], date, cid) <==> RowMatches(b[j], date, cid))
    requires forall j :: |a| <= j < |b| ==> !RowMatches(b[j], date, cid)
    requires |a| <= |b|
    ensures FirstMatchFrom(a, date, cid, from) == FirstMatchFrom(b, date, cid, from)
    decreases |b| - from
  {
    if from < |b| {
      FirstMatchSame(a, b, date, cid, from + 1);
    }
  }

  /** The Min_Summary worksheet, as the rows of cells `get_all_values` returns. */
  class MinSheet {
    var values: seq<seq<string>>

    constructor (values: seq<seq<string>>)
      ensures this.values == values
    {
      this.values := values;
    }

    /**
     * `upsert_today_min`: scan the data rows for the first one holding
     * (date, cid); update its cells C:F with the cost text, shop, url and
     * timestamp, or else append a full row.
     */
    method UpsertTodayMin(date: string, cid: string, costText: string, shop: string, url: string, updatedAt: string)
      modifies this
      ensures values == UpsertRows(old(values), date, cid, [costText, shop, url, updatedAt])
    {
      var target: Option<nat> := None;
      var rowIdx := 1;
      while rowIdx < |values|
        invariant 1 <= rowIdx
        invariant target.None? ==> FirstMatchFrom(values, date, cid, rowIdx) == TargetRow(values, date, cid)
        invariant target.Some? ==> target == TargetRow(values, date, cid)
        decreases |values| - rowIdx
      {
        if RowMatches(values[rowIdx], date, cid) {
          target := Some(rowIdx);
          break;
        }
        rowIdx := rowIdx + 1;
      }
      var cells := [costText, shop, url, updatedAt];
      match target
      case Some(t) =>
        values := values[t := UpdateCells(values[t], cells)];
      case None =>
        values := values + [[date, cid] + cells];
    }
  }
}
