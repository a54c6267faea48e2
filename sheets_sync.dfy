/**
 * The spreadsheet sync route: POST exports the dashboard as rows of five
 * cells (a header, then priorities, habits and tasks), GET reads the sheet
 * back.
 *
 * The session, the request body and the spreadsheet service are inputs:
 * `hasSession` is whether a session exists, the body is a `PostBody` that
 * says how much of the expected object could be read, and the service's
 * answers are given as outcomes. `dateText` stands for `toLocaleDateString`, which depends on the
 * server's locale.
 */
module SheetsSync {
  import opened Types
  import Strings
  import opened Collections

  type Row = seq<string>

  const Header: Row := ["Type", "Name", "Status", "Day/Date", "Created"]

  function StatusText(completed: bool): string
  {
    if completed then "Completed" else "Pending"
  }

  function PriorityRow(p: Priority, dateText: int -> string): Row
  {
    ["Priority", p.text, StatusText(p.completed), dateText(p.createdAt), dateText(p.createdAt)]
  }

  /** A habit's status cell: its checked days out of seven. */
  function HabitStatus(w: Week): string
  {
    Strings.NatToString(CountTrue(w)) + "/7"
  }

  function HabitRow(h: Habit): Row
  {
    ["Habit", h.name, HabitStatus(h.completedDays), "Weekly", "N/A"]
  }

  function TaskRow(t: DailyTask, dateText: int -> string): Row
  {
    ["Daily Task", t.text, StatusText(t.completed), t.day, dateText(t.createdAt)]
  }

  /** The `values` the POST handler writes. */
  function SheetValues(ps: seq<Priority>, hs: seq<Habit>, ts: seq<DailyTask>, dateText: int -> string): (rows: seq<Row>)
    ensures |rows| == 1 + |ps| + |hs| + |ts|
    ensures forall i :: 0 <= i < |rows| ==> |rows[i]| == 5
  {
    [Header]
    + seq(|ps|, i requires 0 <= i < |ps| => PriorityRow(ps[i], dateText))
    + seq(|hs|, i requires 0 <= i < |hs| => HabitRow(hs[i]))
    + seq(|ts|, i requires 0 <= i < |ts| => TaskRow(ts[i], dateText))
  }

  /**
   * The layout of the export: the header first, then one row per priority,
   * habit and task in that order, each tagged with its type in the first
   * cell and its name in the second; a priority's or task's status reads
   * "Completed" exactly when it is completed; a priority's date and created
   * cells are both its creation date; a habit's day cell is "Weekly" and its
   * created cell "N/A"; a task's day cell is its day as stored.
   */
  lemma ExportLayout(ps: seq<Priority>, hs: seq<Habit>, ts: seq<DailyTask>, dateText: int -> string)
    ensures var rows := SheetValues(ps, hs, ts, dateText);
            rows[0] == Header
            && (forall i :: 0 <= i < |ps| ==>
                  var r := rows[1 + i];
                  r[0] == "Priority" && r[1] == ps[i].text && (r[2] == "Completed" <==> ps[i].completed)
                  && r[3] == r[4] == dateText(ps[i].createdAt))
            && (forall i :: 0 <= i < |hs| ==>
                  var r := rows[1 + |ps| + i];
                  r[0] == "Habit" && r[1] == hs[i].name && r[3] == "Weekly" && r[4] == "N/A")
            && (forall i :: 0 <= i < |ts| ==>
                  var r := rows[1 + |ps| + |hs| + i];
                  r[0] == "Daily Task" && r[1] == ts[i].text && (r[2] == "Completed" <==> ts[i].completed)
                  && r[3] == ts[i].day && r[4] == dateText(ts[i].createdAt))
  {
  }

  /**
   * A habit's status cell is one digit, a slash and 7, and the digit gives
   * back the number of checked days.
   */
  lemma HabitStatusDecodes(w: Week)
    ensures var s := HabitStatus(w);
            |s| == 3 && s[1..] == "/7" && '0' <= s[0] <= '7' && (s[0] as int - '0' as int) == CountTrue(w)
  {
  }

  // ---------------------------------------------------------------------
  // The handlers
  // ---------------------------------------------------------------------

  datatype Body = ErrorBody(error: string) | SuccessBody | ValuesBody(data: seq<Row>)

  datatype Response = Response(status: int, body: Body)

  /** What the POST handler leaves in the sheet. */
  datatype SheetEffect = Untouched | Cleared | Written(values: seq<Row>)

  /** The exported lists of a POST body. */
  datatype SyncData = SyncData(sheetId: string, priorities: seq<Priority>, habits: seq<Habit>, tasks: seq<DailyTask>)

  /**
   * The POST body as the handler gets it: not JSON at all, JSON whose `data`
   * lacks one of the three lists, or the full export.
   */
  datatype PostBody = Unparsable | MissingLists | Parsed(data: SyncData)

  /**
   * POST: without a session, 401 and the sheet untouched. A body that is not
   * JSON, or a failed clear, gives 500 and leaves the sheet as it was. The
   * clear comes before the lists are read, so a body without the lists gives
   * 500 with the sheet already cleared, and so does a failed write. Otherwise
   * the export is written and the answer is a success.
   */
  function SyncPost(hasSession: bool, body: PostBody, clearOk: bool, updateOk: bool,
                    dateText: int -> string): (r: (Response, SheetEffect))
    ensures r.0.status == 401 <==> !hasSession
    ensures r.0.status == 200 <==> hasSession && body.Parsed? && clearOk && updateOk
    ensures r.0.status in {200, 401, 500}
    ensures r.1.Written? <==> r.0.status == 200
    ensures r.1.Written? ==>
              r.1.values == SheetValues(body.data.priorities, body.data.habits, body.data.tasks, dateText)
    ensures r.1.Cleared? <==> hasSession && clearOk && (body.MissingLists? || (body.Parsed? && !updateOk))
    ensures r.1.Untouched? <==> !hasSession || body.Unparsable? || !clearOk
  {
    if !hasSession then (Response(401, ErrorBody("Unauthorized")), Untouched)
    else if body.Unparsable? || !clearOk then (Response(500, ErrorBody("Failed to sync")), Untouched)
    else if body.MissingLists? then (Response(500, ErrorBody("Failed to sync")), Cleared)
    else
      var d := body.data;
      var values := SheetValues(d.priorities, d.habits, d.tasks, dateText);
      if !updateOk then (Response(500, ErrorBody("Failed to sync")), Cleared)
      else (Response(200, SuccessBody), Written(values))
  }

  /** The spreadsheet service's answer to a read: a failure, or the values, absent when the range is empty. */
  datatype SheetRead = ReadFailed | ReadValues(values: Option<seq<Row>>)

  /**
   * GET: 401 without a session, 400 when the sheetId parameter is missing or
   * empty, 500 when the read fails, and otherwise the values read, an empty
   * list when there are none.
   */
  function SyncGet(hasSession: bool, sheetId: Option<string>, read: SheetRead): (r: Response)
    ensures r.status == 401 <==> !hasSession
    ensures r.status == 400 <==> hasSession && (sheetId.None? || sheetId.value == [])
    ensures r.status == 500 <==> hasSession && sheetId.Some? && sheetId.value != [] && read.ReadFailed?
    ensures r.status == 200 ==> r.body.ValuesBody?
                                && r.body.data == (if read.values.Some? then read.values.value else [])
  {
    if !hasSession then Response(401, ErrorBody("Unauthorized"))
    else if sheetId.None? || sheetId.value == [] then Response(400, ErrorBody("Sheet ID required"))
    else if read.ReadFailed? then Response(500, ErrorBody("Failed to fetch"))
    else Response(200, ValuesBody(if read.values.Some? then read.values.value else []))
  }

  // ---------------------------------------------------------------------
  // The Dashboard tab as the routes see it
  // ---------------------------------------------------------------------

  /** The cells of the Dashboard tab, row by row from row 1 and column A; "" is an empty cell. */
  type Grid = seq<Row>

  /** The rows and columns POST clears (A1:Z1000) and the rows and columns GET reads (A1:E1000). */
  const ClearRows: nat := 1000
  const ClearColumns: nat := 26
  const ReadRows: nat := 1000
  const ReadColumns: nat := 5

  function ClearRow(r: Row): (c: Row)
    ensures |c| == |r|
    ensures forall j :: 0 <= j < |r| ==> c[j] == if j < ClearColumns then "" else r[j]
  {
    seq(|r|, j requires 0 <= j < |r| => if j < ClearColumns then "" else r[j])
  }

  /** `values.clear` over A1:Z1000: those cells become empty, every other cell is kept. */
  function Clear(g: Grid): (c: Grid)
    ensures |c| == |g|
    ensures forall i :: 0 <= i < |g| ==> c[i] == if i < ClearRows then ClearRow(g[i]) else g[i]
  {
    seq(|g|, i requires 0 <= i < |g| => if i < ClearRows then ClearRow(g[i]) else g[i])
  }

  /** Writing `v` from column A over a row: the first |v| cells are replaced, the rest kept. */
  function WriteRow(prev: Row, v: Row): (r: Row)
    ensures |r| == if |v| >= |prev| then |v| else |prev|
    ensures r[..|v|] == v
    ensures forall j :: |v| <= j < |prev| ==> r[j] == prev[j]
  {
    if |v| >= |prev| then v else v + prev[|v|..]
  }

  /** `values.update` from A1 with RAW input: row i of the values is written over row i of the tab. */
  function Update(g: Grid, vs: seq<Row>): (u: Grid)
    ensures |u| == if |vs| >= |g| then |vs| else |g|
    ensures forall i :: 0 <= i < |u| ==>
              u[i] == if i < |vs| then (if i < |g| then WriteRow(g[i], vs[i]) else vs[i]) else g[i]
  {
    var n := if |vs| >= |g| then |vs| else |g|;
    seq(n, i requires 0 <= i < n =>
      if i < |vs| then (if i < |g| then WriteRow(g[i], vs[i]) else vs[i]) else g[i])
  }

  /** A row without its trailing empty cells, which the service leaves out of a read. */
  function TrimRow(r: Row): (t: Row)
    ensures |t| <= |r| && t == r[..|t|]
    ensures t == [] || t[|t| - 1] != ""
    ensures forall j :: |t| <= j < |r| ==> r[j] == ""
    decreases |r|
  {
    if r != [] && r[|r| - 1] == "" then TrimRow(r[..|r| - 1]) else r
  }

  /** Trailing empty rows, likewise left out of a read. */
  function TrimRows(rs: seq<Row>): (t: seq<Row>)
    ensures |t| <= |rs| && t == rs[..|t|]
    ensures t == [] || t[|t| - 1] != []
    decreases |rs|
  {
    if rs != [] && rs[|rs| - 1] == [] then TrimRows(rs[..|rs| - 1]) else rs
  }

  function CellOf(r: Row, j: nat): string
  {
    if j < |r| then r[j] else ""
  }

  /** Columns A to E of a row, without trailing empty cells. */
  function WindowRow(r: Row): Row
  {
    TrimRow(seq(ReadColumns, j requires 0 <= j < ReadColumns => CellOf(r, j)))
  }

  /** Columns A to E of the first thousand rows. */
  function Window(g: Grid): (w: seq<Row>)
    ensures |w| == if |g| <= ReadRows then |g| else ReadRows
    ensures forall i :: 0 <= i < |w| ==> w[i] == WindowRow(g[i])
  {
    var n := if |g| <= ReadRows then |g| else ReadRows;
    seq(n, i requires 0 <= i < n => WindowRow(g[i]))
  }

  /**
   * `values.get` over A1:E1000: the first thousand rows, columns A to E,
   * without trailing empty cells and rows; no values at all when that range
   * is empty.
   */
  function ReadWindow(g: Grid): (r: Option<seq<Row>>)
    ensures r.Some? ==> 0 < |r.value| <= ReadRows
  {
    var rows := TrimRows(Window(g));
    if rows == [] then None else Some(rows)
  }

  /** The tab after POST. */
  function Apply(g: Grid, effect: SheetEffect): Grid
  {
    match effect
    case Untouched => g
    case Cleared => Clear(g)
    case Written(vs) => Update(Clear(g), vs)
  }

  /** Dropping trailing empty rows from rows that end in a non-empty block. */
  lemma {:induction false} TrimRowsBlankTail(rs: seq<Row>, n: nat)
    requires n <= |rs|
    requires forall i :: n <= i < |rs| ==> rs[i] == []
    requires n == 0 || rs[n - 1] != []
    ensures TrimRows(rs) == rs[..n]
    decreases |rs|
  {
    if |rs| > n {
      assert rs[|rs| - 1] == [];
      var init := rs[..|rs| - 1];
      assert forall i :: n <= i < |init| ==> init[i] == [];
      TrimRowsBlankTail(init, n);
      assert init[..n] == rs[..n];
    } else {
      assert rs[..n] == rs;
    }
  }

  lemma TrimRowNonEmpty(r: Row)
    requires r != [] && r[0] != ""
    ensures TrimRow(r) != []
  {
  }

  /** Row i of the window after writing `vs` over a cleared tab. */
  lemma WrittenWindowRow(g: Grid, vs: seq<Row>, i: nat)
    requires i < |vs| && |vs[i]| == ReadColumns
    ensures i < |Update(Clear(g), vs)|
    ensures WindowRow(Update(Clear(g), vs)[i]) == TrimRow(vs[i])
  {
    var c := Clear(g);
    var r := Update(c, vs)[i];
    assert r[..ReadColumns] == vs[i];
    var w := seq(ReadColumns, j requires 0 <= j < ReadColumns => CellOf(r, j));
    assert w == vs[i];
  }

  /** A row of the cleared tab below the written values shows nothing in columns A to E. */
  lemma ClearedWindowRow(g: Grid, vs: seq<Row>, i: nat)
    requires |vs| <= i < |Update(Clear(g), vs)| && i < ClearRows
    ensures WindowRow(Update(Clear(g), vs)[i]) == []
  {
    var r := Update(Clear(g), vs)[i];
    assert r == ClearRow(g[i]);
    var w := seq(ReadColumns, j requires 0 <= j < ReadColumns => CellOf(r, j));
    assert forall j :: 0 <= j < ReadColumns ==> w[j] == "";
    assert TrimRow(w[..4]) == [] by {
      assert TrimRow(w[..4][..3]) == [] by {
        assert w[..4][..3][..2][..1][..0] == [];
      }
    }
  }

  /** The window after the write: the written rows, less trailing empty cells, then empty rows. */
  lemma WindowOfWrite(g: Grid, vs: seq<Row>)
    requires |vs| <= ReadRows
    requires forall i :: 0 <= i < |vs| ==> |vs[i]| == ReadColumns && vs[i][0] != ""
    ensures var w := Window(Update(Clear(g), vs));
            |vs| <= |w|
            && (forall i :: 0 <= i < |vs| ==> w[i] == TrimRow(vs[i]) && w[i] != [])
            && forall i :: |vs| <= i < |w| ==> w[i] == []
  {
    var w := Window(Update(Clear(g), vs));
    forall i | 0 <= i < |vs|
      ensures w[i] == TrimRow(vs[i]) && w[i] != []
    {
      WrittenWindowRow(g, vs, i);
      TrimRowNonEmpty(vs[i]);
    }
    forall i | |vs| <= i < |w|
      ensures w[i] == []
    {
      ClearedWindowRow(g, vs, i);
    }
  }

  /**
   * Whatever the tab held before, clearing it and writing at most a thousand
   * rows of five cells, each with a non-empty first cell, reads back as those
   * rows, less only their trailing empty cells.
   */
  lemma ReadBackOfWrite(g: Grid, vs: seq<Row>)
    requires |vs| <= ReadRows
    requires forall i :: 0 <= i < |vs| ==> |vs[i]| == ReadColumns && vs[i][0] != ""
    ensures ReadWindow(Update(Clear(g), vs))
            == if vs == [] then None else Some(Map(vs, TrimRow))
  {
    var w := Window(Update(Clear(g), vs));
    WindowOfWrite(g, vs);
    TrimRowsBlankTail(w, |vs|);
    assert w[..|vs|] == Map(vs, TrimRow);
  }

  /** Every exported row starts with a non-empty type cell. */
  lemma ExportFirstCells(ps: seq<Priority>, hs: seq<Habit>, ts: seq<DailyTask>, dateText: int -> string)
    ensures var rows := SheetValues(ps, hs, ts, dateText);
            forall i :: 0 <= i < |rows| ==> rows[i][0] != ""
  {
    var rows := SheetValues(ps, hs, ts, dateText);
    ExportLayout(ps, hs, ts, dateText);
    forall i | 0 <= i < |rows|
      ensures rows[i][0] != ""
    {
      if i == 0 {
      } else if i < 1 + |ps| {
        assert rows[1 + (i - 1)][0] == "Priority";
      } else if i < 1 + |ps| + |hs| {
        assert rows[1 + |ps| + (i - 1 - |ps|)][0] == "Habit";
      } else {
        assert rows[1 + |ps| + |hs| + (i - 1 - |ps| - |hs|)][0] == "Daily Task";
      }
    }
  }

  /** With dates that are never empty, every exported row ends in a non-empty cell. */
  lemma ExportLastCells(ps: seq<Priority>, hs: seq<Habit>, ts: seq<DailyTask>, dateText: int -> string)
    requires forall t :: dateText(t) != ""
    ensures var rows := SheetValues(ps, hs, ts, dateText);
            forall i :: 0 <= i < |rows| ==> rows[i][4] != ""
  {
    var rows := SheetValues(ps, hs, ts, dateText);
    ExportLayout(ps, hs, ts, dateText);
    forall i | 0 <= i < |rows|
      ensures rows[i][4] != ""
    {
      if i == 0 {
      } else if i < 1 + |ps| {
        assert rows[1 + (i - 1)][4] == dateText(ps[i - 1].createdAt);
      } else if i < 1 + |ps| + |hs| {
        assert rows[1 + |ps| + (i - 1 - |ps|)][4] == "N/A";
      } else {
        assert rows[1 + |ps| + |hs| + (i - 1 - |ps| - |hs|)][4] == dateText(ts[i - 1 - |ps| - |hs|].createdAt);
      }
    }
  }

  /** Rows of five cells whose last cell is filled lose nothing to trimming. */
  lemma FullRowsKept(rows: seq<Row>)
    requires forall i :: 0 <= i < |rows| ==> |rows[i]| == ReadColumns && rows[i][4] != ""
    ensures Map(rows, TrimRow) == rows
  {
    MapFixed(rows, TrimRow);
  }

  /**
   * A sheet written by POST reads back through GET as the same rows, whatever
   * the tab held before, as long as the export fits the thousand rows GET
   * reads; rows ending in an empty cell come back without it.
   */
  lemma WriteThenRead(data: SyncData, dateText: int -> string, before: Grid)
    requires data.sheetId != []
    requires 1 + |data.priorities| + |data.habits| + |data.tasks| <= ReadRows
    ensures var (_, effect) := SyncPost(true, Parsed(data), true, true, dateText);
            var values := SheetValues(data.priorities, data.habits, data.tasks, dateText);
            var read := SyncGet(true, Some(data.sheetId), ReadValues(ReadWindow(Apply(before, effect))));
            read.status == 200
            && read.body.data == Map(values, TrimRow)
            && ((forall t :: dateText(t) != "") ==> read.body.data == values)
  {
    var values := SheetValues(data.priorities, data.habits, data.tasks, dateText);
    var post := SyncPost(true, Parsed(data), true, true, dateText);
    assert post.1 == Written(values);
    ExportFirstCells(data.priorities, data.habits, data.tasks, dateText);
    GetAfterWrite(before, values, data.sheetId);
    if forall t :: dateText(t) != "" {
      ExportLastCells(data.priorities, data.habits, data.tasks, dateText);
      FullRowsKept(values);
    }
  }

  /** GET after a successful write answers with the written rows, less their trailing empty cells. */
  lemma GetAfterWrite(before: Grid, values: seq<Row>, sheetId: string)
    requires sheetId != [] && values != []
    requires |values| <= ReadRows
    requires forall i :: 0 <= i < |values| ==> |values[i]| == ReadColumns && values[i][0] != ""
    ensures SyncGet(true, Some(sheetId), ReadValues(ReadWindow(Apply(before, Written(values)))))
            == Response(200, ValuesBody(Map(values, TrimRow)))
  {
    assert Apply(before, Written(values)) == Update(Clear(before), values);
    ReadBackOfWrite(before, values);
  }

  /** An export of more than a thousand rows cannot come back whole: GET reads at most a thousand. */
  lemma LongExportTruncated(data: SyncData, dateText: int -> string, before: Grid)
    requires data.sheetId != []
    requires 1 + |data.priorities| + |data.habits| + |data.tasks| > ReadRows
    ensures var (_, effect) := SyncPost(true, Parsed(data), true, true, dateText);
            var read := SyncGet(true, Some(data.sheetId), ReadValues(ReadWindow(Apply(before, effect))));
            |read.body.data| <= ReadRows < |SheetValues(data.priorities, data.habits, data.tasks, dateText)|
  {
  }
}
