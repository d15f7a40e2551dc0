/**
 * Where the export puts the last report on the worksheet: the header in row 1,
 * result i (counting from 0) in row i + 2, an empty row after the results, and
 * the total label and total area in the row after that. A worksheet is a map
 * from (row, column), both counted from 1, to the value written there.
 */
module Export {
  import opened Wrappers
  import opened Calculation

  datatype CellValue = Text(text: string) | Number(number: real)

  type Sheet = map<(int, int), CellValue>

  const Headers: seq<string> := ["Материал", "Объем склада (м³)", "q (м³/м²)", "Кис", "Площадь (м²)"]

  const TotalLabel: string := "ИТОГО:"

  /** The cells that receive a value when n results are exported. */
  predicate Occupied(n: nat, cell: (int, int))
  {
    (1 <= cell.0 <= n + 1 && 1 <= cell.1 <= 5) || (cell.0 == n + 3 && (cell.1 == 1 || cell.1 == 5))
  }

  /** Row `row` holds material, volume, q, Kис and area of `r` in columns 1 to 5. */
  predicate RowHolds(ws: Sheet, row: int, r: MaterialResult)
  {
    (row, 1) in ws && ws[(row, 1)] == Text(r.material) &&
    (row, 2) in ws && ws[(row, 2)] == Number(r.volume) &&
    (row, 3) in ws && ws[(row, 3)] == Number(r.q) &&
    (row, 4) in ws && ws[(row, 4)] == Number(r.kis) &&
    (row, 5) in ws && ws[(row, 5)] == Number(r.area)
  }

  /** Row 1 holds the five column headers. */
  predicate HeaderHolds(ws: Sheet)
  {
    forall col :: 1 <= col <= 5 ==> (1, col) in ws && ws[(1, col)] == Text(Headers[col - 1])
  }

  /** The complete layout of an exported report. */
  ghost predicate LaysOut(ws: Sheet, report: Report)
  {
    var n := |report.results|;
    (forall cell :: cell in ws <==> Occupied(n, cell)) &&
    HeaderHolds(ws) &&
    (forall i :: 0 <= i < n ==> RowHolds(ws, i + 2, report.results[i])) &&
    (n + 3, 1) in ws && ws[(n + 3, 1)] == Text(TotalLabel) &&
    (n + 3, 5) in ws && ws[(n + 3, 5)] == Number(report.totalArea)
  }

  /**
   * Writes material, volume, q, Kис and area of `res` into columns 1 to 5 of
   * row `row`; every other cell keeps its value.
   */
  method WriteRow(ws: Sheet, row: int, res: MaterialResult) returns (ws': Sheet)
    ensures RowHolds(ws', row, res)
    ensures forall cell :: cell in ws' <==> cell in ws || (cell.0 == row && 1 <= cell.1 <= 5)
    ensures forall cell :: cell in ws && !(cell.0 == row && 1 <= cell.1 <= 5) ==> ws'[cell] == ws[cell]
  {
    ws' := ws[(row, 1) := Text(res.material)];
    ws' := ws'[(row, 2) := Number(res.volume)];
    ws' := ws'[(row, 3) := Number(res.q)];
    ws' := ws'[(row, 4) := Number(res.kis)];
    ws' := ws'[(row, 5) := Number(res.area)];
  }

  /**
   * Fills a fresh worksheet: the header cells left to right, then one row per
   * result starting at row 2, then the total row, leaving one row empty.
   */
  method FillSheet(report: Report) returns (ws: Sheet)
    ensures LaysOut(ws, report)
  {
    var n := |report.results|;
    ws := map[];
    var col := 1;
    while col <= 5
      invariant 1 <= col <= 6
      invariant forall cell :: cell in ws <==> cell.0 == 1 && 1 <= cell.1 < col
      invariant forall c :: 1 <= c < col ==> ws[(1, c)] == Text(Headers[c - 1])
    {
      ws := ws[(1, col) := Text(Headers[col - 1])];
      col := col + 1;
    }
    var i := 0;
    while i < n
      invariant 0 <= i <= n
      invariant forall cell :: cell in ws <==> 1 <= cell.0 <= i + 1 && 1 <= cell.1 <= 5
      invariant HeaderHolds(ws)
      invariant forall j :: 0 <= j < i ==> RowHolds(ws, j + 2, report.results[j])
    {
      var prev := ws;
      ws := WriteRow(ws, i + 2, report.results[i]);
      forall j | 0 <= j < i
        ensures RowHolds(ws, j + 2, report.results[j])
      {
        assert RowHolds(prev, j + 2, report.results[j]);
      }
      i := i + 1;
    }
    var lastRow := n + 3;
    var body := ws;
    ws := ws[(lastRow, 1) := Text(TotalLabel)];
    ws := ws[(lastRow, 5) := Number(report.totalArea)];
    forall j | 0 <= j < n
      ensures RowHolds(ws, j + 2, report.results[j])
    {
      assert RowHolds(body, j + 2, report.results[j]);
    }
  }

  /** Nothing is written in the row between the last result and the total. */
  lemma GapRowEmpty(ws: Sheet, report: Report, col: int)
    requires LaysOut(ws, report)
    ensures (|report.results| + 2, col) !in ws
  {
  }

  /** The layout fixes every cell: two worksheets laid out for the same report are equal. */
  lemma LayoutDeterminesSheet(ws1: Sheet, ws2: Sheet, report: Report)
    requires LaysOut(ws1, report) && LaysOut(ws2, report)
    ensures ws1 == ws2
  {
    var n := |report.results|;
    assert ws1.Keys == ws2.Keys;
    forall cell | cell in ws1
      ensures ws1[cell] == ws2[cell]
    {
      if cell.0 == 1 {
        assert ws1[(1, cell.1)] == Text(Headers[cell.1 - 1]);
      } else if cell.0 <= n + 1 {
        assert RowHolds(ws1, cell.0 - 2 + 2, report.results[cell.0 - 2]);
        assert RowHolds(ws2, cell.0 - 2 + 2, report.results[cell.0 - 2]);
      }
    }
  }

  /** Reads one result row back, if its five cells hold a text and four numbers. */
  function ReadRow(ws: Sheet, row: int): Option<MaterialResult>
  {
    if (row, 1) in ws && ws[(row, 1)].Text? &&
       (row, 2) in ws && ws[(row, 2)].Number? &&
       (row, 3) in ws && ws[(row, 3)].Number? &&
       (row, 4) in ws && ws[(row, 4)].Number? &&
       (row, 5) in ws && ws[(row, 5)].Number?
    then Some(MaterialResult(ws[(row, 1)].text, ws[(row, 2)].number, ws[(row, 3)].number,
                             ws[(row, 4)].number, ws[(row, 5)].number))
    else None
  }

  /** Reads the first n result rows back, rows 2 to n + 1. */
  function ReadRows(ws: Sheet, n: nat): Option<seq<MaterialResult>>
  {
    if n == 0 then Some([])
    else match ReadRows(ws, n - 1)
      case None => None
      case Some(rs) =>
        match ReadRow(ws, n + 1)
        case None => None
        case Some(r) => Some(rs + [r])
  }

  /** Reads a report of n results back from a worksheet: the rows and the labelled total. */
  function ReadReport(ws: Sheet, n: nat): Option<Report>
  {
    match ReadRows(ws, n)
    case None => None
    case Some(rs) =>
      if (n + 3, 1) in ws && ws[(n + 3, 1)] == Text(TotalLabel) &&
         (n + 3, 5) in ws && ws[(n + 3, 5)].Number?
      then Some(Report(rs, ws[(n + 3, 5)].number))
      else None
  }

  /** Reading rows 2..k+1 of a laid-out sheet back gives the first k records. */
  lemma {:induction false} ReadRowsOfLayout(ws: Sheet, report: Report, k: nat)
    requires LaysOut(ws, report)
    requires k <= |report.results|
    ensures ReadRows(ws, k) == Some(report.results[..k])
  {
    if k > 0 {
      ReadRowsOfLayout(ws, report, k - 1);
      assert RowHolds(ws, (k - 1) + 2, report.results[k - 1]);
      assert report.results[..k] == report.results[..k - 1] + [report.results[k - 1]];
    }
  }

  /** Reading an exported report back gives the report: every record and the total. */
  lemma ExportRoundTrip(ws: Sheet, report: Report)
    requires LaysOut(ws, report)
    ensures ReadReport(ws, |report.results|) == Some(report)
  {
    ReadRowsOfLayout(ws, report, |report.results|);
    assert report.results[..|report.results|] == report.results;
  }
}
