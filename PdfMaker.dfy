/**
 * The analytics PDF: a table with one column per metric after the month
 * column and one row per month, each cell the metric's value for that month
 * or 0. The drawing and saving of the document are left to jsPDF; the model
 * builds what is handed to it.
 */
module PdfMaker {
  import opened Js

  const Months: seq<string> := ["January", "February", "March", "April", "May", "June", "July",
                                "August", "September", "October", "November", "December"]

  /** One metric's series: `data` is `None` when the object has no `data` array. */
  datatype Series = Series(data: Option<seq<int>>)

  datatype Cell = MonthCell(name: string) | Number(value: int)

  datatype Table = Table(columns: seq<string>, rows: seq<seq<Cell>>)

  datatype Document = Document(title: string, subtitle: string, table: Table, fileName: string)

  /** `analyticsData[j]?.data[i] || 0`: 0 when there is no `j`-th series, when the month is past
      the end of its data, or when the value is 0; `None` when the series has no `data`, where
      reading `data[i]` throws. */
  function CellValue(analytics: seq<Series>, j: nat, i: nat): (r: Option<int>)
    ensures r.None? <==> j < |analytics| && analytics[j].data.None?
    ensures r.Some? && j < |analytics| && i < |analytics[j].data.value| ==> r.value == analytics[j].data.value[i]
    ensures r.Some? && (j >= |analytics| || i >= |analytics[j].data.value|) ==> r.value == 0
  {
    if j >= |analytics| then Some(0)
    else match analytics[j].data
      case None => None
      case Some(data) => if i < |data| then Some(data[i]) else Some(0)
  }

  /** Some metric's series has no `data`: the table cannot be built. */
  predicate Broken(analytics: seq<Series>, metrics: seq<string>)
  {
    exists j :: 0 <= j < |metrics| && j < |analytics| && analytics[j].data.None?
  }

  /** The columns and rows `generatePDF` hands to `autoTable`. */
  method GeneratePdfTable(analytics: seq<Series>, metrics: seq<string>) returns (table: Option<Table>)
    ensures table.None? <==> Broken(analytics, metrics)
    ensures table.Some? ==> table.value.columns == ["Month"] + metrics
    ensures table.Some? ==> |table.value.rows| == 12
    ensures table.Some? ==> forall i :: 0 <= i < 12 ==>
      |table.value.rows[i]| == 1 + |metrics| && table.value.rows[i][0] == MonthCell(Months[i])
    ensures table.Some? ==> forall i, j :: 0 <= i < 12 && 0 <= j < |metrics| ==>
      CellValue(analytics, j, i).Some? && table.value.rows[i][j + 1] == Number(CellValue(analytics, j, i).value)
  {
    var columns := ["Month"] + metrics;
    var rows: seq<seq<Cell>> := [];
    for i := 0 to 12
      invariant |rows| == i
      invariant forall k :: 0 <= k < i ==> |rows[k]| == 1 + |metrics| && rows[k][0] == MonthCell(Months[k])
      invariant forall k, j :: 0 <= k < i && 0 <= j < |metrics| ==>
        CellValue(analytics, j, k).Some? && rows[k][j + 1] == Number(CellValue(analytics, j, k).value)
    {
      var row := [MonthCell(Months[i])];
      for j := 0 to |metrics|
        invariant |row| == 1 + j && row[0] == MonthCell(Months[i])
        invariant forall m :: 0 <= m < j ==>
          CellValue(analytics, m, i).Some? && row[m + 1] == Number(CellValue(analytics, m, i).value)
      {
        var cell := CellValue(analytics, j, i);
        if cell.None? {
          return None;
        }
        row := row + [Number(cell.value)];
      }
      rows := rows + [row];
    }
    if metrics != [] {
      assert !Broken(analytics, metrics) by {
        forall j | 0 <= j < |metrics| && j < |analytics|
          ensures analytics[j].data.Some?
        {
          assert CellValue(analytics, j, 0).Some?;
        }
      }
    }
    table := Some(Table(columns, rows));
  }

  /** `generatePDF`: the title, the year line, the table and the file name. */
  method GeneratePdf(analytics: seq<Series>, metrics: seq<string>, timeRange: string) returns (doc: Option<Document>)
    ensures doc.None? <==> Broken(analytics, metrics)
    ensures doc.Some? ==> doc.value.title == "Website Analytics" && doc.value.subtitle == "Year: " + timeRange
    ensures doc.Some? ==> doc.value.fileName == "website-analytics.pdf"
    ensures doc.Some? ==> doc.value.table.columns == ["Month"] + metrics && |doc.value.table.rows| == 12
  {
    var table := GeneratePdfTable(analytics, metrics);
    if table.None? {
      return None;
    }
    doc := Some(Document("Website Analytics", "Year: " + timeRange, table.value, "website-analytics.pdf"));
  }
}
