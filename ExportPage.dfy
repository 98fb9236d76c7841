/**
 * The export page: the mock data fetch, the choice between an Excel workbook
 * and a CSV file, and the CSV text itself. The records are rows of
 * `Property` pairs whose values are already rendered as text (`String(100)`
 * is "100"), which is what `join` does with the numbers of the mock data.
 */
module ExportPage {
  import opened Js
  import opened Seqs
  import opened Records

  /** The three records `fetchData` returns. */
  const MockData: seq<Record> := [
    [Property("id", "1"), Property("name", "Item 1"), Property("value", "100")],
    [Property("id", "2"), Property("name", "Item 2"), Property("value", "200")],
    [Property("id", "3"), Property("name", "Item 3"), Property("value", "300")]
  ]

  const FetchError: string := "Failed to fetch data. Please try again."

  /** One line of comma-separated fields, unquoted. */
  function CsvLine(fields: seq<string>): string
  {
    Join(fields, ",")
  }

  /** The header line from the keys of the first record, then one line of values per record. */
  function CsvLines(data: seq<Record>): seq<string>
    requires |data| > 0
  {
    [CsvLine(Keys(data[0]))] + Map(data, (r: Record) => CsvLine(Values(r)))
  }

  /** The CSV text; `None` for an empty dataset, where reading `data[0]` throws. */
  function CsvContent(data: seq<Record>): (r: Option<string>)
    ensures r.Some? <==> |data| > 0
  {
    if |data| == 0 then None else Some(Join(CsvLines(data), "\n"))
  }

  /** No key and no value of the record holds a line break. */
  predicate SingleLine(r: Record)
  {
    forall i :: 0 <= i < |r| ==> Count(r[i].key, '\n') == 0 && Count(r[i].value, '\n') == 0
  }

  lemma CsvLineHasNoLineBreak(fields: seq<string>)
    requires forall i :: 0 <= i < |fields| ==> Count(fields[i], '\n') == 0
    ensures Count(CsvLine(fields), '\n') == 0
  {
    if |fields| > 0 {
      assert Count(",", '\n') == 0;
      JoinCount(fields, ",", '\n');
      CountAllZero(fields, '\n');
    }
  }

  /** With no line break inside a key or value, the text has exactly one line per record plus
      the header line, with no trailing newline. */
  lemma CsvLineCount(data: seq<Record>)
    requires |data| > 0
    requires forall k :: 0 <= k < |data| ==> SingleLine(data[k])
    ensures Count(CsvContent(data).value, '\n') == |data|
  {
    var lines := CsvLines(data);
    CsvLineHasNoLineBreak(Keys(data[0]));
    forall k | 0 <= k < |lines|
      ensures Count(lines[k], '\n') == 0
    {
      if k > 0 {
        CsvLineHasNoLineBreak(Values(data[k - 1]));
      }
    }
    JoinCountSeparator(lines, '\n');
    CountAllZero(lines, '\n');
  }

  /** The text starts with the keys of the first record joined by commas. */
  lemma CsvStartsWithHeader(data: seq<Record>)
    requires |data| > 0
    ensures IsPrefix(CsvLine(Keys(data[0])), CsvContent(data).value)
  {
    JoinStartsWith(CsvLines(data), "\n");
  }

  /** A value holding a comma is not quoted: its line has more separators than the record has
      fields. */
  lemma UnquotedCommaSplitsField(fields: seq<string>, i: nat)
    requires i < |fields| && Count(fields[i], ',') > 0
    ensures Count(CsvLine(fields), ',') > |fields| - 1
  {
    JoinCountSeparator(fields, ',');
    CountAllAtLeast(fields, i, ',');
  }

  lemma {:induction false} CountAllAtLeast(parts: seq<string>, i: nat, c: char)
    requires i < |parts|
    ensures CountAll(parts, c) >= Count(parts[i], c)
  {
    if i > 0 {
      CountAllAtLeast(parts[1..], i - 1, c);
    }
  }

  /** Only the first record's keys reach the header: datasets that agree on those keys and on
      every record's values give the same text, whatever keys the later records have. */
  lemma HeaderFromFirstRecordOnly(a: seq<Record>, b: seq<Record>)
    requires |a| == |b| > 0 && Keys(a[0]) == Keys(b[0])
    requires forall k :: 0 <= k < |a| ==> Values(a[k]) == Values(b[k])
    ensures CsvContent(a) == CsvContent(b)
  {
    assert CsvLines(a) == CsvLines(b);
  }

  /** The line of a three-field record, and its header line. */
  lemma ThreeFieldLines(k1: string, v1: string, k2: string, v2: string, k3: string, v3: string)
    ensures CsvLine(Values([Property(k1, v1), Property(k2, v2), Property(k3, v3)])) == v1 + "," + v2 + "," + v3
    ensures CsvLine(Keys([Property(k1, v1), Property(k2, v2), Property(k3, v3)])) == k1 + "," + k2 + "," + k3
  {
    var r := [Property(k1, v1), Property(k2, v2), Property(k3, v3)];
    assert Values(r) == [v1, v2, v3];
    assert Keys(r) == [k1, k2, k3];
    Join3(v1, v2, v3, ",");
    Join3(k1, k2, k3, ",");
  }

  /** The mock data's lines: the header and one line per record, in order. */
  lemma MockCsvLines()
    ensures CsvLines(MockData) == ["id,name,value", "1,Item 1,100", "2,Item 2,200", "3,Item 3,300"]
  {
    var lines := CsvLines(MockData);
    ThreeFieldLines("id", "1", "name", "Item 1", "value", "100");
    ThreeFieldLines("id", "2", "name", "Item 2", "value", "200");
    ThreeFieldLines("id", "3", "name", "Item 3", "value", "300");
    assert lines[0] == "id" + "," + "name" + "," + "value" == "id,name,value";
    assert lines[1] == CsvLine(Values(MockData[0])) == "1" + "," + "Item 1" + "," + "100" == "1,Item 1,100";
    assert lines[2] == CsvLine(Values(MockData[1])) == "2" + "," + "Item 2" + "," + "200" == "2,Item 2,200";
    assert lines[3] == CsvLine(Values(MockData[2])) == "3" + "," + "Item 3" + "," + "300" == "3,Item 3,300";
  }

  /** The mock data's text: the four lines joined by line breaks. */
  lemma MockCsv()
    ensures CsvContent(MockData) == Some("id,name,value" + "\n" + "1,Item 1,100" + "\n" + "2,Item 2,200" + "\n" + "3,Item 3,300")
  {
    MockCsvLines();
    Join4("id,name,value", "1,Item 1,100", "2,Item 2,200", "3,Item 3,300", "\n");
  }

  /** What `saveAs` receives: a workbook built from the records or the CSV text. */
  datatype Content = Workbook(sheetName: string, rows: seq<Record>) | CsvText(text: string)

  datatype SavedFile = SavedFile(name: string, mimeType: string, content: Content)

  const ExcelMime: string := "application/vnd.openxmlformats-officedocument.spreadsheetml.sheet"
  const CsvMime: string := "text/csv;charset=utf-8;"

  /** The file `handleExport(format)` saves for the fetched data, if any. */
  function ExportFile(format: string, data: seq<Record>): (r: Option<SavedFile>)
    ensures r.Some? <==> format == "excel" || (format == "csv" && |data| > 0)
    ensures format == "excel" ==> r == Some(SavedFile("exported-data.xlsx", ExcelMime, Workbook("Data", data)))
    ensures format == "csv" && |data| > 0 ==>
      r == Some(SavedFile("exported-data.csv", CsvMime, CsvText(CsvContent(data).value)))
  {
    if format == "excel" then Some(SavedFile("exported-data.xlsx", ExcelMime, Workbook("Data", data)))
    else if format == "csv" then
      match CsvContent(data)
      case None => None
      case Some(text) => Some(SavedFile("exported-data.csv", CsvMime, CsvText(text)))
    else None
  }

  class ExportDataPage {
    var selectedTab: nat
    var loading: bool
    var error: Option<string>
    /** The files handed to `saveAs`, oldest first. */
    var saved: seq<SavedFile>

    constructor ()
      ensures selectedTab == 0 && !loading && error.None? && saved == []
    {
      selectedTab := 0;
      loading := false;
      error := None;
      saved := [];
    }

    method HandleTabChange(newValue: nat)
      modifies this
      ensures selectedTab == newValue
      ensures loading == old(loading) && error == old(error) && saved == old(saved)
    {
      selectedTab := newValue;
    }

    /** `fetchData`: clears the error and settles with the mock records. */
    method FetchData() returns (data: seq<Record>)
      modifies this
      ensures data == MockData
      ensures !loading && error.None?
      ensures selectedTab == old(selectedTab) && saved == old(saved)
    {
      loading := true;
      error := None;
      data := MockData;
      loading := false;
    }

    /** `handleExport(format)`: an unknown format saves nothing. */
    method HandleExport(format: string)
      modifies this
      ensures var file := ExportFile(format, MockData);
        saved == old(saved) + (if file.Some? then [file.value] else [])
      ensures !loading && error.None? && selectedTab == old(selectedTab)
    {
      var data := FetchData();
      var file := ExportFile(format, data);
      if file.Some? {
        saved := saved + [file.value];
      }
    }
  }

  /** Each export of the mock data saves exactly one file for "excel" and for "csv", and none
      otherwise. */
  lemma MockExportSavesFile(format: string)
    ensures ExportFile(format, MockData).Some? <==> format == "excel" || format == "csv"
  {
  }
}
