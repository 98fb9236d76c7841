/**
 * The Google Sheets importer: turning a sheet link into a CSV export URL,
 * checking the fetched sheet for the required columns, turning its rows
 * into preview records, renaming preview columns, and mapping the records
 * to the shape the bulk-import endpoint takes.
 *
 * `fetch`, PapaParse, `new Date(...).toISOString()` and the POST are inputs.
 */
module GoogleSheetImport {
  import opened Js
  import opened Seqs
  import opened Text
  import opened Records

  /** The columns a sheet must have (after normalisation), in the order their absence is reported. */
  const RequiredFields: seq<string> := ["title", "description", "duedate"]

  // ---------------------------------------------------------------- validateHeaders

  function NotIn(names: seq<string>): string -> bool
  {
    f => !(f in names)
  }

  /** What `validateHeaders(headers)` throws, or `None` when every required field is present. */
  function HeaderValidation(headers: seq<string>): Option<string>
  {
    var normalizedHeaders := Map(headers, NormalizeKey);
    var normalizedRequired := Map(RequiredFields, NormalizeKey);
    var missingFields := Filter(normalizedRequired, NotIn(normalizedHeaders));
    if |missingFields| > 0 then Some("Missing required columns: " + Join(missingFields, ", ")) else None
  }

  /** The required fields that are the normal form of no header, in the order of `RequiredFields`. */
  function MissingRequired(headers: seq<string>): seq<string>
  {
    var n := Map(headers, NormalizeKey);
    (if "title" in n then [] else ["title"]) + (if "description" in n then [] else ["description"])
    + (if "duedate" in n then [] else ["duedate"])
  }

  lemma TitleNormal() ensures NormalizeKey("title") == "title" { NormalizeKeyOfNormal("title"); }
  lemma DescriptionNormal() ensures NormalizeKey("description") == "description" { NormalizeKeyOfNormal("description"); }
  lemma DueDateNormal() ensures NormalizeKey("duedate") == "duedate" { NormalizeKeyOfNormal("duedate"); }

  /** The required fields are already in normal form. */
  lemma RequiredFieldsNormal()
    ensures Map(RequiredFields, NormalizeKey) == RequiredFields
  {
    TitleNormal();
    DescriptionNormal();
    DueDateNormal();
    MapFixed3("title", "description", "duedate", NormalizeKey);
  }

  /** `validateHeaders` throws exactly when some required field is the normal form of no header,
      and its message lists the missing fields, comma-separated, in required-field order. */
  lemma HeaderValidationFacts(headers: seq<string>)
    ensures HeaderValidation(headers).None? <==>
      forall k :: 0 <= k < |RequiredFields| ==> NormalizeKey(RequiredFields[k]) in Map(headers, NormalizeKey)
    ensures HeaderValidation(headers) ==
      if MissingRequired(headers) == [] then None
      else Some("Missing required columns: " + Join(MissingRequired(headers), ", "))
  {
    var normalizedHeaders := Map(headers, NormalizeKey);
    var normalizedRequired := Map(RequiredFields, NormalizeKey);
    FilterMembers(normalizedRequired, NotIn(normalizedHeaders));
    RequiredFieldsNormal();
    Filter3("title", "description", "duedate", NotIn(normalizedHeaders));
  }

  /** A sheet offering the three required columns under their own names passes the check. */
  lemma RequiredHeadersPass(headers: seq<string>)
    requires forall k :: 0 <= k < |RequiredFields| ==> RequiredFields[k] in headers
    ensures HeaderValidation(headers).None?
  {
    HeaderValidationFacts(headers);
    forall k | 0 <= k < |RequiredFields|
      ensures NormalizeKey(RequiredFields[k]) in Map(headers, NormalizeKey)
    {
      var f := RequiredFields[k];
      var j :| 0 <= j < |headers| && headers[j] == f;
      assert Map(headers, NormalizeKey)[j] == NormalizeKey(f);
    }
  }

  // ---------------------------------------------------------------- getCsvUrl

  /** The characters of `[-\w]`. */
  predicate WordChar(c: char)
  {
    c == '-' || c == '_' || IsDigit(c) || IsAsciiLower(c) || IsAsciiUpper(c)
  }

  /** The `25` of `[-\w]{25,}`. */
  const MinIdLength: nat := 25

  /** The length of the longest run of `[-\w]` characters starting at `p`. */
  function RunLength(s: string, p: nat): (n: nat)
    requires p <= |s|
    ensures p + n <= |s|
    ensures forall i :: p <= i < p + n ==> WordChar(s[i])
    ensures p + n == |s| || !WordChar(s[p + n])
    decreases |s| - p
  {
    if p == |s| || !WordChar(s[p]) then 0 else 1 + RunLength(s, p + 1)
  }

  /** A run of word characters ends at the first character that is not one. */
  lemma {:induction false} RunLengthUpTo(s: string, p: nat, k: nat)
    requires p <= k < |s| && !WordChar(s[k])
    ensures RunLength(s, p) <= k - p
    decreases k - p
  {
    if p < k && WordChar(s[p]) {
      RunLengthUpTo(s, p + 1, k);
    }
  }

  /** A maximal run of `n` word characters at `p` has length `n`. */
  lemma {:induction false} RunLengthOfRun(s: string, p: nat, n: nat)
    requires p + n <= |s|
    requires forall i :: p <= i < p + n ==> WordChar(s[i])
    requires p + n == |s| || !WordChar(s[p + n])
    ensures RunLength(s, p) == n
    decreases n
  {
    if n > 0 {
      RunLengthOfRun(s, p + 1, n - 1);
    }
  }

  /** The leftmost position, from `from` on, where `[-\w]{25,}` matches. */
  function LongRunFrom(s: string, from: nat): (r: Option<nat>)
    requires from <= |s|
    ensures r.Some? ==> from <= r.value < |s| && RunLength(s, r.value) >= MinIdLength
    ensures r.Some? ==> forall q :: from <= q < r.value ==> RunLength(s, q) < MinIdLength
    ensures r.None? ==> forall q :: from <= q < |s| ==> RunLength(s, q) < MinIdLength
    decreases |s| - from
  {
    if from == |s| then None
    else if RunLength(s, from) >= MinIdLength then Some(from)
    else LongRunFrom(s, from + 1)
  }

  /** `s.match(/[-\w]{25,}/)?.[0]`: the leftmost run of at least 25 word characters, taken whole. */
  function SheetId(s: string): (r: Option<string>)
    ensures r.Some? ==> |r.value| >= MinIdLength && forall i :: 0 <= i < |r.value| ==> WordChar(r.value[i])
  {
    match LongRunFrom(s, 0)
    case None => None
    case Some(p) => Some(s[p..p + RunLength(s, p)])
  }

  /** `/\/d\/([-\w]{25,})/` matches at `q`: a `/d/` followed by at least 25 word characters. */
  predicate DriveMatchAt(s: string, q: nat)
  {
    q + 3 <= |s| && s[q..q + 3] == "/d/" && RunLength(s, q + 3) >= MinIdLength
  }

  /** The leftmost position, from `from` on, where `/\/d\/([-\w]{25,})/` matches. */
  function DriveMatchFrom(s: string, from: nat): (r: Option<nat>)
    requires from <= |s|
    ensures r.Some? ==> from <= r.value && DriveMatchAt(s, r.value)
    ensures r.Some? ==> forall q :: from <= q < r.value ==> !DriveMatchAt(s, q)
    ensures r.None? ==> forall q :: from <= q <= |s| ==> !DriveMatchAt(s, q)
    decreases |s| - from
  {
    if from + 3 > |s| then None
    else if DriveMatchAt(s, from) then Some(from)
    else DriveMatchFrom(s, from + 1)
  }

  /** `s.match(/\/d\/([-\w]{25,})/)?.[1]`: the run after the leftmost matching `/d/`. */
  function DriveId(s: string): (r: Option<string>)
    ensures r.Some? ==> |r.value| >= MinIdLength && forall i :: 0 <= i < |r.value| ==> WordChar(r.value[i])
  {
    match DriveMatchFrom(s, 0)
    case None => None
    case Some(q) => Some(s[q + 3..q + 3 + RunLength(s, q + 3)])
  }

  function SheetCsvUrl(sheetId: string): string
  {
    "https://docs.google.com/spreadsheets/d/" + sheetId + "/export?format=csv"
  }

  function DriveDownloadUrl(fileId: string): string
  {
    "https://drive.google.com/uc?export=download&id=" + fileId
  }

  /** `getCsvUrl(url)`; `None` is `null`. */
  function GetCsvUrl(url: string): Option<string>
  {
    if Contains(url, "spreadsheets/d/") then
      match SheetId(url)
      case None => None
      case Some(sheetId) => Some(SheetCsvUrl(sheetId))
    else if Contains(url, "drive.google.com/file/d/") then
      match DriveId(url)
      case None => None
      case Some(fileId) => Some(DriveDownloadUrl(fileId))
    else None
  }

  /** A link with no run of 25 word characters has no id of either kind and is rejected. */
  lemma NoLongRunIsRejected(url: string)
    requires forall q :: 0 <= q < |url| ==> RunLength(url, q) < MinIdLength
    ensures GetCsvUrl(url).None?
  {
    forall q | 0 <= q <= |url|
      ensures !DriveMatchAt(url, q)
    {
      if q + 3 < |url| {
        assert RunLength(url, q + 3) < MinIdLength;
      }
    }
    assert DriveId(url).None?;
    assert SheetId(url).None?;
  }

  const SheetLinkPrefix: string := "https://docs.google.com/spreadsheets/d/"

  /** A link starting with the sheet prefix contains `spreadsheets/d/`, and no run of word
      characters starting inside the prefix is long enough to be an id. */
  lemma SheetLinkPrefixFacts(url: string)
    requires IsPrefix(SheetLinkPrefix, url)
    ensures Contains(url, "spreadsheets/d/")
    ensures forall q :: 0 <= q < |SheetLinkPrefix| ==> RunLength(url, q) < MinIdLength
  {
    assert url[..39] == SheetLinkPrefix;
    assert url[24..39] == "spreadsheets/d/";
    assert IsPrefix("spreadsheets/d/", url[24..]);
    ContainsAt(url, "spreadsheets/d/");
    assert url[23] == '/' && url[38] == '/';
    forall q | 0 <= q < 39
      ensures RunLength(url, q) < MinIdLength
    {
      if q <= 23 {
        RunLengthUpTo(url, q, 23);
      } else {
        RunLengthUpTo(url, q, 38);
      }
    }
  }

  /** The usual sheet link, `https://docs.google.com/spreadsheets/d/<id>` followed by anything that
      does not start with a word character, gives the CSV export URL of that id. */
  lemma SheetLinkGivesExportUrl(sheetId: string, rest: string)
    requires |sheetId| >= MinIdLength && forall i :: 0 <= i < |sheetId| ==> WordChar(sheetId[i])
    requires rest == [] || !WordChar(rest[0])
    ensures GetCsvUrl(SheetLinkPrefix + sheetId + rest) == Some(SheetCsvUrl(sheetId))
  {
    var url := SheetLinkPrefix + sheetId + rest;
    var n := |SheetLinkPrefix|;
    assert url[..n] == SheetLinkPrefix;
    SheetLinkPrefixFacts(url);
    forall i | n <= i < n + |sheetId|
      ensures WordChar(url[i])
    {
      assert url[i] == sheetId[i - n];
    }
    if rest != [] {
      assert url[n + |sheetId|] == rest[0];
    }
    RunLengthOfRun(url, n, |sheetId|);
    SheetIdAt(url, n);
    assert url[n..n + |sheetId|] == sheetId;
  }

  /** The id is the run at the first position where a long enough run starts. */
  lemma SheetIdAt(s: string, p: nat)
    requires p < |s| && RunLength(s, p) >= MinIdLength
    requires forall q :: 0 <= q < p ==> RunLength(s, q) < MinIdLength
    ensures SheetId(s) == Some(s[p..p + RunLength(s, p)])
  {
    var r := LongRunFrom(s, 0);
    assert r == Some(p);
  }

  const DriveLinkPrefix: string := "https://drive.google.com/file/d/"

  lemma DriveLinkPrefixChars()
    ensures |DriveLinkPrefix| == 32
    ensures DriveLinkPrefix[0] == 'h' && DriveLinkPrefix[1] == 't' && DriveLinkPrefix[29] == '/' && DriveLinkPrefix[31] == '/'
    ensures DriveLinkPrefix[8..] == "drive.google.com/file/d/" && DriveLinkPrefix[29..] == "/d/"
  {
  }

  /** A link starting with the drive prefix contains `drive.google.com/file/d/`, has its `/d/` at
      position 29, and has no earlier position where `/\/d\/([-\w]{25,})/` can match. */
  lemma DriveLinkPrefixFacts(url: string)
    requires IsPrefix(DriveLinkPrefix, url)
    ensures Contains(url, "drive.google.com/file/d/")
    ensures url[29..32] == "/d/"
    ensures forall q :: 0 <= q < 29 ==> !DriveMatchAt(url, q)
  {
    var head := url[..32];
    assert head == DriveLinkPrefix;
    DriveLinkPrefixChars();
    assert url[8..32] == head[8..] && url[29..32] == head[29..];
    assert url[0] == head[0] && url[1] == head[1] && url[29] == head[29] && url[31] == head[31];
    assert IsPrefix("drive.google.com/file/d/", url[8..]);
    ContainsAt(url, "drive.google.com/file/d/");
    forall q | 0 <= q < 29
      ensures !DriveMatchAt(url, q)
    {
      if q < 2 {
        assert url[q..q + 3][0] == url[q];
      } else if q < 27 {
        RunLengthUpTo(url, q + 3, 29);
      } else {
        RunLengthUpTo(url, q + 3, 31);
      }
    }
  }

  /** A drive file link, `https://drive.google.com/file/d/<id>` followed by anything that does not
      start with a word character and holds no `spreadsheets/d/`, gives the download URL of that id. */
  lemma DriveLinkGivesDownloadUrl(fileId: string, rest: string)
    requires |fileId| >= MinIdLength && forall i :: 0 <= i < |fileId| ==> WordChar(fileId[i])
    requires rest == [] || !WordChar(rest[0])
    requires !Contains(DriveLinkPrefix + fileId + rest, "spreadsheets/d/")
    ensures GetCsvUrl(DriveLinkPrefix + fileId + rest) == Some(DriveDownloadUrl(fileId))
  {
    var url := DriveLinkPrefix + fileId + rest;
    var n := |DriveLinkPrefix|;
    assert url[..n] == DriveLinkPrefix;
    DriveLinkPrefixFacts(url);
    forall i | n <= i < n + |fileId|
      ensures WordChar(url[i])
    {
      assert url[i] == fileId[i - n];
    }
    if rest != [] {
      assert url[n + |fileId|] == rest[0];
    }
    RunLengthOfRun(url, n, |fileId|);
    assert DriveMatchAt(url, 29);
    assert DriveMatchFrom(url, 0) == Some(29);
    assert url[n..n + |fileId|] == fileId;
  }

  /** A link holding neither `spreadsheets/d/` nor `drive.google.com/file/d/` is rejected. */
  lemma UnrecognisedLinkIsRejected(url: string)
    requires !Contains(url, "spreadsheets/d/") && !Contains(url, "drive.google.com/file/d/")
    ensures GetCsvUrl(url).None?
  {
  }

  // ---------------------------------------------------------------- fetchSheetData

  /** What `fetch(url)` yields: a network failure, or a response with its status and body. */
  datatype FetchResponse = NetworkFailure(message: string) | Response(status: nat, body: string)

  /** `fetchSheetData`: the parsed rows of the CSV body, or the error it throws. `parse` stands
      for PapaParse with `header: false`. */
  function FetchSheetData(response: FetchResponse, parse: string -> seq<seq<string>>): (r: Result<seq<seq<string>>>)
    ensures response.Response? && response.status == 403 ==> r == Err("Sheet not publicly accessible")
    ensures response.Response? && response.status != 403 && !(200 <= response.status <= 299) ==>
      r == Err("HTTP Error: " + NatToString(response.status))
    ensures r.Ok? <==> response.Response? && 200 <= response.status <= 299 && !Contains(ToLower(response.body), "<html>")
    ensures r.Ok? ==> r.value == parse(response.body)
    ensures response.NetworkFailure? ==> r == Err(response.message)
    ensures response.Response? && 200 <= response.status <= 299 && Contains(ToLower(response.body), "<html>") ==>
      r == Err("Invalid CSV response")
  {
    match response
    case NetworkFailure(message) => Err(message)
    case Response(status, body) =>
      if status == 403 then Err("Sheet not publicly accessible")
      else if !(200 <= status <= 299) then Err("HTTP Error: " + NatToString(status))
      else if Contains(ToLower(body), "<html>") then Err("Invalid CSV response")
      else Ok(parse(body))
  }

  // ---------------------------------------------------------------- normalizeHeader

  /** `header.toLowerCase().replace(/\s+/g, "")`. */
  function NormalizeHeader(header: string): (r: string)
    ensures forall i :: 0 <= i < |r| ==> !IsSpace(r[i]) && !IsAsciiUpper(r[i])
  {
    var lower := ToLower(header);
    FilterMembers(lower, NotSpace);
    assert forall c :: c in lower ==> !IsAsciiUpper(c);
    RemoveSpaces(lower)
  }

  lemma NormalizeHeaderIdempotent(header: string)
    ensures NormalizeHeader(NormalizeHeader(header)) == NormalizeHeader(header)
  {
    var n := NormalizeHeader(header);
    ToLowerOfLower(n);
    FilterIdentity(n, NotSpace);
  }

  // ---------------------------------------------------------------- header row and row transform

  /** A preview column: its normalised name and the position of its cell in every row. */
  datatype Column = Column(name: string, index: nat)

  function Names(columns: seq<Column>): (r: seq<string>)
    ensures |r| == |columns| && forall j :: 0 <= j < |columns| ==> r[j] == columns[j].name
  {
    Map(columns, Name)
  }

  function Name(c: Column): string { c.name }

  predicate NonEmpty(s: string) { s != "" }

  /** The header handling as written: trim every header cell, drop the empty ones, normalise the
      rest, and read the cell of the j-th remaining header at position j of every row. */
  function AsWrittenColumns(headerRow: seq<string>): seq<Column>
  {
    Positioned(Map(Filter(Map(headerRow, Trim), NonEmpty), NormalizeHeader))
  }

  /** The j-th name paired with position j. */
  function Positioned(names: seq<string>): (r: seq<Column>)
    ensures Names(r) == names
    ensures forall j :: 0 <= j < |r| ==> r[j] == Column(names[j], j)
  {
    seq(|names|, j requires 0 <= j < |names| => Column(names[j], j))
  }

  /** A header cell that is not blank once trimmed. */
  predicate Kept(headerRow: seq<string>, i: nat)
    requires i < |headerRow|
  {
    Trim(headerRow[i]) != ""
  }

  /** The column of header cell `i`: its trimmed, normalised text and its position. */
  function ColumnAt(headerRow: seq<string>, i: nat): Column
    requires i < |headerRow|
  {
    Column(NormalizeHeader(Trim(headerRow[i])), i)
  }

  /** The header handling as intended: the same names, but each remembers the position of its own
      cell, so an empty header cell no longer shifts the cells after it. */
  function KeptColumns(headerRow: seq<string>, from: nat): (r: seq<Column>)
    ensures forall j :: 0 <= j < |r| ==>
      from <= r[j].index < |headerRow| && Kept(headerRow, r[j].index) && r[j] == ColumnAt(headerRow, r[j].index)
    decreases |headerRow| - from
  {
    if from >= |headerRow| then []
    else
      var rest := KeptColumns(headerRow, from + 1);
      if Kept(headerRow, from) then
        assert forall j :: 0 <= j < |rest| ==> ([ColumnAt(headerRow, from)] + rest)[j + 1] == rest[j];
        [ColumnAt(headerRow, from)] + rest
      else rest
  }

  /** Every non-empty header cell gives a column. */
  lemma KeptColumnsComplete(headerRow: seq<string>, from: nat, i: nat)
    requires from <= i < |headerRow| && Kept(headerRow, i)
    ensures exists j :: 0 <= j < |KeptColumns(headerRow, from)| && KeptColumns(headerRow, from)[j].index == i
  {
    var j := KeptColumnPosition(headerRow, from, i);
  }

  /** The position, among the kept columns, of the column of header cell `i`. */
  lemma {:induction false} KeptColumnPosition(headerRow: seq<string>, from: nat, i: nat) returns (j: nat)
    requires from <= i < |headerRow| && Kept(headerRow, i)
    ensures j < |KeptColumns(headerRow, from)| && KeptColumns(headerRow, from)[j].index == i
    decreases i - from
  {
    var rest := KeptColumns(headerRow, from + 1);
    if i == from {
      assert KeptColumns(headerRow, from) == [ColumnAt(headerRow, from)] + rest;
      j := 0;
    } else {
      var k := KeptColumnPosition(headerRow, from + 1, i);
      if Kept(headerRow, from) {
        assert KeptColumns(headerRow, from) == [ColumnAt(headerRow, from)] + rest;
        j := k + 1;
      } else {
        j := k;
      }
    }
  }

  /** The names of the kept columns are the trimmed, non-blank header cells, normalised, in order. */
  lemma {:induction false} KeptNames(headerRow: seq<string>, from: nat)
    requires from <= |headerRow|
    ensures Names(KeptColumns(headerRow, from)) == Map(Filter(Map(headerRow[from..], Trim), NonEmpty), NormalizeHeader)
    decreases |headerRow| - from
  {
    if from < |headerRow| {
      KeptNames(headerRow, from + 1);
      FilterMapTail(headerRow, from, Trim, NonEmpty);
      var rest := KeptColumns(headerRow, from + 1);
      if Kept(headerRow, from) {
        MapConcat([Trim(headerRow[from])], Filter(Map(headerRow[from + 1..], Trim), NonEmpty), NormalizeHeader);
        assert KeptColumns(headerRow, from) == [ColumnAt(headerRow, from)] + rest;
        NamesCons(ColumnAt(headerRow, from), rest);
      }
    }
  }

  lemma NamesCons(c: Column, rest: seq<Column>)
    ensures Names([c] + rest) == [c.name] + Names(rest)
  {
    MapConcat([c], rest, Name);
  }

  /** When no header cell is blank, every cell from `from` on gives the column at its own position. */
  lemma {:induction false} KeptColumnsAllKept(headerRow: seq<string>, from: nat)
    requires from <= |headerRow|
    requires forall i :: from <= i < |headerRow| ==> Kept(headerRow, i)
    ensures |KeptColumns(headerRow, from)| == |headerRow| - from
    ensures forall j :: 0 <= j < |headerRow| - from ==> KeptColumns(headerRow, from)[j] == ColumnAt(headerRow, from + j)
    decreases |headerRow| - from
  {
    if from < |headerRow| {
      KeptColumnsAllKept(headerRow, from + 1);
      var rest := KeptColumns(headerRow, from + 1);
      assert KeptColumns(headerRow, from) == [ColumnAt(headerRow, from)] + rest;
    }
  }

  /** As written, the columns carry the right names, those of the corrected columns, but the cell of
      the j-th column is read at position j of the row, counted after the blank header cells were
      dropped. Without blank header cells the two mappings coincide. */
  lemma AsWrittenColumnsFacts(headerRow: seq<string>)
    ensures Names(AsWrittenColumns(headerRow)) == Names(KeptColumns(headerRow, 0))
    ensures forall j :: 0 <= j < |AsWrittenColumns(headerRow)| ==> AsWrittenColumns(headerRow)[j].index == j
    ensures (forall i :: 0 <= i < |headerRow| ==> Kept(headerRow, i)) ==> AsWrittenColumns(headerRow) == KeptColumns(headerRow, 0)
  {
    KeptNames(headerRow, 0);
    assert headerRow[0..] == headerRow;
    if forall i :: 0 <= i < |headerRow| ==> Kept(headerRow, i) {
      AsWrittenAllKept(headerRow);
    }
  }

  lemma AsWrittenAllKept(headerRow: seq<string>)
    requires forall i :: 0 <= i < |headerRow| ==> Kept(headerRow, i)
    ensures AsWrittenColumns(headerRow) == KeptColumns(headerRow, 0)
  {
    var kept := KeptColumns(headerRow, 0);
    KeptColumnsAllKept(headerRow, 0);
    forall i | 0 <= i < |headerRow|
      ensures Trim(headerRow[i]) != "" && kept[i] == Column(NormalizeHeader(Trim(headerRow[i])), i)
    {
      assert Kept(headerRow, i);
      assert kept[i] == ColumnAt(headerRow, 0 + i);
    }
    PositionedAllKept(headerRow, Trim, NormalizeHeader, kept);
  }

  /** With no cell dropped by the filter, the j-th name is that of cell j. */
  lemma PositionedAllKept(cells: seq<string>, trim: string -> string, normalize: string -> string, kept: seq<Column>)
    requires forall i :: 0 <= i < |cells| ==> trim(cells[i]) != ""
    requires |kept| == |cells|
    requires forall j :: 0 <= j < |cells| ==> kept[j] == Column(normalize(trim(cells[j])), j)
    ensures Positioned(Map(Filter(Map(cells, trim), NonEmpty), normalize)) == kept
  {
    var trimmed := Map(cells, trim);
    FilterIdentity(trimmed, NonEmpty);
  }

  /** `row[i] || ""`. */
  function CellAt(row: seq<string>, i: nat): string
  {
    if i < |row| then row[i] else ""
  }

  /** `headers.reduce((acc, header, i) => { acc[header] = row[i] || ""; return acc; }, {})`, with
      the cell of each column read at that column's position. */
  function RowData(columns: seq<Column>, row: seq<string>): (r: Record)
    ensures Keys(r) == [] <==> columns == []
  {
    if columns == [] then []
    else
      var last := columns[|columns| - 1];
      Set(RowData(columns[..|columns| - 1], row), last.name, CellAt(row, last.index))
  }

  /** A blank header cell shifts every later column onto its left neighbour's cell: with headers
      `a`, blank, `b`, the column `b` reads the middle cell as written and its own cell once each
      column keeps its position. */
  lemma BlankHeaderShiftsCells()
    ensures LastCell(AsWrittenColumns(["a", "", "b"]), ["1", "2", "3"], "b") == Some("2")
    ensures LastCell(KeptColumns(["a", "", "b"], 0), ["1", "2", "3"], "b") == Some("3")
  {
    var h := ["a", "", "b"];
    assert Trim("a") == "a" && Trim("") == "" && Trim("b") == "b";
    assert NormalizeHeader("a") == "a" && NormalizeHeader("b") == "b";
    assert Map(h, Trim) == h;
    assert Filter(h, NonEmpty) == ["a", "b"];
    assert AsWrittenColumns(h) == [Column("a", 0), Column("b", 1)];
    assert KeptColumns(h, 0) == [Column("a", 0), Column("b", 2)];
  }

  /** The cell of the last column called `key`, the one whose assignment survives the reduce. */
  function LastCell(columns: seq<Column>, row: seq<string>, key: string): (r: Option<string>)
    ensures r.None? <==> forall j :: 0 <= j < |columns| ==> columns[j].name != key
  {
    if columns == [] then None
    else if columns[|columns| - 1].name == key then Some(CellAt(row, columns[|columns| - 1].index))
    else LastCell(columns[..|columns| - 1], row, key)
  }

  /** Reading a key of the row data gives the cell of the last column of that name. */
  lemma {:induction false} GetRowData(columns: seq<Column>, row: seq<string>, key: string)
    ensures Get(RowData(columns, row), key) == LastCell(columns, row, key)
  {
    if columns != [] {
      var last := columns[|columns| - 1];
      GetRowData(columns[..|columns| - 1], row, key);
      GetSet(RowData(columns[..|columns| - 1], row), last.name, CellAt(row, last.index), key);
    }
  }

  /** With distinct column names, each column's name reads as its own cell. */
  lemma {:induction false} LastCellOfUnique(columns: seq<Column>, row: seq<string>, j: nat)
    requires j < |columns|
    requires forall a, b :: 0 <= a < b < |columns| ==> columns[a].name != columns[b].name
    ensures LastCell(columns, row, columns[j].name) == Some(CellAt(row, columns[j].index))
  {
    if j < |columns| - 1 {
      var init := columns[..|columns| - 1];
      assert init[j] == columns[j];
      LastCellOfUnique(init, row, j);
    }
  }

  lemma {:induction false} RowDataUnique(columns: seq<Column>, row: seq<string>)
    ensures UniqueKeys(RowData(columns, row))
  {
    if columns != [] {
      var last := columns[|columns| - 1];
      RowDataUnique(columns[..|columns| - 1], row);
      SetUnique(RowData(columns[..|columns| - 1], row), last.name, CellAt(row, last.index));
    }
  }

  /** The reduce of `handleImport`, as the loop it is: assigns each column's cell in turn. */
  method BuildRowData(columns: seq<Column>, row: seq<string>) returns (acc: Record)
    ensures acc == RowData(columns, row)
  {
    acc := [];
    var i := 0;
    while i < |columns|
      invariant 0 <= i <= |columns|
      invariant acc == RowData(columns[..i], row)
    {
      assert columns[..i + 1][..i] == columns[..i];
      acc := Set(acc, columns[i].name, CellAt(row, columns[i].index));
      i := i + 1;
    }
    assert columns[..i] == columns;
  }

  /** The properties every preview record starts with, before the row's own columns are spread in. */
  function Defaults(rowData: Record, idx: nat): Record
  {
    [Property("id", "row-" + NatToString(idx)), Property("isActive", "active"), Property("status", "on-going"),
     Property("priority", OrElse(Get(rowData, "priority"), "Medium"))]
  }

  lemma DefaultsGet(rowData: Record, idx: nat)
    ensures Get(Defaults(rowData, idx), "id") == Some("row-" + NatToString(idx))
    ensures Get(Defaults(rowData, idx), "isActive") == Some("active")
    ensures Get(Defaults(rowData, idx), "status") == Some("on-going")
    ensures Get(Defaults(rowData, idx), "priority") == Some(OrElse(Get(rowData, "priority"), "Medium"))
  {
    var d := Defaults(rowData, idx);
    assert |d[0].key| == 2 && |d[1].key| == 8 && |d[2].key| == 6 && |d[3].key| == 8;
    assert d[1].key[0] != d[3].key[0];
    assert UniqueKeys(d);
    GetUnique(d, 0);
    GetUnique(d, 1);
    GetUnique(d, 2);
    GetUnique(d, 3);
  }

  /** `{ id: ..., isActive: ..., status: ..., priority: ..., ...rowData }`. */
  function Preview(rowData: Record, idx: nat): Record
  {
    Spread(Defaults(rowData, idx), rowData)
  }

  /** The preview record of data row `idx`. */
  function SheetRecord(columns: seq<Column>, row: seq<string>, idx: nat): Record
  {
    Preview(RowData(columns, row), idx)
  }

  /** Every key of a preview record is the sheet's cell when a column has that name and the
      default otherwise: the row's columns are spread last, so they win. */
  lemma SheetRecordGet(columns: seq<Column>, row: seq<string>, idx: nat, key: string)
    ensures Get(SheetRecord(columns, row, idx), key) ==
      if LastCell(columns, row, key).Some? then LastCell(columns, row, key) else Get(Defaults(RowData(columns, row), idx), key)
  {
    var rowData := RowData(columns, row);
    RowDataUnique(columns, row);
    GetSpread(Defaults(rowData, idx), rowData, key);
    GetRowData(columns, row, key);
  }

  /** The defaults: id `row-<idx>`, `isActive` "active", status "on-going" and priority "Medium"
      where the sheet has no such column; a column's cell wins even when it is empty. */
  lemma DefaultsOfRecord(columns: seq<Column>, row: seq<string>, idx: nat)
    ensures LastCell(columns, row, "id").None? ==> Get(SheetRecord(columns, row, idx), "id") == Some("row-" + NatToString(idx))
    ensures LastCell(columns, row, "isActive").None? ==> Get(SheetRecord(columns, row, idx), "isActive") == Some("active")
    ensures LastCell(columns, row, "status").None? ==> Get(SheetRecord(columns, row, idx), "status") == Some("on-going")
    ensures Get(SheetRecord(columns, row, idx), "priority") ==
      if LastCell(columns, row, "priority").Some? then LastCell(columns, row, "priority") else Some("Medium")
  {
    DefaultsGet(RowData(columns, row), idx);
    SheetRecordGet(columns, row, idx, "id");
    SheetRecordGet(columns, row, idx, "isActive");
    SheetRecordGet(columns, row, idx, "status");
    SheetRecordGet(columns, row, idx, "priority");
    GetRowData(columns, row, "priority");
  }

  /** `sheetData.slice(1).map((row, idx) => ...)`. */
  function SheetRecords(columns: seq<Column>, dataRows: seq<seq<string>>): (r: seq<Record>)
    ensures |r| == |dataRows|
    ensures forall idx :: 0 <= idx < |r| ==> r[idx] == SheetRecord(columns, dataRows[idx], idx)
  {
    MapWithIndex(dataRows, RecordOfRow(columns))
  }

  function RecordOfRow(columns: seq<Column>): (seq<string>, nat) -> Record
  {
    (row: seq<string>, idx: nat) => SheetRecord(columns, row, idx)
  }

  /** The row transform of `handleImport`: one record per data row, built with the reduce loop. */
  method TransformRows(columns: seq<Column>, dataRows: seq<seq<string>>) returns (records: seq<Record>)
    ensures records == SheetRecords(columns, dataRows)
  {
    records := [];
    var idx := 0;
    while idx < |dataRows|
      invariant 0 <= idx <= |dataRows|
      invariant records == SheetRecords(columns, dataRows[..idx])
    {
      var record := BuildRecord(columns, dataRows[idx], idx);
      SheetRecordsSnoc(columns, dataRows, idx);
      records := records + [record];
      idx := idx + 1;
    }
    assert dataRows[..idx] == dataRows;
  }

  lemma SheetRecordsSnoc(columns: seq<Column>, dataRows: seq<seq<string>>, idx: nat)
    requires idx < |dataRows|
    ensures SheetRecords(columns, dataRows[..idx + 1]) ==
      SheetRecords(columns, dataRows[..idx]) + [SheetRecord(columns, dataRows[idx], idx)]
  {
    MapWithIndexSnoc(dataRows, RecordOfRow(columns), idx);
  }

  /** The callback of that `map`: the reduce, then the defaults with the row data spread over them. */
  method BuildRecord(columns: seq<Column>, row: seq<string>, idx: nat) returns (record: Record)
    ensures record == SheetRecord(columns, row, idx)
  {
    var rowData := BuildRowData(columns, row);
    record := Preview(rowData, idx);
  }

  /** What a successful import shows: the column names and one record per data row. */
  datatype SheetPreview = SheetPreview(columns: seq<string>, records: seq<Record>)

  /** The part of `handleImport` after the fetch: fails on an empty sheet or a missing required
      column, and otherwise transforms the rows below the header row. */
  function ImportSheet(sheetData: seq<seq<string>>): (r: Result<SheetPreview>)
    ensures sheetData == [] ==> r == Err("No data found")
    ensures r.Ok? ==> |r.value.records| == |sheetData| - 1
  {
    if |sheetData| == 0 then Err("No data found")
    else
      var columns := KeptColumns(sheetData[0], 0);
      match HeaderValidation(Names(columns))
      case Some(message) => Err(message)
      case None => Ok(SheetPreview(Names(columns), SheetRecords(columns, sheetData[1..])))
  }

  /** The same part of `handleImport` with the header mapping exactly as written, where a blank
      header cell shifts the cells of the columns after it. */
  function ImportSheetAsWritten(sheetData: seq<seq<string>>): (r: Result<SheetPreview>)
    ensures sheetData == [] ==> r == Err("No data found")
    ensures r.Ok? ==> |r.value.records| == |sheetData| - 1
  {
    if |sheetData| == 0 then Err("No data found")
    else
      var columns := AsWrittenColumns(sheetData[0]);
      match HeaderValidation(Names(columns))
      case Some(message) => Err(message)
      case None => Ok(SheetPreview(Names(columns), SheetRecords(columns, sheetData[1..])))
  }

  /** As written, the `j`-th kept header of a record reads cell `j` of its row, counted after the
      blank header cells were dropped (distinct headers; with repeated ones the last one wins). */
  lemma ImportSheetAsWrittenCells(sheetData: seq<seq<string>>, k: nat, j: nat)
    requires ImportSheetAsWritten(sheetData).Ok?
    requires k < |ImportSheetAsWritten(sheetData).value.records|
    requires j < |ImportSheetAsWritten(sheetData).value.columns|
    requires forall a, b :: 0 <= a < b < |ImportSheetAsWritten(sheetData).value.columns| ==>
      ImportSheetAsWritten(sheetData).value.columns[a] != ImportSheetAsWritten(sheetData).value.columns[b]
    ensures Get(ImportSheetAsWritten(sheetData).value.records[k], ImportSheetAsWritten(sheetData).value.columns[j]) ==
      Some(CellAt(sheetData[k + 1], j))
  {
    var cols := AsWrittenColumns(sheetData[0]);
    var row := sheetData[1..][k];
    assert row == sheetData[k + 1];
    AsWrittenColumnsFacts(sheetData[0]);
    SheetRecordGet(cols, row, k, cols[j].name);
    LastCellOfUnique(cols, row, j);
  }

  /** The as-written import reports the same headers and the same errors as the corrected one, and
      the same records whenever the header row has no blank cell. */
  lemma ImportSheetAgreement(sheetData: seq<seq<string>>)
    ensures ImportSheetAsWritten(sheetData).Ok? <==> ImportSheet(sheetData).Ok?
    ensures ImportSheetAsWritten(sheetData).Err? ==> ImportSheetAsWritten(sheetData) == ImportSheet(sheetData)
    ensures ImportSheetAsWritten(sheetData).Ok? ==> ImportSheetAsWritten(sheetData).value.columns == ImportSheet(sheetData).value.columns
    ensures sheetData != [] && (forall i :: 0 <= i < |sheetData[0]| ==> Kept(sheetData[0], i)) ==>
      ImportSheetAsWritten(sheetData) == ImportSheet(sheetData)
  {
    if sheetData != [] {
      AsWrittenColumnsFacts(sheetData[0]);
    }
  }

  /** The outcome of `handleImport` once the fetch has returned or failed. */
  function SheetOutcome(fetched: Result<seq<seq<string>>>): Result<SheetPreview>
  {
    if fetched.Err? then Err(fetched.message) else ImportSheet(fetched.value)
  }

  /** The body of the `try` block after the fetch: the checks in order, then the row transform. */
  method ImportFetched(fetched: Result<seq<seq<string>>>) returns (outcome: Result<SheetPreview>)
    ensures outcome == SheetOutcome(fetched)
  {
    if fetched.Err? {
      return Err(fetched.message);
    }
    var sheetData := fetched.value;
    if |sheetData| == 0 {
      return Err("No data found");
    }
    var kept := KeptColumns(sheetData[0], 0);
    var headers := Names(kept);
    var invalid := HeaderValidation(headers);
    if invalid.Some? {
      return Err(invalid.value);
    }
    var transformedData := TransformRows(kept, sheetData[1..]);
    outcome := Ok(SheetPreview(headers, transformedData));
  }

  // ---------------------------------------------------------------- handleHeaderChange

  /** One row of the rename in `handleHeaderChange`, as written: copy the old key's value to the
      new key, then delete the old key. */
  function RenameKeyAsWritten(row: Record, current: string, newHeader: string): Record
  {
    match Get(row, current)
    case None => Delete(row, current)
    case Some(v) => Delete(Set(row, newHeader, v), current)
  }

  /** Renaming a column to its own name deletes that column from every row. */
  lemma RenameToSameNameLosesData()
    ensures RenameKeyAsWritten([Property("notes", "call back")], "notes", "notes") == []
  {
  }

  /** As written, a rename always removes the old key; to a new name it moves the old key's value
      there; every other key reads as before. */
  lemma RenameKeyAsWrittenGet(row: Record, current: string, newHeader: string, key: string)
    requires current in Keys(row)
    ensures Get(RenameKeyAsWritten(row, current, newHeader), current).None?
    ensures newHeader != current ==> Get(RenameKeyAsWritten(row, current, newHeader), newHeader) == Get(row, current)
    ensures key != current && key != newHeader ==> Get(RenameKeyAsWritten(row, current, newHeader), key) == Get(row, key)
  {
    GetFacts(row, current);
    var v := Get(row, current).value;
    GetSet(row, newHeader, v, newHeader);
    GetSet(row, newHeader, v, key);
    GetDelete(Set(row, newHeader, v), current, newHeader);
    GetDelete(Set(row, newHeader, v), current, current);
    GetDelete(Set(row, newHeader, v), current, key);
  }

  /** The rename as intended: when the name does not change, the row does not change. */
  function RenameKey(row: Record, current: string, newHeader: string): Record
  {
    if newHeader == current then row else RenameKeyAsWritten(row, current, newHeader)
  }

  /** After a rename the new key holds the old key's value, the old key is gone unless it is the
      new one, and every other key reads as before. */
  lemma RenameKeyGet(row: Record, current: string, newHeader: string, key: string)
    requires current in Keys(row)
    ensures Get(RenameKey(row, current, newHeader), newHeader) == Get(row, current)
    ensures newHeader != current ==> Get(RenameKey(row, current, newHeader), current).None?
    ensures key != current && key != newHeader ==> Get(RenameKey(row, current, newHeader), key) == Get(row, key)
  {
    GetFacts(row, current);
    if newHeader != current {
      var v := Get(row, current).value;
      GetSet(row, newHeader, v, newHeader);
      GetSet(row, newHeader, v, key);
      GetDelete(Set(row, newHeader, v), current, newHeader);
      GetDelete(Set(row, newHeader, v), current, current);
      GetDelete(Set(row, newHeader, v), current, key);
    }
  }

  function RenameAll(rows: seq<Record>, current: string, newHeader: string): (r: seq<Record>)
    ensures |r| == |rows| && forall i :: 0 <= i < |rows| ==> r[i] == RenameKey(rows[i], current, newHeader)
  {
    Map(rows, (row: Record) => RenameKey(row, current, newHeader))
  }

  /** `columns.some((h, i) => i !== index && h === name)`. */
  predicate TakenElsewhere(columns: seq<string>, index: nat, name: string)
  {
    exists i :: 0 <= i < |columns| && i != index && columns[i] == name
  }

  // ---------------------------------------------------------------- sendUpdatedDataToDB

  /** A task as `sendUpdatedDataToDB` sends it; `title` and `description` are `undefined` when the
      record has no such key. */
  datatype SheetTask = SheetTask(title: Option<string>, description: Option<string>, dueDate: string,
                                 priority: string, status: string)

  /** The mapping of one record. `toIso` stands for `new Date(d).toISOString()`, `None` when it
      throws (an invalid date). */
  function ToBackend(item: Record, toIso: string -> Option<string>): (r: Option<SheetTask>)
    ensures r.None? <==> Truthy(Get(item, "duedate")) && toIso(Get(item, "duedate").value).None?
    ensures r.Some? ==> r.value.title == Get(item, "title") && r.value.description == Get(item, "description")
    ensures r.Some? ==> r.value.priority != "" && r.value.status != ""
    ensures r.Some? && !Truthy(Get(item, "duedate")) ==> r.value.dueDate == ""
  {
    var due := Get(item, "duedate");
    if Truthy(due) && toIso(due.value).None? then None
    else
      Some(SheetTask(Get(item, "title"), Get(item, "description"),
        if Truthy(due) then toIso(due.value).value else "",
        OrElse(Get(item, "priority"), "Medium"),
        OrElse(Get(item, "status"), "Pending")))
  }

  /** `data.map(...)`: all records mapped, or `None` when one date conversion throws. */
  function BackendData(data: seq<Record>, toIso: string -> Option<string>): (r: Option<seq<SheetTask>>)
    ensures r.Some? <==> forall i :: 0 <= i < |data| ==> ToBackend(data[i], toIso).Some?
    ensures r.Some? ==> |r.value| == |data| && forall i :: 0 <= i < |data| ==> Some(r.value[i]) == ToBackend(data[i], toIso)
  {
    if data == [] then Some([])
    else
      match ToBackend(data[0], toIso)
      case None => None
      case Some(t) =>
        match BackendData(data[1..], toIso)
        case None => None
        case Some(rest) => Some([t] + rest)
  }

  /** From sheet to request: the priority sent is the priority cell, or "Medium" when there is no
      priority column or its cell is empty. */
  lemma PriorityEndToEnd(columns: seq<Column>, row: seq<string>, idx: nat, toIso: string -> Option<string>)
    requires ToBackend(SheetRecord(columns, row, idx), toIso).Some?
    ensures ToBackend(SheetRecord(columns, row, idx), toIso).value.priority == OrElse(LastCell(columns, row, "priority"), "Medium")
  {
    DefaultsOfRecord(columns, row, idx);
  }

  /** From sheet to request: the status sent is the status cell, "Pending" when that cell is empty,
      and "on-going" when the sheet has no status column. */
  lemma StatusEndToEnd(columns: seq<Column>, row: seq<string>, idx: nat, toIso: string -> Option<string>)
    requires ToBackend(SheetRecord(columns, row, idx), toIso).Some?
    ensures ToBackend(SheetRecord(columns, row, idx), toIso).value.status ==
      if LastCell(columns, row, "status").Some? then OrElse(LastCell(columns, row, "status"), "Pending") else "on-going"
  {
    DefaultsOfRecord(columns, row, idx);
    SheetRecordGet(columns, row, idx, "status");
  }

  /** The object `setData(backendData)` stores; `undefined` fields are left out. */
  function TaskRecord(t: SheetTask): Record
  {
    (if t.title.Some? then [Property("title", t.title.value)] else [])
    + (if t.description.Some? then [Property("description", t.description.value)] else [])
    + [Property("dueDate", t.dueDate), Property("priority", t.priority), Property("status", t.status)]
  }

  /** The outcome of the bulk-import POST: success, or an error with the optional
      `response.data.error.message` and the error's own message. */
  datatype PostOutcome = Posted | PostFailed(errorMessage: Option<string>, message: string)

  datatype Notification = Notification(open: bool, message: string, severity: string)

  class GoogleSheetImportPage {
    var sheetLink: string
    var loading: bool
    var error: string
    var data: Option<seq<Record>>
    var columns: seq<string>
    var isDataLoaded: bool
    var notification: Notification

    constructor ()
      ensures sheetLink == "" && !loading && error == "" && data.None? && columns == [] && !isDataLoaded
      ensures notification == Notification(false, "", "info")
    {
      sheetLink := "";
      loading := false;
      error := "";
      data := None;
      columns := [];
      isDataLoaded := false;
      notification := Notification(false, "", "info");
    }

    /** `handleImport`. `fetch` and `parse` stand for the network and PapaParse. */
    method HandleImport(fetch: string -> FetchResponse, parse: string -> seq<seq<string>>)
      modifies this
      ensures sheetLink == old(sheetLink)
      ensures old(sheetLink) == "" ==>
        error == "Please enter a URL" && loading == old(loading) && data == old(data) && columns == old(columns)
        && isDataLoaded == old(isDataLoaded) && notification == old(notification)
      ensures old(sheetLink) != "" && GetCsvUrl(old(sheetLink)).None? ==>
        error == "Invalid Google Sheets URL" && loading == old(loading) && data == old(data) && columns == old(columns)
        && isDataLoaded == old(isDataLoaded) && notification == old(notification)
      ensures old(sheetLink) != "" && GetCsvUrl(old(sheetLink)).Some? ==>
        Imported(old(columns), old(data), old(isDataLoaded), SheetOutcome(FetchSheetData(fetch(GetCsvUrl(old(sheetLink)).value), parse)))
    {
      if sheetLink == "" {
        error := "Please enter a URL";
        return;
      }
      var csvUrl := GetCsvUrl(sheetLink);
      if csvUrl.None? {
        error := "Invalid Google Sheets URL";
        return;
      }
      loading := true;
      error := "";
      var fetched := FetchSheetData(fetch(csvUrl.value), parse);
      var outcome := ImportFetched(fetched);
      Apply(outcome);
    }

    /** The page after an import with the given outcome: the preview and a success notification,
        or the previous preview with the error shown in the page and in the notification. */
    ghost predicate Imported(oldColumns: seq<string>, oldData: Option<seq<Record>>, oldLoaded: bool, outcome: Result<SheetPreview>)
      reads this
    {
      && !loading
      && (outcome.Ok? ==>
            columns == outcome.value.columns && data == Some(outcome.value.records) && isDataLoaded
            && error == "" && notification == Notification(true, "Data imported successfully!", "success"))
      && (outcome.Err? ==>
            columns == oldColumns && data == oldData && isDataLoaded == oldLoaded
            && error == outcome.message && notification == Notification(true, outcome.message, "error"))
    }

    /** The `try` block's two ways out, once the outcome is known. */
    method Apply(outcome: Result<SheetPreview>)
      requires error == ""
      modifies this
      ensures sheetLink == old(sheetLink)
      ensures Imported(old(columns), old(data), old(isDataLoaded), outcome)
    {
      if outcome.Err? {
        error := outcome.message;
        notification := Notification(true, outcome.message, "error");
      } else {
        columns := outcome.value.columns;
        data := Some(outcome.value.records);
        isDataLoaded := true;
        notification := Notification(true, "Data imported successfully!", "success");
      }
      loading := false;
    }

    /** `handleHeaderChange(event, index)` with `value` the edited text: refuses to rename a
        required column, to an empty name, or to a name another column has; otherwise renames the
        column and the key in every row. */
    method HandleHeaderChange(index: nat, value: string)
      requires data.Some? && index < |columns|
      modifies this
      ensures sheetLink == old(sheetLink) && loading == old(loading) && error == old(error) && isDataLoaded == old(isDataLoaded)
      ensures old(columns)[index] in RequiredFields ==>
        notification == Notification(true, "Cannot rename required fields", "error")
        && columns == old(columns) && data == old(data)
      ensures !(old(columns)[index] in RequiredFields) && Trim(value) == "" ==>
        notification == Notification(true, "Column name required", "error")
        && columns == old(columns) && data == old(data)
      ensures !(old(columns)[index] in RequiredFields) && Trim(value) != "" && TakenElsewhere(old(columns), index, Trim(value)) ==>
        notification == Notification(true, "Column names must be unique", "error")
        && columns == old(columns) && data == old(data)
      ensures !(old(columns)[index] in RequiredFields) && Trim(value) != "" && !TakenElsewhere(old(columns), index, Trim(value)) ==>
        notification == old(notification)
        && columns == old(columns)[index := Trim(value)]
        && data == Some(RenameAll(old(data).value, old(columns)[index], Trim(value)))
    {
      var currentHeader := columns[index];
      if currentHeader in RequiredFields {
        notification := Notification(true, "Cannot rename required fields", "error");
        return;
      }
      var newHeader := Trim(value);
      if newHeader == "" {
        notification := Notification(true, "Column name required", "error");
        return;
      }
      if exists i :: 0 <= i < |columns| && i != index && columns[i] == newHeader {
        notification := Notification(true, "Column names must be unique", "error");
        return;
      }
      columns := columns[index := newHeader];
      data := Some(RenameAll(data.value, currentHeader, newHeader));
    }

    /** `sendUpdatedDataToDB`. `toIso` stands for the date conversion and `response` for the POST. */
    method SendUpdatedDataToDB(toIso: string -> Option<string>, response: PostOutcome) returns (posted: Option<seq<SheetTask>>)
      modifies this
      ensures sheetLink == old(sheetLink) && error == old(error) && columns == old(columns) && isDataLoaded == old(isDataLoaded)
      ensures old(data).None? ==> posted.None? && data == old(data) && loading == old(loading) && notification == old(notification)
      ensures old(data).Some? ==> !loading && posted == BackendData(old(data).value, toIso)
      ensures old(data).Some? && posted.None? ==>
        data == old(data) && notification == Notification(true, "Save failed: Invalid time value", "error")
      ensures posted.Some? && response.Posted? ==>
        data == Some(Map(posted.value, TaskRecord)) && notification == Notification(true, "Data saved with backend-generated IDs!", "success")
      ensures posted.Some? && response.PostFailed? ==>
        data == old(data) && notification == Notification(true, "Save failed: " + OrElse(response.errorMessage, response.message), "error")
    {
      posted := None;
      if data.None? {
        return;
      }
      loading := true;
      posted := BackendData(data.value, toIso);
      if posted.None? {
        notification := Notification(true, "Save failed: Invalid time value", "error");
      } else {
        match response
        case Posted =>
          data := Some(Map(posted.value, TaskRecord));
          notification := Notification(true, "Data saved with backend-generated IDs!", "success");
        case PostFailed(errorMessage, message) =>
          notification := Notification(true, "Save failed: " + OrElse(errorMessage, message), "error");
      }
      loading := false;
    }
  }
}
