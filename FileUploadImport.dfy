/**
 * The file-import page: choosing a CSV or Excel file, validating the rows the
 * spreadsheet parser produced, turning them into task records for the
 * back end, and saving them with a bulk-import request.
 *
 * The parsers (XLSX, PapaParse) and the HTTP request are inputs: a parsed
 * file is a sequence of rows, each an ordered list of cell properties.
 */
module FileUploadImport {
  import opened Js
  import opened Seqs
  import opened Text
  import opened Records
  import opened AlertSlice

  /** The fields every row must provide, in the order their absence is reported. */
  const RequiredFields: seq<string> := ["title", "description", "duedate"]

  /** `Object.keys(row).find(key => normalizeKey(key) === normalized)`: the first key that
      normalises to `normalized`, if any. */
  function MatchingKey(row: Record, normalized: string): (r: Option<string>)
    ensures r.None? <==> forall i :: 0 <= i < |row| ==> NormalizeKey(row[i].key) != normalized
    ensures r.Some? ==> NormalizeKey(r.value) == normalized
  {
    if row == [] then None
    else if NormalizeKey(row[0].key) == normalized then Some(row[0].key)
    else MatchingKey(row[1..], normalized)
  }

  /** `item[key]`, where an `undefined` key is converted to the property name "undefined". */
  function Lookup(item: Record, key: Option<string>): Option<string>
  {
    Get(item, if key.Some? then key.value else "undefined")
  }

  /** The test in `validateRow`: some key normalises to the field and its value is truthy. */
  predicate Present(row: Record, field: string)
  {
    var matchingKey := MatchingKey(row, NormalizeKey(field));
    matchingKey.Some? && Truthy(Get(row, matchingKey.value))
  }

  function IsMissing(row: Record): string -> bool
  {
    field => !Present(row, field)
  }

  function MissingMessage(field: string): string
  {
    "Missing " + field
  }

  /** The required fields the row lacks, in required-field order. */
  function MissingFields(row: Record): (r: seq<string>)
    ensures forall i :: 0 <= i < |r| ==> r[i] in RequiredFields && !Present(row, r[i])
    ensures forall k :: 0 <= k < |RequiredFields| && !Present(row, RequiredFields[k]) ==> RequiredFields[k] in r
  {
    FilterMembers(RequiredFields, IsMissing(row));
    Filter(RequiredFields, IsMissing(row))
  }

  /** What `validateRow(row, index)` throws, or `None` when it returns normally. */
  function RowValidation(row: Record, index: nat): Option<string>
  {
    var missing := MissingFields(row);
    if missing == [] then None
    else Some("Row " + NatToString(index + 1) + ": " + Join(Map(missing, MissingMessage), "; "))
  }

  /** A row fails validation exactly when some required field is missing from it; the message
      names the row counting from 1 and lists the missing fields in required-field order. */
  lemma RowValidationFacts(row: Record, index: nat)
    ensures RowValidation(row, index).None? <==> forall k :: 0 <= k < |RequiredFields| ==> Present(row, RequiredFields[k])
    ensures RowValidation(row, index).Some? ==>
      RowValidation(row, index).value == "Row " + NatToString(index + 1) + ": " + Join(Map(MissingFields(row), MissingMessage), "; ")
  {
  }

  /** The `forEach` of `validateRow` over `fields`: one `Missing <field>` message for every field
      the row lacks, in order. */
  method CollectMissing(row: Record, fields: seq<string>) returns (errors: seq<string>)
    ensures errors == Map(Filter(fields, IsMissing(row)), MissingMessage)
  {
    errors := [];
    var i := 0;
    while i < |fields|
      invariant 0 <= i <= |fields|
      invariant errors == Map(Filter(fields[..i], IsMissing(row)), MissingMessage)
    {
      var field := fields[i];
      var matchingKey := MatchingKey(row, NormalizeKey(field));
      FilterSnoc(fields, i, IsMissing(row));
      if matchingKey.None? || !Truthy(Get(row, matchingKey.value)) {
        MapSnoc(Filter(fields[..i], IsMissing(row)), field, MissingMessage);
        errors := errors + ["Missing " + field];
      }
      i := i + 1;
    }
    assert fields[..i] == fields;
  }

  /** `validateRow`: fails with every missing field of the row at once. */
  method ValidateRow(row: Record, index: nat) returns (err: Option<string>)
    ensures err == RowValidation(row, index)
  {
    var errors := CollectMissing(row, RequiredFields);
    if |errors| > 0 {
      err := Some("Row " + NatToString(index + 1) + ": " + Join(errors, "; "));
    } else {
      err := None;
    }
  }

  /** The error of the first row, scanning from `from`, that `check` rejects. */
  function FirstError(rows: seq<Record>, from: nat, check: (Record, nat) -> Option<string>): (r: Option<string>)
    ensures r.None? <==> forall j :: from <= j < |rows| ==> check(rows[j], j).None?
    ensures r.Some? ==> exists k :: from <= k < |rows| && r == check(rows[k], k)
    decreases |rows| - from
  {
    if from >= |rows| then None
    else if check(rows[from], from).Some? then check(rows[from], from)
    else FirstError(rows, from + 1, check)
  }

  /** The error of the first row that fails validation. */
  function FirstRowError(rows: seq<Record>): Option<string>
  {
    FirstError(rows, 0, RowValidation)
  }

  /** `rawData.forEach((row, index) => validateRow(row, index))`: stops at the first row that throws. */
  method ValidateRows(rows: seq<Record>) returns (failure: Option<string>)
    ensures failure == FirstRowError(rows)
  {
    failure := None;
    var i := 0;
    while i < |rows| && failure.None?
      invariant 0 <= i <= |rows|
      invariant failure.None? ==> FirstRowError(rows) == FirstError(rows, i, RowValidation)
      invariant failure.Some? ==> failure == FirstRowError(rows)
    {
      failure := ValidateRow(rows[i], i);
      i := i + 1;
    }
  }

  /** The due date of an imported task: `formatDate` of the cell, or today's date when the cell
      is empty. Both are `YYYY-MM-DD` strings, so never empty. */
  datatype DueDate = FormattedFrom(raw: string) | Today

  /** A record in the shape the bulk-import endpoint takes; `taskId` is added after a save. */
  datatype ImportedTask = ImportedTask(title: string, description: string, dueDate: DueDate,
                                       priority: string, status: string, taskId: Option<string>)

  /** `s.charAt(0).toUpperCase() + s.slice(1).toLowerCase()`. */
  function Capitalize(s: string): (r: string)
    requires s != []
    ensures |r| == |s| && !IsAsciiLower(r[0])
    ensures forall i :: 1 <= i < |r| ==> !IsAsciiUpper(r[i])
    ensures ToLower(r) == ToLower(s)
  {
    LowerOfUpper(s[0]);
    [UpperChar(s[0])] + ToLower(s[1..])
  }

  /** The object `transformToBackendFormat` builds from one row, before the title filter. */
  function ToBackend(item: Record): (r: ImportedTask)
    ensures r.priority != "" && r.taskId.None?
    ensures Truthy(Get(item, "status")) ==> r.status == Get(item, "status").value
    ensures !Truthy(Get(item, "status")) ==> r.status == "Pending"
    ensures !Truthy(Get(item, "priority")) ==> r.priority == "Medium"
    ensures Truthy(Get(item, "priority")) ==> ToLower(r.priority) == ToLower(Get(item, "priority").value)
  {
    var title := Lookup(item, MatchingKey(item, "title"));
    var description := Lookup(item, MatchingKey(item, "description"));
    var date := Lookup(item, MatchingKey(item, "duedate"));
    var priority := Get(item, "priority");
    ImportedTask(
      OrElse(title, ""),
      OrElse(description, ""),
      if Truthy(date) then FormattedFrom(date.value) else Today,
      if Truthy(priority) then Capitalize(priority.value) else "Medium",
      OrElse(Get(item, "status"), "Pending"),
      None)
  }

  predicate HasTitle(t: ImportedTask) { t.title != "" }

  /** `transformToBackendFormat`: one record per row, in order, without those whose title is empty. */
  function TransformToBackendFormat(rows: seq<Record>): (r: seq<ImportedTask>)
    ensures |r| <= |rows|
    ensures forall i :: 0 <= i < |r| ==> r[i].title != "" && r[i] in Map(rows, ToBackend)
  {
    FilterMembers(Map(rows, ToBackend), HasTitle);
    Filter(Map(rows, ToBackend), HasTitle)
  }

  /** The transform treats rows independently and keeps their order. */
  lemma TransformConcat(a: seq<Record>, b: seq<Record>)
    ensures TransformToBackendFormat(a + b) == TransformToBackendFormat(a) + TransformToBackendFormat(b)
  {
    MapConcat(a, b, ToBackend);
    FilterConcat(Map(a, ToBackend), Map(b, ToBackend), HasTitle);
  }

  /** A row that passes validation has a title cell with a non-empty value, and it becomes the
      record's title. */
  lemma ValidRowTitle(row: Record, index: nat)
    requires RowValidation(row, index).None?
    ensures MatchingKey(row, "title").Some? && Truthy(Get(row, MatchingKey(row, "title").value))
    ensures ToBackend(row).title == Get(row, MatchingKey(row, "title").value).value != ""
  {
    RowValidationFacts(row, index);
    assert Present(row, RequiredFields[0]);
    TitlePresent(row);
  }

  lemma TitlePresent(row: Record)
    requires Present(row, RequiredFields[0])
    ensures MatchingKey(row, "title").Some? && Truthy(Get(row, MatchingKey(row, "title").value))
  {
    var title := RequiredFields[0];
    NormalizeKeyOfNormal(title);
    PresentNormal(row, title);
  }

  /** For a field that is its own normal form, `Present` is the test on the field itself. */
  lemma PresentNormal(row: Record, field: string)
    requires NormalizeKey(field) == field && Present(row, field)
    ensures MatchingKey(row, field).Some? && Truthy(Get(row, MatchingKey(row, field).value))
  {
  }

  /** When every row passes validation, the transform drops none of them. */
  lemma {:induction false} TransformKeepsValidRows(rows: seq<Record>)
    requires forall j :: 0 <= j < |rows| ==> RowValidation(rows[j], j).None?
    ensures TransformToBackendFormat(rows) == Map(rows, ToBackend)
  {
    forall i | 0 <= i < |rows|
      ensures HasTitle(Map(rows, ToBackend)[i])
    {
      ValidRowTitle(rows[i], i);
    }
    FilterIdentity(Map(rows, ToBackend), HasTitle);
  }

  /** The outcome of validating and transforming a parsed file: the first failing row aborts
      the whole import. */
  function ImportOutcome(rows: seq<Record>): Result<seq<ImportedTask>>
  {
    match FirstRowError(rows)
    case Some(message) => Err(message)
    case None => Ok(TransformToBackendFormat(rows))
  }

  /** The body of the `try` in `handleImport` once the file is parsed: validate every row, then
      transform them all. */
  method ImportRows(rawData: seq<Record>) returns (outcome: Result<seq<ImportedTask>>)
    ensures outcome == ImportOutcome(rawData)
  {
    var failure := ValidateRows(rawData);
    if failure.Some? {
      outcome := Err(failure.value);
    } else {
      outcome := Ok(TransformToBackendFormat(rawData));
    }
  }

  /** An import fails exactly when some row fails validation, and a successful import yields
      one record per row. */
  lemma ImportOutcomeFacts(rows: seq<Record>)
    ensures ImportOutcome(rows).Err? <==> exists k :: 0 <= k < |rows| && RowValidation(rows[k], k).Some?
    ensures ImportOutcome(rows).Ok? ==> ImportOutcome(rows).value == Map(rows, ToBackend)
  {
    if FirstRowError(rows).None? {
      TransformKeepsValidRows(rows);
    }
  }

  /** The check `handleSaveData` makes before posting. The due date is a formatted date string
      and therefore always truthy. */
  predicate SaveValid(t: ImportedTask) { t.title != "" && t.priority != "" }

  /** Every record an import produces passes the check before saving, so the save never drops one. */
  lemma ImportedDataIsSaveValid(rows: seq<Record>)
    ensures Filter(TransformToBackendFormat(rows), SaveValid) == TransformToBackendFormat(rows)
  {
    FilterIdentity(TransformToBackendFormat(rows), SaveValid);
  }

  /** The taskId the save response gives record `i`, or `'Not assigned'`: never empty, taken
      from entry `i` of the response and from no other, and a real id whenever that entry has one. */
  function TaskIdAt(ids: seq<Option<string>>, i: nat): (r: string)
    ensures r != ""
    ensures r == "Not assigned" || (i < |ids| && ids[i] == Some(r))
    ensures i < |ids| && Truthy(ids[i]) ==> r == ids[i].value
  {
    OrElse(if i < |ids| then ids[i] else None, "Not assigned")
  }

  /** `prev.map((item, index) => ({...item, taskId: ...}))`. */
  function MergeTaskIds(data: seq<ImportedTask>, ids: seq<Option<string>>): (r: seq<ImportedTask>)
    ensures |r| == |data|
    ensures forall i :: 0 <= i < |r| ==> r[i].taskId == Some(TaskIdAt(ids, i))
    ensures forall i :: 0 <= i < |r| ==>
      r[i].title == data[i].title && r[i].description == data[i].description && r[i].dueDate == data[i].dueDate
      && r[i].priority == data[i].priority && r[i].status == data[i].status
  {
    seq(|data|, i requires 0 <= i < |data| => data[i].(taskId := Some(TaskIdAt(ids, i))))
  }

  /** `Object.keys` of an imported record: the five fields in construction order, then
      `taskId` once a save has assigned one. */
  function TaskKeys(t: ImportedTask): seq<string>
  {
    ["title", "description", "dueDate", "priority", "status"] + (if t.taskId.Some? then ["taskId"] else [])
  }

  /** The preview's columns: the keys of the first record other than `id`. */
  function Columns(data: seq<ImportedTask>): (r: seq<string>)
    ensures data == [] ==> r == []
    ensures data != [] ==> r == TaskKeys(data[0])
    ensures forall i :: 0 <= i < |r| ==> r[i] != "id"
  {
    if data == [] then []
    else
      FilterIdentity(TaskKeys(data[0]), NotId);
      Filter(TaskKeys(data[0]), NotId)
  }

  predicate NotId(key: string) { key != "id" }

  lemma ColumnsAfterSave(data: seq<ImportedTask>, ids: seq<Option<string>>)
    requires data != []
    ensures Columns(MergeTaskIds(data, ids)) == ["title", "description", "dueDate", "priority", "status", "taskId"]
  {
  }

  datatype UploadFile = UploadFile(name: string, mimeType: string)

  const ValidTypes: seq<string> := [
    "text/csv",
    "application/vnd.ms-excel",
    "application/vnd.openxmlformats-officedocument.spreadsheetml.sheet"
  ]

  /** `name.match(/\.(csv|xlsx|xls)$/i)`. */
  predicate HasSpreadsheetExtension(name: string)
  {
    var n := ToLower(name);
    EndsWith(n, ".csv") || EndsWith(n, ".xlsx") || EndsWith(n, ".xls")
  }

  /** The file-type check of `handleFileChange`. */
  predicate Accepted(f: UploadFile)
  {
    f.mimeType in ValidTypes || HasSpreadsheetExtension(f.name)
  }

  datatype Parser = Excel | Csv

  /** `file.name.match(/\.xlsx?$/i)` chooses the Excel reader, anything else goes to PapaParse. */
  function ParserFor(name: string): (p: Parser)
    ensures p == Excel ==> HasSpreadsheetExtension(name)
    ensures p == Csv && HasSpreadsheetExtension(name) ==> EndsWith(ToLower(name), ".csv")
  {
    var n := ToLower(name);
    if EndsWith(n, ".xlsx") || EndsWith(n, ".xls") then Excel else Csv
  }

  /** A file accepted for its Excel MIME type alone is handed to the CSV parser. */
  lemma ExcelTypeWithoutExtensionIsParsedAsCsv()
    ensures Accepted(UploadFile("tasks", "application/vnd.ms-excel"))
    ensures ParserFor("tasks") == Csv
  {
    assert ValidTypes[1] == "application/vnd.ms-excel";
    ToLowerOfLower("tasks");
    assert !EndsWith("tasks", ".xlsx") && !EndsWith("tasks", ".xls") by {
      assert "tasks"[0] != ".xlsx"[0];
      assert "tasks"[1] != ".xls"[0];
    }
  }

  /** `triggerAlert(message, severity)`. */
  function Notice(message: string, severity: string): AlertProps
  {
    AlertProps(message, severity, Some(Position("20px", "20px")), Some(6000))
  }

  /** The outcome of the import once the parser has run or failed. */
  function ImportFrom(parsed: Result<seq<Record>>): Result<seq<ImportedTask>>
  {
    if parsed.Err? then Err(parsed.message) else ImportOutcome(parsed.value)
  }

  /** Parsing failed, or the rows were validated and transformed. */
  method ImportParsed(parsed: Result<seq<Record>>) returns (outcome: Result<seq<ImportedTask>>)
    ensures outcome == ImportFrom(parsed)
  {
    if parsed.Err? {
      return Err(parsed.message);
    }
    outcome := ImportRows(parsed.value);
  }

  /** What the bulk-import request returns: its data (an array of objects that may carry a
      taskId, or something else), or an error with the optional response body fields. */
  datatype SaveResponse =
    | Saved(data: Option<seq<Option<string>>>)
    | SaveFailed(details: Option<seq<string>>, errorText: Option<string>, message: string)

  /** `error.response?.data?.details?.join(', ') || error.response?.data?.error || error.message`:
      the most specific explanation the failure offers. Non-empty details win over the error
      text, which wins over the message; the result is one of the three and is never empty when
      the message is not. */
  function SaveErrorMessage(details: Option<seq<string>>, errorText: Option<string>, message: string): (r: string)
    ensures message != "" ==> r != ""
    ensures r == message || (Truthy(errorText) && r == errorText.value) || (details.Some? && r == Join(details.value, ", "))
    ensures details.Some? && Join(details.value, ", ") != "" ==> r == Join(details.value, ", ")
    ensures !(details.Some? && Join(details.value, ", ") != "") && Truthy(errorText) ==> r == errorText.value
  {
    var joined := if details.Some? then Some(Join(details.value, ", ")) else None;
    OrElse(Or(joined, errorText), message)
  }

  class FileUploadImportPage {
    var file: Option<UploadFile>
    var loading: bool
    var error: string
    var importedData: seq<ImportedTask>
    var isDataLoaded: bool
    var fileName: string

    constructor ()
      ensures file == None && !loading && error == "" && importedData == [] && !isDataLoaded && fileName == ""
    {
      file := None;
      loading := false;
      error := "";
      importedData := [];
      isDataLoaded := false;
      fileName := "";
    }

    /** `handleFileChange`: an accepted file replaces the selection and clears the preview; a
        rejected one only sets the error. */
    method HandleFileChange(selected: Option<UploadFile>)
      modifies this
      ensures loading == old(loading)
      ensures selected.None? ==>
        file == old(file) && error == old(error) && importedData == old(importedData)
        && isDataLoaded == old(isDataLoaded) && fileName == old(fileName)
      ensures selected.Some? && !Accepted(selected.value) ==>
        error == "Please upload a valid CSV or Excel file" && file == old(file)
        && importedData == old(importedData) && isDataLoaded == old(isDataLoaded) && fileName == old(fileName)
      ensures selected.Some? && Accepted(selected.value) ==>
        error == "" && file == selected && fileName == selected.value.name
        && importedData == [] && !isDataLoaded
    {
      if selected.Some? {
        var f := selected.value;
        if !(f.mimeType in ValidTypes) && !HasSpreadsheetExtension(f.name) {
          error := "Please upload a valid CSV or Excel file";
          return;
        }
        error := "";
        file := selected;
        fileName := f.name;
        importedData := [];
        isDataLoaded := false;
      }
    }

    /** `handleImport`: parses the selected file, validates every row in order and only then
        transforms and stores the records. `parse` stands for the two parser libraries. */
    method HandleImport(parse: Parser -> Result<seq<Record>>, alerts: Alerts)
      modifies this, alerts
      ensures file == old(file) && fileName == old(fileName)
      ensures old(file).None? ==>
        error == "Please select a file first" && loading == old(loading)
        && importedData == old(importedData) && isDataLoaded == old(isDataLoaded)
        && alerts.alertProps == old(alerts.alertProps)
      ensures old(file).Some? ==> Imported(old(importedData), old(isDataLoaded), ImportFrom(parse(ParserFor(old(file).value.name))), alerts)
    {
      if file.None? {
        error := "Please select a file first";
        return;
      }
      loading := true;
      error := "";
      var parsed := parse(ParserFor(file.value.name));
      var outcome := ImportParsed(parsed);
      Apply(outcome, alerts);
    }

    /** The page after an import with the given outcome: the records and a success notice, or
        the unchanged preview with the error message shown twice. */
    ghost predicate Imported(oldData: seq<ImportedTask>, oldLoaded: bool, outcome: Result<seq<ImportedTask>>, alerts: Alerts)
      reads this, alerts
    {
      && !loading
      && (outcome.Ok? ==>
            importedData == outcome.value && isDataLoaded && error == ""
            && alerts.alertProps == Some(Notice("Successfully imported " + NatToString(|outcome.value|) + " records", "success")))
      && (outcome.Err? ==>
            importedData == oldData && isDataLoaded == oldLoaded && error == outcome.message
            && alerts.alertProps == Some(Notice("Import failed: " + outcome.message, "error")))
    }

    /** The `try` block's two ways out, once the outcome is known. */
    method Apply(outcome: Result<seq<ImportedTask>>, alerts: Alerts)
      requires error == ""
      modifies this, alerts
      ensures file == old(file) && fileName == old(fileName)
      ensures Imported(old(importedData), old(isDataLoaded), outcome, alerts)
    {
      if outcome.Err? {
        error := outcome.message;
        alerts.ShowAlert(Notice("Import failed: " + outcome.message, "error"));
      } else {
        var processedData := outcome.value;
        importedData := processedData;
        isDataLoaded := true;
        alerts.ShowAlert(Notice("Successfully imported " + NatToString(|processedData|) + " records", "success"));
      }
      loading := false;
    }

    /** `handleSaveData`: posts the records only when none fails the final check, then merges
        the task ids of an array response. `response` stands for the POST's outcome; `posted`
        is the request body, `None` when nothing was sent. */
    method HandleSaveData(response: SaveResponse, alerts: Alerts) returns (posted: Option<seq<ImportedTask>>)
      modifies this, alerts
      ensures file == old(file) && error == old(error) && isDataLoaded == old(isDataLoaded) && fileName == old(fileName)
      ensures posted.Some? <==> |old(importedData)| > 0 && forall i :: 0 <= i < |old(importedData)| ==> SaveValid(old(importedData)[i])
      ensures posted.Some? ==> posted.value == old(importedData)
      ensures |old(importedData)| == 0 ==> loading == old(loading) && alerts.alertProps == old(alerts.alertProps)
      ensures |old(importedData)| > 0 ==> !loading
      ensures |old(importedData)| > 0 && posted.None? ==>
        alerts.alertProps == Some(Notice("Save failed: Some data failed validation and was removed", "error"))
      ensures posted.Some? && response.Saved? ==>
        alerts.alertProps == Some(Notice("Successfully saved " + NatToString(|posted.value|) + " tasks", "success"))
      ensures posted.Some? && response.SaveFailed? ==>
        alerts.alertProps == Some(Notice("Save failed: " + SaveErrorMessage(response.details, response.errorText, response.message), "error"))
      ensures posted.Some? && response.Saved? && response.data.Some? ==>
        importedData == MergeTaskIds(old(importedData), response.data.value)
      ensures !(posted.Some? && response.Saved? && response.data.Some?) ==> importedData == old(importedData)
    {
      posted := None;
      if |importedData| == 0 {
        return;
      }
      loading := true;
      var validData := Filter(importedData, SaveValid);
      FilterIdentity(importedData, SaveValid);
      if |validData| != |importedData| {
        alerts.ShowAlert(Notice("Save failed: Some data failed validation and was removed", "error"));
      } else {
        if validData != importedData {
          var k :| 0 <= k < |importedData| && !SaveValid(importedData[k]);
          FilterShorter(importedData, SaveValid, k);
        }
        posted := Some(validData);
        match response {
          case SaveFailed(details, errorText, message) =>
            alerts.ShowAlert(Notice("Save failed: " + SaveErrorMessage(details, errorText, message), "error"));
          case Saved(data) =>
            alerts.ShowAlert(Notice("Successfully saved " + NatToString(|validData|) + " tasks", "success"));
            if data.Some? {
              importedData := MergeTaskIds(importedData, data.value);
            }
        }
      }
      loading := false;
    }
  }
}
