# Task manager front end in Dafny

This project models the client-side logic of a React/Redux task manager and proves properties of that model. The app lets a signed-in user list, sort, search, complete and delete tasks. Users can bulk-import tasks from a CSV/Excel file or a Google Sheet, and export data as Excel or CSV. The client keeps an access/refresh token pair in the Redux store and in `localStorage`, and re-authenticates when a request is refused with 401.

Each source file of the core has its own module:

- `FileUploadImport` is the file import page: row validation against the required fields, the transform to the backend shape, the import and save handlers, and the preview columns.
- `GoogleSheetImport` is the sheet import page:
  - the sheet-link parsing and the fetch checks;
  - header normalisation and validation;
  - the row-to-record reduce with its defaults;
  - the column rename;
  - the mapping sent to the backend.
- `TaskList` is the task list page: the comparator and the sort, the search filter, the list updates after complete/delete, the colour maps, and the sort/search/page controls.
- `ExportPage` covers the export page: the CSV text and the format dispatch.
- `PdfMaker` builds the 12-month analytics table.
- `TokenSlice`, `AlertSlice`, `DialogSlice` and `UserSlice` are the Redux slices. `ApiSlice` holds the header preparation, the re-authentication policy and the mutation alerts. `Router` has the route guards and the route table.
- `Js`, `Seqs`, `Text` and `Records` are shared helpers:
  - JavaScript truthiness and `||`;
  - `filter`/`map`/`join`/`includes`;
  - ASCII case mapping, `trim()` white space and key normalisation;
  - JavaScript objects as ordered lists of properties, with `obj[k] = v`, `delete` and spread.

The form follows the source:
- Redux reducers that assign into the draft are classes whose methods modify fields.
- The component handlers that call state setters step by step are methods of a page class.
- Expressions (the comparator, the filters, the URL and message builders) are functions with lemmas.
- Loops in the source (the `reduce` into an accumulator, the `forEach` pushes, the 12-month loop) are methods with loop invariants. Each is proved equal to a reference function, or to the property directly.

The network, the file readers, PapaParse, XLSX, jsPDF and the clock are parameters: an oracle function or an already-parsed value.

## Model

| member | source | states |
|---|---|---|
| Js.OrElse | src/components/FileUploadImport.js:72-73 | `v \|\| fallback` is empty only when the value is falsy and the fallback empty, and a truthy value always wins over the fallback |
| Js.Or | src/Features/API/apiSlice.js:10-11 | `a \|\| b` is truthy iff either operand is, and is `a` whenever `a` is truthy |
| Js.OrElseLaws | src/components/FileUploadImport.js:208-211 | a chain `a \|\| b \|\| f` groups either way, the same fallback applied twice is applied once, and an empty fallback gives the value or "" |
| Seqs.FilterMembers | src/pages/Task/index.js:134-137 | a filter keeps only elements of its input that pass, and keeps every element that passes |
| Seqs.FilterConcat | src/components/FileUploadImport.js:80 | filtering distributes over concatenation, so relative order is preserved |
| Seqs.FilterIdentity | src/components/FileUploadImport.js:183-186 | a filter returns its input unchanged iff every element passes |
| Seqs.JoinCount | src/pages/Export/index.js:47-50 | a separator without `c` adds no `c` to a join |
| Seqs.JoinCountSeparator | src/pages/Export/index.js:50 | joining with a one-character separator adds exactly `\|parts\| - 1` of it |
| Seqs.JoinStartsWith | src/pages/Export/index.js:47-48 | a join starts with its first part |
| Seqs.ContainsAt | src/pages/Task/index.js:135-136 | `includes` holds iff the substring occurs at some offset |
| Text.ToLowerIdempotent | src/pages/Task/index.js:149 | lower-casing twice is lower-casing once |
| Text.ContainsToLower | src/pages/Task/index.js:135-136 | an occurrence survives lower-casing both strings |
| Text.TrimFacts | src/components/GoogleSheetImport.js:115 | `trim()` leaves no white space at either end, and the result is empty iff the input is all white space |
| Text.RemoveSpaces | src/components/GoogleSheetImport.js:99 | `replace(/\s+/g, "")` leaves no white-space character |
| Text.NormalizeKeyFacts | src/components/FileUploadImport.js:47-49 | a normalised key has only `[a-z0-9]` characters and is no longer than the key |
| Text.NormalizeKeyIdempotent | src/components/FileUploadImport.js:47-49 | normalising twice is normalising once |
| Text.NormalizeKeyOfNormal | src/components/FileUploadImport.js:54 | a key already made of `[a-z0-9]` is its own normal form |
| Text.NatToStringRoundTrip | src/components/GoogleSheetImport.js:127 | reading back the decimal digits of a row number gives the number |
| Text.NatToStringInjective | src/components/GoogleSheetImport.js:127 | different row numbers give different `row-<idx>` ids |
| Records.GetFacts | src/components/GoogleSheetImport.js:130 | reading a property finds it iff the key is present, with the value of its first occurrence |
| Records.GetSet | src/components/GoogleSheetImport.js:123 | after `obj[k] = v`, `k` reads `v` and every other key reads as before |
| Records.GetDelete | src/components/GoogleSheetImport.js:204 | after `delete obj[k]`, `k` is absent and every other key reads as before |
| Records.GetSpread | src/components/GoogleSheetImport.js:126-132 | in `{...base, ...props}` a key of `props` wins, even when its value is empty, and other keys come from `base` |
| Records.SetUnique | src/components/GoogleSheetImport.js:123 | assignment keeps keys unique |
| Records.SpreadUnique | src/components/GoogleSheetImport.js:126-132 | spreading keeps keys unique |
| AlertSlice.Alerts.constructor | src/Features/alerter/alertSlice.js:3-5 | the initial state has no alert |
| AlertSlice.Alerts.ShowAlert | src/Features/alerter/alertSlice.js:11-13 | the state becomes exactly the payload |
| AlertSlice.Alerts.CloseAlert | src/Features/alerter/alertSlice.js:14-16 | the state becomes null from any state, so closing twice is closing once |
| AlertSlice.ShowThenClose | src/Features/alerter/alertSlice.js:3-16 | show then close (once or twice) returns the slice to its initial state |
| DialogSlice.Dialogs.constructor | src/Features/DialogBox/dialogSlice.js:3-6 | initially no confirmation dialog and the notification dialog closed |
| DialogSlice.Dialogs.ShowConfirmDialog | src/Features/DialogBox/dialogSlice.js:12-14 | sets the dialog to the payload and leaves the flag alone |
| DialogSlice.Dialogs.CloseConfirmDialog | src/Features/DialogBox/dialogSlice.js:15-17 | clears the dialog and leaves the flag alone |
| DialogSlice.Dialogs.ToggleNotificationDialog | src/Features/DialogBox/dialogSlice.js:18-20 | negates the flag and nothing else |
| DialogSlice.ToggleTwiceIsIdentity | src/Features/DialogBox/dialogSlice.js:18-20 | toggling twice restores the whole state |
| TokenSlice.LocalStorage.SetItem | src/Features/Token/tokenSlice.js:48 | `setItem` sets exactly that key |
| TokenSlice.LocalStorage.RemoveItem | src/Features/Token/tokenSlice.js:61 | `removeItem` removes exactly that key |
| TokenSlice.Initial | src/Features/Token/tokenSlice.js:32-38 | the initial state read from storage; stated by InitialAuthentication |
| TokenSlice.WithTokens | src/Features/Token/tokenSlice.js:40-56 | `setTokens` on state and storage; stated by WithTokensFacts |
| TokenSlice.Cleared | src/Features/Token/tokenSlice.js:57-74 | `logoutUser` and `clearTokens` on state and storage; stated by ClearedFacts |
| TokenSlice.Fulfilled | src/Features/Token/tokenSlice.js:85-88 | the fulfilled verification; stated by FulfilledFacts |
| TokenSlice.Rejected | src/Features/Token/tokenSlice.js:89-101 | the rejected verification; stated by RejectedFacts |
| TokenSlice.InitialAuthentication | src/Features/Token/tokenSlice.js:32-38 | the store starts authenticated iff storage holds a non-empty access token, not loading and with no error |
| TokenSlice.WithTokensFacts | src/Features/Token/tokenSlice.js:40-56 | `setTokens` sets both tokens, authenticates iff the access token is truthy, writes a storage key only for a truthy token and leaves the other keys and the request state alone |
| TokenSlice.ReloadAfterSetTokens | src/Features/Token/tokenSlice.js:32-56 | after `setTokens` with a truthy access token, a reload starts authenticated with that token |
| TokenSlice.ClearedFacts | src/Features/Token/tokenSlice.js:57-74 | logout and clear sign out (both tokens null, not authenticated, both keys removed), are idempotent, and keep other keys, `loading` and `error` |
| TokenSlice.ReloadAfterSignOut | src/Features/Token/tokenSlice.js:32-35 | a reload after signing out starts signed out |
| TokenSlice.RejectedFacts | src/Features/Token/tokenSlice.js:89-101 | a rejected verification signs out, stops loading and records the payload |
| TokenSlice.FulfilledFacts | src/Features/Token/tokenSlice.js:85-88 | a fulfilled verification authenticates without touching tokens, storage or error |
| TokenSlice.TokenStore.constructor | src/Features/Token/tokenSlice.js:32-38 | the state is the initial state computed from storage |
| TokenSlice.TokenStore.SetTokens | src/Features/Token/tokenSlice.js:40-56 | the new state and storage are `WithTokens` of the old |
| TokenSlice.TokenStore.LogoutUser | src/Features/Token/tokenSlice.js:57-63 | the new state and storage are `Cleared` of the old |
| TokenSlice.TokenStore.ClearTokens | src/Features/Token/tokenSlice.js:64-74 | the new state and storage are `Cleared` of the old |
| TokenSlice.TokenStore.SetAuthStatus | src/Features/Token/tokenSlice.js:75-77 | only the flag changes |
| TokenSlice.TokenStore.VerifyPending | src/Features/Token/tokenSlice.js:81-84 | loading, no error, nothing else changes |
| TokenSlice.TokenStore.VerifyFulfilled | src/Features/Token/tokenSlice.js:85-88 | the new state is `Fulfilled` of the old |
| TokenSlice.TokenStore.VerifyRejected | src/Features/Token/tokenSlice.js:89-101 | the new state and storage are `Rejected` of the old |
| ApiSlice.Headers.Set | src/Features/API/apiSlice.js:13-15 | `headers.set` overwrites or appends exactly that header |
| ApiSlice.PreparedGet | src/Features/API/apiSlice.js:9-17 | `Content-Type` is always JSON, `Authorization` is `Bearer <token>` exactly when a token is truthy, and other headers are kept |
| ApiSlice.Prepared | src/Features/API/apiSlice.js:9-17 | the headers after `prepareHeaders`; stated by PreparedGet |
| ApiSlice.BearerToken | src/Features/API/apiSlice.js:10-11 | the token used: the state's, else the stored one; stated by BearerTokenPrefersState |
| ApiSlice.BearerTokenPrefersState | src/Features/API/apiSlice.js:10-11 | the state's access token wins, otherwise the stored one is used |
| ApiSlice.PrepareHeaders | src/Features/API/apiSlice.js:9-17 | the headers become `Prepared` of the old headers with the session's bearer token |
| ApiSlice.Reauth | src/Features/API/apiSlice.js:20-69 | the re-authentication policy as a value; stated by ReauthCallBound, PassThrough, NoRefreshTokenSignsOut, FailedRefreshSignsOut and RetryCarriesNewToken |
| ApiSlice.ReauthCallBound | src/Features/API/apiSlice.js:20-69 | one run makes at most three base-query calls |
| ApiSlice.PassThrough | src/Features/API/apiSlice.js:21-68 | an answer other than 401 is returned unchanged after one call, with nothing else done |
| ApiSlice.NoRefreshTokenSignsOut | src/Features/API/apiSlice.js:24-65 | a 401 with no refresh token signs out after one call and returns the 401 |
| ApiSlice.FailedRefreshSignsOut | src/Features/API/apiSlice.js:29-62 | a refresh without data signs out, raises the session-expired alert and returns the original 401 |
| ApiSlice.RetryCarriesNewToken | src/Features/API/apiSlice.js:39-50 | a successful refresh stores the new tokens and retries the same request once with the new bearer token, returning the retry's result |
| ApiSlice.BaseQueryWithReauth | src/Features/API/apiSlice.js:20-69 | the result, the calls, the new session and the alert are those of the `Reauth` policy |
| ApiSlice.GetDataQuery | src/Features/API/apiSlice.js:76-79 | `getData(url)` fetches the URL with GET and no body |
| ApiSlice.MutationQuery | src/Features/API/apiSlice.js:80-151 | the request of a mutation; stated by MutationMethodsDistinct |
| ApiSlice.MutationMethodsDistinct | src/Features/API/apiSlice.js:80-151 | each mutation sends the caller's URL and body with its own method (POST, PUT, DELETE), none of them GET |
| ApiSlice.SuccessMessage | src/Features/API/apiSlice.js:94-162 | the custom message when truthy, otherwise `<reqName \|\| data.reqName \|\| "Item"> <verb>ed successfully!`, never empty |
| ApiSlice.ErrorMessage | src/Features/API/apiSlice.js:103-172 | the custom message, then the error's message, then `Failed to <verb> <reqName \|\| "item">.`, never empty |
| ApiSlice.QueryAlert | src/Features/API/apiSlice.js:92-109 | the alert is a success after fulfilment and an error otherwise, has a non-empty message and no position or duration |
| FileUploadImport.MatchingKey | src/components/FileUploadImport.js:55 | the key found iff some key normalises to the field, and it does normalise to it |
| FileUploadImport.RowValidation | src/components/FileUploadImport.js:51-63 | the row check as a value: no error, or `Row <index+1>: ` and the missing-field messages; its meaning is stated by RowValidationFacts |
| FileUploadImport.MissingFields | src/components/FileUploadImport.js:53-59 | exactly the required fields the row lacks (no matching key, or a falsy value) |
| FileUploadImport.RowValidationFacts | src/components/FileUploadImport.js:51-63 | a row passes iff every required field is present, and the message is `Row <index+1>: ` followed by the missing-field messages |
| FileUploadImport.CollectMissing | src/components/FileUploadImport.js:52-59 | the `forEach` pushes one `Missing <field>` for every missing field, in order |
| FileUploadImport.ValidateRow | src/components/FileUploadImport.js:51-63 | throws exactly the message `RowValidation` describes |
| FileUploadImport.FirstError | src/components/FileUploadImport.js:163 | no error iff every row from `from` passes, and otherwise an error of some such row |
| FileUploadImport.ValidateRows | src/components/FileUploadImport.js:163 | stops at the first row that fails |
| FileUploadImport.Capitalize | src/components/FileUploadImport.js:76 | first letter upper-case, the rest lower-case, same length, same text ignoring case |
| FileUploadImport.ToBackend | src/components/FileUploadImport.js:66-79 | priority is capitalised or "Medium" and never empty, status is the cell or "Pending", and there is no task id yet |
| FileUploadImport.TransformToBackendFormat | src/components/FileUploadImport.js:65-81 | each output record has a title and comes from some row, and there are no more records than rows |
| FileUploadImport.TransformConcat | src/components/FileUploadImport.js:65-81 | rows are transformed independently and in order |
| FileUploadImport.ValidRowTitle | src/components/FileUploadImport.js:56-72 | a row that passes validation has a non-empty title, which becomes the record's title |
| FileUploadImport.TransformKeepsValidRows | src/components/FileUploadImport.js:163-165 | when every row passes, the title filter drops none |
| FileUploadImport.ImportRows | src/components/FileUploadImport.js:162-165 | the outcome is `ImportOutcome` of the rows |
| FileUploadImport.ImportOutcome | src/components/FileUploadImport.js:162-165 | the import as a value: the first validation error, or the transformed rows; its meaning is stated by ImportOutcomeFacts |
| FileUploadImport.ImportOutcomeFacts | src/components/FileUploadImport.js:162-165 | an import fails iff some row fails validation, and otherwise yields one record per row |
| FileUploadImport.ImportedDataIsSaveValid | src/components/FileUploadImport.js:183-188 | every imported record passes the save check, so the consistency error never fires after an import |
| FileUploadImport.TaskIdAt | src/components/FileUploadImport.js:203 | never empty; taken from entry `i` of the response and no other, and the real id whenever that entry has a truthy one |
| FileUploadImport.MergeTaskIds | src/components/FileUploadImport.js:201-204 | each record gets its response task id and keeps its other fields |
| FileUploadImport.Columns | src/components/FileUploadImport.js:218-220 | no columns for no data, otherwise the first record's keys, never `id` |
| FileUploadImport.ColumnsAfterSave | src/components/FileUploadImport.js:201-220 | after a save the preview shows the five fields and `taskId` |
| FileUploadImport.ParserFor | src/components/FileUploadImport.js:157-161 | the Excel reader only for `.xls`/`.xlsx` names, and CSV otherwise |
| FileUploadImport.HasSpreadsheetExtension | src/components/FileUploadImport.js:105 | the name ends in `.csv`, `.xlsx` or `.xls`, in any case; used by ParserFor and by the file check |
| FileUploadImport.Accepted | src/components/FileUploadImport.js:98-106 | a file passes the type check when its MIME type is one of the three spreadsheet types or its name has a spreadsheet extension; ExcelTypeWithoutExtensionIsParsedAsCsv and HandleFileChange state its use |
| FileUploadImport.ExcelTypeWithoutExtensionIsParsedAsCsv | src/components/FileUploadImport.js:98-161 | a file accepted for its Excel MIME type alone goes to the CSV parser |
| FileUploadImport.ImportParsed | src/components/FileUploadImport.js:155-165 | a parse failure or the validated, transformed rows |
| FileUploadImport.SaveErrorMessage | src/components/FileUploadImport.js:208-211 | the most specific explanation: one of the joined details, the error text and the message; non-empty details win over the error text, which wins over the message; never empty when the message is not |
| FileUploadImport.FileUploadImportPage.constructor | src/components/FileUploadImport.js:25-31 | no file, not loading, no error, empty preview |
| FileUploadImport.FileUploadImportPage.HandleFileChange | src/components/FileUploadImport.js:95-116 | no file changes nothing; an unaccepted file only sets the error; an accepted file replaces the selection and clears error and preview |
| FileUploadImport.FileUploadImportPage.HandleImport | src/components/FileUploadImport.js:148-176 | no file gives the "select a file" error; otherwise the page is `Imported` with the outcome of parsing with the parser the name selects |
| FileUploadImport.FileUploadImportPage.Apply | src/components/FileUploadImport.js:166-175 | success stores the records and notifies with their count; failure keeps the data, sets the error and notifies `Import failed: ...` |
| FileUploadImport.FileUploadImportPage.HandleSaveData | src/components/FileUploadImport.js:178-216 | nothing happens for no data; posts iff every record passes the check; success notifies and merges ids; failure notifies `Save failed: ...` |
| GoogleSheetImport.HeaderValidationFacts | src/components/GoogleSheetImport.js:52-62 | throws iff some required field is the normal form of no header, and the message is `Missing required columns: ` and the missing fields joined by ", ", in required-field order |
| GoogleSheetImport.HeaderValidation | src/components/GoogleSheetImport.js:52-62 | `validateHeaders` as a value: the message it throws, or none; stated by HeaderValidationFacts |
| GoogleSheetImport.MissingRequired | src/components/GoogleSheetImport.js:58 | the reference list of missing fields: title, description, duedate in that order, each present iff no header normalises to it |
| GoogleSheetImport.RequiredFieldsNormal | src/components/GoogleSheetImport.js:41-56 | normalising the required field names changes none of them |
| GoogleSheetImport.RequiredHeadersPass | src/components/GoogleSheetImport.js:52-62 | a sheet with the three required columns under their own names passes |
| GoogleSheetImport.RunLength | src/components/GoogleSheetImport.js:68 | the longest run of `[-\w]` characters starting at a position |
| GoogleSheetImport.LongRunFrom | src/components/GoogleSheetImport.js:68 | the leftmost position where `[-\w]{25,}` matches, or none anywhere |
| GoogleSheetImport.SheetId | src/components/GoogleSheetImport.js:68 | the id found is at least 25 word characters |
| GoogleSheetImport.DriveMatchFrom | src/components/GoogleSheetImport.js:71 | the leftmost position where `/\/d\/([-\w]{25,})/` matches, or none anywhere |
| GoogleSheetImport.DriveId | src/components/GoogleSheetImport.js:71 | the captured id is at least 25 word characters |
| GoogleSheetImport.NoLongRunIsRejected | src/components/GoogleSheetImport.js:66-75 | a link without a 25-character run gives no URL |
| GoogleSheetImport.SheetLinkGivesExportUrl | src/components/GoogleSheetImport.js:67-69 | `https://docs.google.com/spreadsheets/d/<id><rest>`, with `<id>` a maximal run of at least 25 word characters, gives that sheet's CSV export URL |
| GoogleSheetImport.SheetIdAt | src/components/GoogleSheetImport.js:68 | the id is the whole run at the first position where a long enough run starts |
| GoogleSheetImport.GetCsvUrl | src/components/GoogleSheetImport.js:66-75 | the URL builder; its three branches are stated by SheetLinkGivesExportUrl, DriveLinkGivesDownloadUrl and UnrecognisedLinkIsRejected |
| GoogleSheetImport.DriveLinkGivesDownloadUrl | src/components/GoogleSheetImport.js:70-72 | `https://drive.google.com/file/d/<id><rest>`, with `<id>` a maximal run of at least 25 word characters and no `spreadsheets/d/` anywhere, gives that file's download URL |
| GoogleSheetImport.UnrecognisedLinkIsRejected | src/components/GoogleSheetImport.js:66-75 | a link holding neither `spreadsheets/d/` nor `drive.google.com/file/d/` gives no URL |
| GoogleSheetImport.FetchSheetData | src/components/GoogleSheetImport.js:77-96 | a network failure rethrows its message; 403 gives "Sheet not publicly accessible", other non-2xx statuses `HTTP Error: <status>`, an `<html>` body in any case "Invalid CSV response"; success iff none of these, with the parsed body |
| GoogleSheetImport.NormalizeHeader | src/components/GoogleSheetImport.js:99 | no white space and no upper-case letter remain |
| GoogleSheetImport.NormalizeHeaderIdempotent | src/components/GoogleSheetImport.js:99 | normalising twice is normalising once |
| GoogleSheetImport.KeptColumns | src/components/GoogleSheetImport.js:115-116 | the corrected mapping: each column is a non-blank header cell, trimmed and normalised, and reads the cell at its own position |
| GoogleSheetImport.KeptColumnsComplete | src/components/GoogleSheetImport.js:115 | every non-blank header cell gives a column |
| GoogleSheetImport.AsWrittenColumns | src/components/GoogleSheetImport.js:115-125 | the mapping as written: blank header cells dropped, the rest normalised, and the j-th one reading cell j; stated by AsWrittenColumnsFacts |
| GoogleSheetImport.KeptNames | src/components/GoogleSheetImport.js:115-116 | the corrected columns are named by the trimmed, non-blank header cells, normalised, in order |
| GoogleSheetImport.KeptColumnsAllKept | src/components/GoogleSheetImport.js:115-116 | without blank header cells there is one column per header cell, at its own position |
| GoogleSheetImport.AsWrittenColumnsFacts | src/components/GoogleSheetImport.js:115-125 | as written the columns have the corrected names, but the j-th reads cell j counted after the blank headers were dropped; without blank header cells both mappings are equal |
| GoogleSheetImport.BlankHeaderShiftsCells | src/components/GoogleSheetImport.js:115-125 | as written, the column after a blank header reads its left neighbour's cell; the corrected column reads its own |
| GoogleSheetImport.LastCell | src/components/GoogleSheetImport.js:122-125 | no cell iff no column has that name |
| GoogleSheetImport.GetRowData | src/components/GoogleSheetImport.js:122-125 | each key of the reduced row reads the cell of the last column of that name |
| GoogleSheetImport.LastCellOfUnique | src/components/GoogleSheetImport.js:122-125 | with distinct names each column reads its own cell (`row[i] \|\| ""`) |
| GoogleSheetImport.RowDataUnique | src/components/GoogleSheetImport.js:122-125 | the reduced row has unique keys |
| GoogleSheetImport.BuildRowData | src/components/GoogleSheetImport.js:122-125 | the reduce loop builds `RowData` |
| GoogleSheetImport.DefaultsGet | src/components/GoogleSheetImport.js:126-130 | the defaults: id `row-<idx>`, `isActive` "active", status "on-going", priority the row's or "Medium" |
| GoogleSheetImport.SheetRecordGet | src/components/GoogleSheetImport.js:126-132 | every key reads the sheet's cell when a column has that name, otherwise the default |
| GoogleSheetImport.DefaultsOfRecord | src/components/GoogleSheetImport.js:126-132 | a default shows only where no column has its name; the priority is the sheet's cell, even an empty one, else "Medium" |
| GoogleSheetImport.SheetRecords | src/components/GoogleSheetImport.js:121 | one record per data row, in order |
| GoogleSheetImport.TransformRows | src/components/GoogleSheetImport.js:121-133 | the `map` loop builds `SheetRecords` |
| GoogleSheetImport.BuildRecord | src/components/GoogleSheetImport.js:122-132 | one data row becomes its `SheetRecord` |
| GoogleSheetImport.ImportSheet | src/components/GoogleSheetImport.js:112-133 | with the corrected mapping: an empty sheet gives "No data found", a missing required column its message, and a success one record per row below the header |
| GoogleSheetImport.ImportSheetAsWritten | src/components/GoogleSheetImport.js:112-133 | with the mapping as written: an empty sheet gives "No data found", and a success has one record per row below the header |
| GoogleSheetImport.ImportSheetAsWrittenCells | src/components/GoogleSheetImport.js:115-125 | as written, in every record the j-th non-blank header reads `row[j]`, or "" past the row's end, with j counted after the blanks are dropped (distinct headers) |
| GoogleSheetImport.ImportSheetAgreement | src/components/GoogleSheetImport.js:112-133 | the as-written and corrected imports fail alike, show the same columns, and give the same records when no header cell is blank |
| GoogleSheetImport.ImportFetched | src/components/GoogleSheetImport.js:111-133 | the checks in order, then the row transform, as `SheetOutcome` |
| GoogleSheetImport.RenameKeyAsWritten | src/components/GoogleSheetImport.js:201-206 | the rename of one row as written: copy to the new key, then delete the old key; stated by RenameKeyAsWrittenGet |
| GoogleSheetImport.RenameKeyAsWrittenGet | src/components/GoogleSheetImport.js:201-206 | as written the old key is always gone, even when the name is unchanged; a new name receives the old value; other keys read as before |
| GoogleSheetImport.RenameKey | src/components/GoogleSheetImport.js:201-206 | the corrected rename: unchanged when the name is unchanged, otherwise as written; stated by RenameKeyGet |
| GoogleSheetImport.RenameToSameNameLosesData | src/components/GoogleSheetImport.js:192-205 | as written, renaming a column to its own name deletes its data |
| GoogleSheetImport.RenameKeyGet | src/components/GoogleSheetImport.js:201-206 | after a rename the new key holds the old value, the old key is gone unless unchanged, and other keys are kept |
| GoogleSheetImport.RenameAll | src/components/GoogleSheetImport.js:201-206 | every row is renamed, and the count is kept |
| GoogleSheetImport.ToBackend | src/components/GoogleSheetImport.js:155-161 | title and description copied, priority and status never empty, an empty due date when there is none, and a failure iff the date conversion throws |
| GoogleSheetImport.BackendData | src/components/GoogleSheetImport.js:155-161 | all records are mapped in order, or the conversion throws |
| GoogleSheetImport.TaskRecord | src/components/GoogleSheetImport.js:155-172 | the object stored after a save; read by SendUpdatedDataToDB |
| GoogleSheetImport.PriorityEndToEnd | src/components/GoogleSheetImport.js:130-159 | from sheet to request, the priority is the sheet's cell or "Medium" |
| GoogleSheetImport.StatusEndToEnd | src/components/GoogleSheetImport.js:129-160 | from sheet to request, the status is the cell, or "Pending" when the cell is empty, or "on-going" when there is no status column |
| GoogleSheetImport.GoogleSheetImportPage.constructor | src/components/GoogleSheetImport.js:27-38 | the empty page with a closed notification |
| GoogleSheetImport.GoogleSheetImportPage.HandleImport | src/components/GoogleSheetImport.js:101-146 | an empty link or an unrecognised URL only sets its error; otherwise the page is `Imported` with the outcome of fetching the CSV URL |
| GoogleSheetImport.GoogleSheetImportPage.Apply | src/components/GoogleSheetImport.js:135-145 | success shows the columns and records and notifies; failure sets the error and notifies it |
| GoogleSheetImport.GoogleSheetImportPage.HandleHeaderChange | src/components/GoogleSheetImport.js:180-207 | renaming a required column, renaming to a blank name and renaming to a name used elsewhere are refused with their messages; otherwise the column and every row are renamed |
| GoogleSheetImport.GoogleSheetImportPage.SendUpdatedDataToDB | src/components/GoogleSheetImport.js:148-177 | nothing happens without data; otherwise the mapped data is posted, and the page shows it or the error |
| TaskList.LexLessAsymmetric | src/pages/Task/index.js:125-129 | string `<` is asymmetric |
| TaskList.LexLessTotal | src/pages/Task/index.js:125-131 | distinct strings are ordered one way or the other |
| TaskList.LexLessTransitive | src/pages/Task/index.js:125-129 | string `<` is transitive |
| TaskList.Compare | src/pages/Task/index.js:107-132 | the comparator: numeric difference for taskId and dueDate, string order otherwise, reversed for desc; stated by CompareAntisymmetric, DescendingReversesAscending and BeforeTransitive |
| TaskList.CompareAntisymmetric | src/pages/Task/index.js:107-132 | swapping the arguments negates the comparator |
| TaskList.DescendingReversesAscending | src/pages/Task/index.js:109-131 | `desc` orders as `asc` with the arguments swapped |
| TaskList.BeforeTransitive | src/pages/Task/index.js:107-132 | "may come before" is transitive for every key and direction |
| TaskList.InsertPermutes | src/pages/Task/index.js:107 | inserting adds exactly one element |
| TaskList.InsertSorted | src/pages/Task/index.js:107 | inserting into a sorted list keeps it sorted |
| TaskList.SortTasks | src/pages/Task/index.js:107-132 | the sorted copy; stated by SortTasksFacts |
| TaskList.SortTasksFacts | src/pages/Task/index.js:107-132 | the sorted copy is a permutation of the tasks, sorted by the comparator |
| TaskList.NextSort | src/pages/Task/index.js:73-77 | the new key is the clicked one, and the order is descending iff the same key was ascending |
| TaskList.SortToggleRoundTrip | src/pages/Task/index.js:73-77 | two clicks on an ascending column return to ascending |
| TaskList.MatchesAsWritten | src/pages/Task/index.js:134-137 | the search test as written: the lower-cased title or description contains the query as typed |
| TaskList.Matches | src/pages/Task/index.js:134-137 | the corrected search test: the query is lower-cased too |
| TaskList.UpperCaseQueryMatchesNothing | src/pages/Task/index.js:134-137 | as written, a query with an upper-case letter matches no task |
| TaskList.SearchMissesExactTitle | src/pages/Task/index.js:134-137 | as written, searching "A" misses the task titled "A", which the corrected search finds |
| TaskList.MatchesIgnoresCase | src/pages/Task/index.js:134-137 | the corrected search ignores the query's case |
| TaskList.VerbatimIsFound | src/pages/Task/index.js:134-137 | with the corrected search, a task whose title or description contains the query as typed is always found |
| TaskList.LowerQueryAgreesWithAsWritten | src/pages/Task/index.js:134-137 | for a query with no upper-case letter the correction changes nothing |
| TaskList.EmptyQueryMatchesAll | src/pages/Task/index.js:134-137 | an empty search shows every task |
| TaskList.FilteredTasksFacts | src/pages/Task/index.js:107-137 | with the corrected search, the rows shown are tasks that match, every matching task is shown, and they are in sorted order |
| TaskList.FilteredTasks | src/pages/Task/index.js:134-137 | the rows shown with the corrected search; stated by FilteredTasksFacts |
| TaskList.FilteredTasksAsWritten | src/pages/Task/index.js:134-137 | the rows shown as written; stated by FilteredTasksAsWrittenFacts |
| TaskList.SortedFilterFacts | src/pages/Task/index.js:107-137 | filtering the sorted tasks by any test keeps exactly the tasks that pass, in sorted order |
| TaskList.FilteredTasksAsWrittenFacts | src/pages/Task/index.js:107-137 | as written, the rows shown are exactly the tasks whose lower-cased title or description contains the query as typed, in sorted order |
| TaskList.FilteredTasksAgree | src/pages/Task/index.js:134-137 | for a query without upper-case letters the corrected and as-written searches show the same rows |
| TaskList.FilterKeepsSorted | src/pages/Task/index.js:134 | filtering a sorted list keeps it sorted |
| TaskList.MarkCompleted | src/pages/Task/index.js:86-90 | same length; exactly the tasks with that id get status "Completed", and the rest are unchanged |
| TaskList.RemoveTask | src/pages/Task/index.js:99 | the list after a delete; stated by RemoveTaskFacts |
| TaskList.RemoveTaskFacts | src/pages/Task/index.js:99 | no task with that id remains, every other task is kept, the tasks kept from any prefix come before those kept from the rest, and nothing changes when the id is absent |
| TaskList.ColorsIgnoreCase | src/pages/Task/index.js:148-172 | both colour maps ignore case |
| TaskList.PriorityColor | src/pages/Task/index.js:148-159 | the priority colour, case ignored; stated by ColorsIgnoreCase and PriorityColorExamples |
| TaskList.StatusColor | src/pages/Task/index.js:161-172 | the status colour, case ignored; stated by ColorsIgnoreCase and StatusColorExamples |
| TaskList.PriorityColorExamples | src/pages/Task/index.js:148-159 | "HIGH" is `error.main`, "Medium" `warning.main`, "low" `success.main`, anything else `text.primary` |
| TaskList.StatusColorExamples | src/pages/Task/index.js:161-172 | "PENDING" is `text.secondary`, "In Progress" `info.main`, "Completed" `success.main`, anything else `text.primary` |
| TaskList.MarkedTaskHasNoButton | src/pages/Task/index.js:261-267 | a task marked completed loses its complete button and shows the completed colour |
| TaskList.TaskListPage.constructor | src/pages/Task/index.js:24-33 | no tasks, empty search, sort by `taskId` ascending, page 1 of 1 with limit 10, loading; the first request asks for page 1, 10 tasks, by taskId ascending, with no search |
| TaskList.TaskListPage.FetchSettled | src/pages/Task/index.js:49-59 | success takes the tasks and totals, failure keeps them, loading ends either way, and no request parameter changes, so settling triggers no new fetch |
| TaskList.TaskListPage.Shown | src/pages/Task/index.js:107-137 | the rows the table shows, with the corrected search; stated by FilteredTasksFacts |
| TaskList.TaskListPage.HandlePageChange | src/pages/Task/index.js:64-66 | only the page changes, and the next request differs only in its page |
| TaskList.TaskListPage.HandleSearch | src/pages/Task/index.js:68-71 | the next request searches for the new text from page 1, with sort and limit kept |
| TaskList.TaskListPage.HandleSort | src/pages/Task/index.js:73-79 | the sort becomes `NextSort`; the next request sorts by the clicked key from page 1, descending iff that key was ascending, with search and limit kept |
| TaskList.TaskListPage.MarkAsCompleted | src/pages/Task/index.js:83-94 | after a successful request the list is `MarkCompleted`, otherwise unchanged |
| TaskList.TaskListPage.DeleteTask | src/pages/Task/index.js:96-103 | after a successful request the list is `RemoveTask`, otherwise unchanged |
| ExportPage.CsvContent | src/pages/Export/index.js:47-50 | the text exists iff the dataset is non-empty |
| ExportPage.CsvLineCount | src/pages/Export/index.js:47-50 | with no line break in keys or values, the text has exactly `data.length` line breaks, so `data.length + 1` lines |
| ExportPage.CsvStartsWithHeader | src/pages/Export/index.js:48 | the text starts with the first record's keys joined by commas |
| ExportPage.UnquotedCommaSplitsField | src/pages/Export/index.js:49 | values are not quoted, so a comma in a value adds a separator |
| ExportPage.HeaderFromFirstRecordOnly | src/pages/Export/index.js:48-49 | later records' keys never reach the text |
| ExportPage.MockCsvLines | src/pages/Export/index.js:21-49 | the mock data gives the header `id,name,value` and the three value lines in order |
| ExportPage.MockCsv | src/pages/Export/index.js:21-50 | the mock data's text is those four lines joined by line breaks |
| ExportPage.ExportFile | src/pages/Export/index.js:39-54 | a file iff the format is "excel" or it is "csv" with data; the names, MIME types and contents of the two |
| ExportPage.MockExportSavesFile | src/pages/Export/index.js:37-54 | exporting the mock data saves a file iff the format is "excel" or "csv" |
| ExportPage.ExportDataPage.constructor | src/pages/Export/index.js:7-9 | tab 0, not loading, no error |
| ExportPage.ExportDataPage.HandleTabChange | src/pages/Export/index.js:11-13 | only the tab changes |
| ExportPage.ExportDataPage.FetchData | src/pages/Export/index.js:16-33 | returns the three mock records, with no error and not loading |
| ExportPage.ExportDataPage.HandleExport | src/pages/Export/index.js:35-58 | saves exactly `ExportFile(format, mock data)` when there is one, and nothing otherwise |
| PdfMaker.CellValue | src/components/PdfMaker.js:46 | the series' value for the month, 0 past the data or without a series, and a throw when the series has no `data` |
| PdfMaker.GeneratePdfTable | src/components/PdfMaker.js:20-50 | columns `["Month", ...metrics]`; 12 rows, row `i` starting with the `i`-th month and holding `1 + metrics.length` cells, cell `(i, j)` being `CellValue`; fails iff some metric's series lacks `data` |
| PdfMaker.GeneratePdf | src/components/PdfMaker.js:9-63 | the title, the `Year: ` line, the table and the file name `website-analytics.pdf` |
| UserSlice.InitialGodsFacts | src/Features/User/userSlice.js:11-33 | three gods, all active and selected, with distinct ids |
| UserSlice.InitialStateFacts | src/Features/User/userSlice.js:4-35 | empty profile fields, null id, the three gods, no god chosen |
| UserSlice.SetUserProfile | src/Features/User/userSlice.js:41 | shallow merge: payload fields win, all other fields are kept, no others appear |
| UserSlice.SetUserProfileIdempotent | src/Features/User/userSlice.js:41 | merging the same payload twice is merging once, and an empty payload changes nothing |
| UserSlice.SetUserProfileTwice | src/Features/User/userSlice.js:41 | two merges are one merge of the combined payloads |
| UserSlice.ClearForgetsEverything | src/Features/User/userSlice.js:46 | any state clears to the same initial profile, even after a merge |
| UserSlice.UpdateIsMerge | src/Features/User/userSlice.js:42-45 | updating a field is merging a one-field payload, and other fields are kept |
| UserSlice.ProfileStore.SetProfile | src/Features/User/userSlice.js:41 | the state becomes the merge |
| UserSlice.ProfileStore.UpdateProfileField | src/Features/User/userSlice.js:42-45 | exactly the named field changes |
| UserSlice.ProfileStore.ClearProfile | src/Features/User/userSlice.js:46 | the state becomes the initial state |
| UserSlice.ProfileStore.SetGods | src/Features/User/userSlice.js:47-49 | only `gods` changes |
| UserSlice.ProfileStore.SetActiveGod | src/Features/User/userSlice.js:51-53 | only `activeGodId` changes |
| Router.PrivateRoute | src/routes/Router.js:16-23 | renders the outlet iff authenticated, otherwise redirects to `/login` |
| Router.PublicRoute | src/routes/Router.js:25-33 | renders the outlet iff not authenticated, otherwise redirects to `/tasks` |
| Router.ExactlyOneGuardOpens | src/routes/Router.js:16-33 | for any auth state exactly one guard renders its outlet |
| Router.RouteTableFacts | src/routes/Router.js:38-69 | the private sub-routes under the layout are exactly tasks, add-task, edit-task/:id, import-data and export-data; the public ones are `/`, login and register, with `/` redirecting to `/login` |
| Router.RedirectsLandOnPages | src/routes/Router.js:16-62 | a signed-out visitor of any private page is sent to `/login`, which shows the login page; a signed-in visitor of a public page is sent to `/tasks`, which shows the task list |

## Left out

- The network (axios, `fetch`), the file readers (FileReader, XLSX, PapaParse), jsPDF/autotable and file-saver. Their results are parameters: an oracle function or an already-parsed value.
- Dates: `formatDate`, `new Date(...)` and `toISOString()` are left symbolic. The imported due date is `FormattedFrom(raw)` or `Today`, the sheet conversion is a parameter, and a task's due date is an integer time value.
- Case mapping is ASCII only, and string order compares code points rather than UTF-16 code units. Both match on ASCII text.
- The object key order of integer-like keys, which JavaScript puts first, is not modelled. Keys keep insertion order.
- Numbers in spreadsheet cells and in the mock export data are modelled as their text, which is what `join` produces. Two behaviours of numeric cells are therefore not modelled:
  - `sheet_to_json` gives a numeric cell holding 0 as the number 0, which is falsy, so `validateRow` reports that field missing (src/components/FileUploadImport.js:56).
  - A numeric priority makes `priority.charAt` throw (src/components/FileUploadImport.js:76).
- ApiSlice.Headers.Set: compares header names case-sensitively, while the Fetch `Headers.set` ignores their case. Only the exact names `Content-Type` and `Authorization` are set, so this changes nothing for the headers `prepareHeaders` writes.
- TaskList.SortTasksFacts: states a sorted permutation. Stability (which `Array.prototype.sort` guarantees since ES2019) is not stated, though the insertion sort is stable.
- TaskList.TaskListPage.FetchSettled: the server-side paging, sorting and search behind `GET /api/tasks` are not modelled. Only the client-side sort and filter of the returned page are.
- The cells of the task table are not modelled: `formatDate`, and the sort arrows beyond the sort state.
- GoogleSheetImport.ImportSheet: imports through the corrected column mapping (KeptColumns), where the source reads each column's cell at its index among the non-blank headers, so a blank header cell shifts the cells of the columns after it. ImportSheetAsWritten and ImportSheetAsWrittenCells model the source's mapping, and ImportSheetAgreement shows the two agree whenever no header cell is blank (first Findings row).
- GoogleSheetImport.ImportFetched: the same corrected mapping as ImportSheet.
- GoogleSheetImport.GoogleSheetImportPage.HandleImport: shows the outcome of the corrected mapping, as ImportSheet.
- GoogleSheetImport.RenameAll: renames with the corrected RenameKey. As written, renaming a column to its own name deletes it from every row; RenameKeyAsWrittenGet states the source's rename (second Findings row).
- GoogleSheetImport.GoogleSheetImportPage.HandleHeaderChange: applies RenameAll, so a rename to the same name keeps the column that the source deletes.
- TaskList.FilteredTasks: filters with the corrected, case-insensitive search. As written, the query is not lower-cased and a query with an upper-case letter matches nothing. FilteredTasksAsWritten and FilteredTasksAsWrittenFacts model the source's filter, and FilteredTasksAgree shows the two agree on queries without upper-case letters (third Findings row).
- TaskList.TaskListPage.Shown: shows the corrected FilteredTasks.
- TaskList.FilteredTasksFacts: stated for the corrected search; FilteredTasksAsWrittenFacts states the same for the source's search.
- TaskList.VerbatimIsFound: holds for the corrected search only. As written, the title "Ab" is not found by the query "Ab".
- GoogleSheetImport.GoogleSheetImportPage.HandleHeaderChange: requires the preview data to be present. In the source, `prevData.map` on null data would throw.
- GoogleSheetImport.GoogleSheetImportPage.HandleHeaderChange: the handler is not wired to any element in the page's markup and is modelled as a callable action. The `editingColumn` state is not modelled.
- GoogleSheetImport.RenameKeyGet: requires the renamed key to be present in the row. Renaming a missing key writes `undefined`, which the record model cannot hold.
- GoogleSheetImport.TaskRecord: `undefined` title or description fields are dropped rather than kept as `undefined`.
- The notification close handler of the sheet import page is not modelled. It only sets `open` to false.
- The `try/catch` around `localStorage` in `getLocalStorageItem` and in `setTokens`/`clearTokens` is not modelled, because storage access never fails in the model. `logoutUser` has no such guard.
- The `verifyToken` request is not modelled; only its three state transitions are.
- RTK Query's cache tags (`providesTags`) and the hooks the API slice exports are not modelled.
- ApiSlice.QueryAlert: assumes a fulfilled mutation has response data. With no data and no `reqName` or custom message, reading `data.reqName` would throw and the error alert would show instead.
- The PDF title and year text are modelled as document fields; fonts, positions and styles are not.
- The form validation of the add, edit, login and register pages is not part of this model.

## Findings

| source | as written | input that shows it | evidently intended | confidence | as-written member | corrected member |
|---|---|---|---|---|---|---|
| src/components/GoogleSheetImport.js:115-125 | `filter(Boolean)` drops blank header cells, but `row[i]` is read at the index in the filtered list | headers `["a", "", "b"]`, row `["1", "2", "3"]`: column `b` reads "2" | each column reads the cell under its own header | high (not executed) | GoogleSheetImport.BlankHeaderShiftsCells | GoogleSheetImport.KeptColumns |
| src/components/GoogleSheetImport.js:192-205 | the uniqueness check skips the edited column itself; the value is copied to the new key and then the old key is deleted | renaming column `notes` to `notes`: every row loses `notes` | renaming a column to its own name leaves the rows unchanged | high (not executed) | GoogleSheetImport.RenameToSameNameLosesData | GoogleSheetImport.RenameKeyGet |
| src/pages/Task/index.js:134-137 | title and description are lower-cased but the query is not | title "A", query "A": the task is not shown | a case-insensitive search | high (not executed) | TaskList.SearchMissesExactTitle | TaskList.MatchesIgnoresCase |
