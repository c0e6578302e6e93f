# qbench-worksheets in Dafny

A model, with proofs, of the logic at the heart of the qbench-worksheets
repository.

The main part is the instrument-file import (`sampleWorksheets/fileParser_simple.js`).
For every uploaded export it:

- derives the batch id from the file name;
- looks up the assay's column-label table through a run-long cache;
- folds every page of the batch's test listing into `testArray` and a
  sample → tests index;
- settles each sample's QC flag through a second run-long cache;
- splits the text into rows and cells and maps the header row's labels to
  analyte codes;
- classifies each row as a regular test, a matrix spike or blank of a
  QC-flagged sample, or a counter-numbered configured QC type;
- overlays the regular readings onto each sample's stored
  `ws_instrument_results` without losing an entry;
- patches the batch worksheet with the rest.

The services (batch, key-value store, test listing, sample lookup, test
worksheets) are inputs: a map from request to answer, where a missing key is
a failed request. The tests whose worksheet update is refused and the
batches whose worksheet patch is refused are inputs too. A parameter record
may lack `data` altogether, or any of `data_columns_to_analytes` and
`worksheet_analytes`; each of those throws where the code first reads it. The stored worksheets, the caches and the requests made
are fields of `Ingestion.Session`, so what one file leaves for the next can
be stated.

Beside it sit the worksheet library's smaller cores:

- the data-integrity guard: lock state, the append-only deviation log, form
  validation, relocking and the CSV export;
- the output-unit selection: add/remove, the display-unit fallback and the
  element-id escape;
- the Confident Cannabis condition fields: the name sanitizer, the lenient
  number parsers and the four fields per analyte;
- the configuration deep merge over the defaults, and the modules started;
- the table sorting: the per-column direction toggle, the sort-key
  classifier and the comparator's sign.

JavaScript's string and number conversions that these rely on are modules
of their own:

- `JsString`: `trim`, `toLowerCase`, `includes`, `replace` with a string
  pattern (first occurrence only), `split`/`join` on one character, and
  `parseInt` with integer rendering.
- `JsNumber`: `Number(s)`, `parseFloat(s)` and the `/[\d.]+/` match, on
  exact values with NaN and the infinities.

Every method with a loop is proved against a pure function of its inputs:

| method | specification function |
|---|---|
| `BatchSheet.ProcessRows` | `SheetOf` |
| `Reconcile.MergeSample` | `MergeAnalytes` |
| `Ingestion.Session.Run` | `RunSpec` |

The properties the source promises are proved about those functions.

Four behaviours of the import that the model keeps as the code has them:

- **QC flags are settled up front.** Every sample of the listing has its flag
  settled before any row is read (`fileParser_simple.js:194-226`).
- **An unparseable stored worksheet skips its sample.** A `JSON.parse` that
  throws lands in the per-sample `catch` (`:412-414`), so that sample is
  not updated.
- **The owner of a test id is the lowest sample.** The code takes the first
  sample, in JavaScript's ascending enumeration of array-index keys, whose
  list holds the id (`:272-277`). That order holds for keys below
  2^32 - 1, so sample ids are bounded there.
- **A refused test-worksheet update loses its readings.** The code deletes
  the sample's readings from the batch readings before it sends the update
  (`:395`, `:404-414`), so a refused update loses them from both the test
  and the batch patch (see Findings).

## Model

| member | source | states |
|---|---|---|
| JsString.JoinSplit | sampleWorksheets/fileParser_simple.js:31-34 | joining the pieces of a one-character `split` with that character gives the text back |
| JsString.SplitJoin | sampleWorksheets/fileParser_simple.js:31-34 | splitting a join of separator-free pieces gives the pieces back |
| JsString.TrimIdempotent | sampleWorksheets/fileParser_simple.js:48 | trimming a trimmed string changes nothing |
| JsString.ReplaceFirst | sampleWorksheets/fileParser_simple.js:84 | a string pattern that does not occur leaves the text alone; one that does is replaced once, the length changing by the difference |
| JsString.ToLower | sampleWorksheets/fileParser_simple.js:84 | lower-casing maps each character on its own and keeps the length |
| JsString.ParseInt | sampleWorksheets/fileParser_simple.js:266 | `parseInt` is NaN when the text, after leading whitespace, does not start with a digit or sign |
| JsString.ParseIntOfIntToString | sampleWorksheets/fileParser_simple.js:266 | `parseInt` reads back the decimal rendering of every integer |
| JsString.IntToStringInjective | sampleWorksheets/fileParser_simple.js:315 | distinct integers render differently, so a test id in a key names one test |
| JsNumber.WholeIsPrefix | sampleWorksheets/fileParser_simple.js:49-53 | when the whole text is a number, `parseFloat` of it is that same number |
| JsNumber.ParseFloatOfFiniteNumber | sampleWorksheets/fileParser_simple.js:49-53 | text that `Number` reads as finite is read as finite by `parseFloat`, and as the same value when it has no radix prefix |
| JsNumber.NumberOfIntToString | sampleWorksheets/fileParser_simple.js:49 | `Number` reads back the decimal rendering of every integer |
| JsNumber.FirstDigitDotRun | qbench-core/src/core/condition-fields.js:106 | `/[\d.]+/` finds nothing exactly when no digit or dot occurs; a match is a non-empty run of digits and dots |
| JsNumber.FirstRunOfDots | qbench-core/src/core/condition-fields.js:106 | on text made only of dots, the match is the whole text |
| JsNumber.DotsAreNotANumber | qbench-core/src/core/condition-fields.js:107 | `parseFloat` of a run of dots is NaN |
| FileParse.ParseRows | sampleWorksheets/fileParser_simple.js:31-34 | a file always gives at least one row, and every row at least one cell |
| FileParse.JoinParsedRows | sampleWorksheets/fileParser_simple.js:31-34 | re-joining the cells with the delimiter and the rows with "\n" reproduces the file text exactly |
| FileParse.ParseJoinedRows | sampleWorksheets/fileParser_simple.js:31-34 | parsing the text of a table whose cells hold no "\n" or delimiter gives the table back |
| FileParse.ToFloat | sampleWorksheets/fileParser_simple.js:46-58 | blank text and text that is not a finite number give the default |
| FileParse.NumberOfTrim | sampleWorksheets/fileParser_simple.js:48-49 | trimming first does not change what `Number` reads |
| FileParse.ToFloatReadsFinite | sampleWorksheets/fileParser_simple.js:53-57 | text that passes the first test is read by `parseFloat` as a finite number, so the second NaN test never fires |
| FileParse.ToFloatOfInteger | sampleWorksheets/fileParser_simple.js:46-58 | an integer's decimal rendering is read back as that integer |
| TestIndex.InsertSorted | sampleWorksheets/fileParser_simple.js:159-163 | a new sample key joins the key order, which stays strictly ascending and holds exactly the old keys and the new one |
| TestIndex.AddTest | sampleWorksheets/fileParser_simple.js:157-164 | one listed test keeps the index well formed: the key order is exactly the map's keys, ascending |
| TestIndex.AddTests | sampleWorksheets/fileParser_simple.js:157-164 | folding a page keeps the index well formed |
| TestIndex.Build | sampleWorksheets/fileParser_simple.js:155-185 | the index built from a listing is well formed |
| TestIndex.BuildTests | sampleWorksheets/fileParser_simple.js:158 | `testArray` is every listed id, in listing order |
| TestIndex.BuildKeys | sampleWorksheets/fileParser_simple.js:159-163 | a sample is a key of `sampleTestMap` exactly when one of its tests is listed |
| TestIndex.BuildLists | sampleWorksheets/fileParser_simple.js:159-163 | each sample's list is its listed tests' ids, in listing order |
| TestIndex.FollowUpPages | sampleWorksheets/fileParser_simple.js:167-170 | after page 1, pages 2 to `total_pages` are requested: `total_pages - 1` of them, none when it is at most 1 |
| TestIndex.OwnerIn | sampleWorksheets/fileParser_simple.js:272-277 | the owner loop finds a sample whose list holds the test, and finds none only when no list holds it |
| TestIndex.OwnerIsLowest | sampleWorksheets/fileParser_simple.js:272-277 | over ascending keys, no lower-numbered sample lists the test; sample ids are array-index keys (below 2^32 - 1), which JavaScript enumerates in ascending order |
| TestIndex.OwnerOfListedTest | sampleWorksheets/fileParser_simple.js:269-277 | every id in `testArray` has an owner, which lists it, and no lower-numbered sample (among array-index ids) lists it |
| BatchSheet.TestKeyInjective | sampleWorksheets/fileParser_simple.js:315 | distinct (analyte, test) pairs get distinct `<analyte>_<testId>_raw` keys, whatever the analyte codes contain (see also line 392) |
| BatchSheet.ReadingKeyInjective | sampleWorksheets/fileParser_simple.js:302 | within one keying scheme, distinct analytes get distinct reading keys (see also lines 315, 339) |
| BatchSheet.OverlayKeys | sampleWorksheets/fileParser_simple.js:298-318 | the column loop's keys are those already stored plus one per mapped cell |
| BatchSheet.OverlayLastCell | sampleWorksheets/fileParser_simple.js:298-318 | a mapped cell's reading is stored unless a later cell maps to the same analyte |
| BatchSheet.FirstMatch | sampleWorksheets/fileParser_simple.js:323-325 | the QC type found is the first in declared order that the token contains, ignoring case; none is found only when no type matches |
| BatchSheet.View | sampleWorksheets/fileParser_simple.js:259-266 | each cell is read as its trimmed text and its `toFloat` reading; the row is blank exactly when it has no cell, its first cell is empty after the "\r" strip and trim, or it has no identity cell; the token is the identity cell's sample id, and the QC match is the first configured type the token contains |
| BatchSheet.ClassifyHeader | sampleWorksheets/fileParser_simple.js:248 | only the row at the header index is treated as the header |
| BatchSheet.ClassifyCounted | sampleWorksheets/fileParser_simple.js:322-332 | a counted row took the first configured, non-empty QC type its token contains, and its token names no listed test |
| BatchSheet.ClassifyListedTest | sampleWorksheets/fileParser_simple.js:269-320 | a non-blank data row naming a listed test is a matrix entry exactly when its owner is QC-flagged; the entry is a spike exactly when the token contains "-spk" |
| BatchSheet.CountKindGrows | sampleWorksheets/fileParser_simple.js:328-329 | the counter of a QC type strictly grows from one counted row to the next |
| BatchSheet.CountedNamesDistinct | sampleWorksheets/fileParser_simple.js:328-329 | two rows counted as the same QC type get different names |
| BatchSheet.ControlKeysNamed | sampleWorksheets/fileParser_simple.js:290-291 | every `control_data` key is named in `testing_file_order`, and every QC name there has its control entry (see also lines 331-332) |
| BatchSheet.RawKeysOfOrderedTests | sampleWorksheets/fileParser_simple.js:308-315 | every stored raw reading belongs to a regular test that is in `testing_file_order` |
| BatchSheet.FileColumns | sampleWorksheets/fileParser_simple.js:241-257 | rows before the header row see no mapped column, so they store nothing; later rows see exactly the header's columns |
| BatchSheet.RegularReadingStored | sampleWorksheets/fileParser_simple.js:311-318 | a regular row's mapped cell is stored under its analyte and test unless a later cell or a later row of the same test overwrites it |
| BatchSheet.MapHeader | sampleWorksheets/fileParser_simple.js:249-256 | the header loop maps exactly the positions whose trimmed text labels an analyte |
| BatchSheet.StoreReadings | sampleWorksheets/fileParser_simple.js:298-305 | the data-row loop stores every mapped cell's `toFloat` reading, later cells overwriting earlier ones (see also lines 311-318, 335-342) |
| BatchSheet.CountedIsConfigured | sampleWorksheets/fileParser_simple.js:323-328 | a counted row's QC type is one of the configured types |
| BatchSheet.ReachedStart | sampleWorksheets/fileParser_simple.js:237-243 | the loop starts from an empty sheet, no mapped column and every counter at 0 |
| BatchSheet.ApplyRow | sampleWorksheets/fileParser_simple.js:247-347 | one iteration moves the sheet, the column map and the counters from their values after row i to their values after row i + 1 |
| BatchSheet.ProcessRows | sampleWorksheets/fileParser_simple.js:245-349 | the row loop builds exactly the sheet `SheetOf` specifies |
| Reconcile.MergeTestsClosed | sampleWorksheets/fileParser_simple.js:391-397 | the test loop gives each test with a reading that reading, keeps every other stored entry, and removes exactly those tests' keys from the batch readings |
| Reconcile.MergeAnalytesAt | sampleWorksheets/fileParser_simple.js:385-399 | after the analyte loop an analyte is stored exactly when it was stored before or was written, and then it holds its old row overlaid with its readings |
| Reconcile.MergeAnalytesConsumes | sampleWorksheets/fileParser_simple.js:393-396 | exactly the consumed keys leave the batch readings |
| Reconcile.MergeKeepsEntries | sampleWorksheets/fileParser_simple.js:379-399 | every (analyte, test) entry stored before is still stored, and changes only when the file had a reading for it |
| Reconcile.MergeStoresReadings | sampleWorksheets/fileParser_simple.js:391-394 | every reading of a written analyte for one of the sample's tests ends up stored with its value |
| Reconcile.MergeValuesFromReadings | sampleWorksheets/fileParser_simple.js:385-399 | every stored value comes from before the merge or from the file's reading for it |
| Reconcile.MergeIdempotent | sampleWorksheets/fileParser_simple.js:385-399 | merging again with the readings that are left changes nothing |
| Reconcile.MergeTestsLoop | sampleWorksheets/fileParser_simple.js:391-397 | the loop over a sample's tests computes the test-loop merge |
| Reconcile.MergeSample | sampleWorksheets/fileParser_simple.js:385-399 | the loop over the worksheet analytes computes the analyte merge |
| Ingestion.BatchIdOfCsvName | sampleWorksheets/fileParser_simple.js:84 | a name ending in ".csv", with no other ".csv", names the batch it starts with, lower-cased |
| Ingestion.BatchIdReplacesFirstOnly | sampleWorksheets/fileParser_simple.js:84 | only the first ".csv" goes: "a.csv.csv" is batch "a.csv" |
| Ingestion.PageCount | sampleWorksheets/fileParser_simple.js:167-168 | at least the first page is always fetched |
| Ingestion.AddTestsAppend | sampleWorksheets/fileParser_simple.js:157-185 | folding a listing in two parts is folding it whole |
| Ingestion.AddPage | sampleWorksheets/fileParser_simple.js:157-164 | a page's `forEach` adds each of its tests to the index, in order (see also lines 178-185) |
| Ingestion.PagesIndexIsBuild | sampleWorksheets/fileParser_simple.js:155-186 | folding page by page is folding all the pages' tests as one listing |
| Ingestion.ListingIndex | sampleWorksheets/fileParser_simple.js:143-186 | a listing fetched whole gives a well-formed index |
| Ingestion.ListingRequests | sampleWorksheets/fileParser_simple.js:167-177 | a listing fetched whole takes page 1 and then exactly `total_pages - 1` more requests; otherwise requests stop at the first missing page |
| Ingestion.ListTests | sampleWorksheets/fileParser_simple.js:143-186 | the paging loop yields the listing's index and requests pages 1, 2, … in order |
| Ingestion.SettledFlag | sampleWorksheets/fileParser_simple.js:194-226 | after settling, the cache holds the old entries and every listed sample; a cached flag is kept, and an uncached sample gets its fetched flag (not QC when the fetch fails) |
| Ingestion.FetchedOnce | sampleWorksheets/fileParser_simple.js:194-226 | exactly the uncached samples are fetched, each once, even when the list repeats a sample |
| Ingestion.QcOfSettled | sampleWorksheets/fileParser_simple.js:196-218 | `qcSampleIds` is exactly the listed samples whose settled flag is set |
| Ingestion.SettleAgain | sampleWorksheets/fileParser_simple.js:194-201 | settling the same samples again fetches nothing and changes nothing |
| Ingestion.FetchedCached | sampleWorksheets/fileParser_simple.js:196-200 | a list whose samples are all cached fetches nothing |
| Ingestion.MergeAllUpdates | sampleWorksheets/fileParser_simple.js:359-414 | QC samples are never written back; a test is written back only as the first test of a listed sample whose id is in the file order, and only when its update is accepted |
| Ingestion.MergeAllKeepsEntries | sampleWorksheets/fileParser_simple.js:359-415 | the update loop never loses a stored (analyte, test) entry, whether a test's update is accepted, refused or never attempted |
| Ingestion.MergeAllLeavesReadings | sampleWorksheets/fileParser_simple.js:393-395 | the readings left for the batch patch are some of the file's, with their values |
| Ingestion.FailedUpdateLosesReadings | sampleWorksheets/fileParser_simple.js:393-414 | as written, a refused update leaves the stored results as they were and the sample's readings gone from the batch readings, so they reach neither the store nor the batch patch |
| Ingestion.MergeStepKept | sampleWorksheets/fileParser_simple.js:359-414 | the evidently intended step, which gives up a sample's readings only when their update is accepted (proved by KeptStepLosesNoReading) |
| Ingestion.KeptStepLosesNoReading | sampleWorksheets/fileParser_simple.js:359-414 | with the intended step, every batch reading either stays for the patch with its value or is stored under its analyte and test with that value |
| Ingestion.RunSpec | sampleWorksheets/fileParser_simple.js:83-444 | a run yields one outcome per file |
| Ingestion.SettleKeepsValid | sampleWorksheets/fileParser_simple.js:194-226 | settling keeps every requested sample cached and requested once |
| Ingestion.ProcessKeepsValid | sampleWorksheets/fileParser_simple.js:83-444 | one file keeps both caches consistent with the requests made |
| Ingestion.RunKeepsValid | sampleWorksheets/fileParser_simple.js:83-444 | across all the files of a run, no sample is requested twice and no assay is requested again after a successful request |
| Ingestion.ProcessKeepsEntries | sampleWorksheets/fileParser_simple.js:359-415 | a file keeps every stored (analyte, test) entry of every test's results |
| Ingestion.ProcessPatches | sampleWorksheets/fileParser_simple.js:83-443 | a file is patched exactly when its batch, a parameter record with data and every listing page can be fetched, the header row finds a column map and the patch is accepted; a refused patch is its own outcome and records nothing; a failure in the update loop does not stop the patch; a file that stops earlier writes no test's results, and one that stops before the listing settles no flag |
| Ingestion.CachedNoDataSticks | sampleWorksheets/fileParser_simple.js:109-137 | a parameter record cached without data stops every later file of the same assay at the configuration, with nothing else changed |
| Ingestion.Session.constructor | sampleWorksheets/fileParser_simple.js:77-80 | a run starts with empty caches and no requests |
| Ingestion.Session.LookupConfig | sampleWorksheets/fileParser_simple.js:105-137 | the assay's parameter record comes from the cache, or is fetched and cached when the fetch succeeds, even when it holds no data |
| Ingestion.Session.FlagSamples | sampleWorksheets/fileParser_simple.js:192-226 | the flag loop leaves the settled cache, records the fetches made and returns `qcSampleIds`, touching nothing else |
| Ingestion.Session.MergeSamples | sampleWorksheets/fileParser_simple.js:359-415 | the update loop leaves the stored results and the leftover readings the merge specification gives: a refused update keeps the stored results but its readings are gone; no cache is touched |
| Ingestion.Session.ProcessFile | sampleWorksheets/fileParser_simple.js:84-443 | one file's steps move the session to the state the file specification gives |
| Ingestion.Session.Run | sampleWorksheets/fileParser_simple.js:83-444 | the file loop moves the session to the state the run specification gives; a failing file does not stop the rest |
| DataIntegrity.Utf16LengthBasic | qbench-core/src/core/data-integrity.js:327 | the code-unit length equals the character count exactly when no character lies outside the basic plane |
| DataIntegrity.Validate | qbench-core/src/core/data-integrity.js:311-331 | an accepted form has a non-empty analyst, a non-empty reason and a description of at least ten code units |
| DataIntegrity.ValidationOrder | qbench-core/src/core/data-integrity.js:315-331 | each rejection names the first check that fails, in the order analyst, reason, description; an accepted form keeps the trimmed values |
| DataIntegrity.ShortTextRejected | qbench-core/src/core/data-integrity.js:327 | a description of fewer than five characters is never accepted |
| DataIntegrity.NewRecord | qbench-core/src/core/data-integrity.js:334-342 | the new record carries the form's values and the unlock time, and is still open |
| DataIntegrity.RelockExtends | qbench-core/src/core/data-integrity.js:378 | closing an open record keeps the log's history and closes exactly that record |
| DataIntegrity.AppendExtends | qbench-core/src/core/data-integrity.js:345 | appending a record keeps the log's history |
| DataIntegrity.ExtendsTransitive | qbench-core/src/core/data-integrity.js:345 | history is kept across any sequence of steps (see also line 378) |
| DataIntegrity.ClosedRecordsStay | qbench-core/src/core/data-integrity.js:378 | a closed record never changes again |
| DataIntegrity.Loaded | qbench-core/src/core/data-integrity.js:91-100 | a missing or empty field keeps the list, one that fails to parse or parses to a falsy value empties it, and a parsed list replaces it |
| DataIntegrity.RoundMinutes | qbench-core/src/core/data-integrity.js:538 | the rounded minutes are within half a minute of the duration (see also line 608) |
| DataIntegrity.RoundMinutesUnique | qbench-core/src/core/data-integrity.js:538 | that whole number of minutes is the only one (see also line 608) |
| DataIntegrity.ReviewDuration | qbench-core/src/core/data-integrity.js:537-539 | the review shows "Ongoing" exactly while the record is open |
| DataIntegrity.ExportDuration | qbench-core/src/core/data-integrity.js:607-609 | the export's duration is empty exactly while the record is open |
| DataIntegrity.EscapeCsv | qbench-core/src/core/data-integrity.js:612 | escaping keeps the same characters, never shortens the text, and changes nothing without a `"` |
| DataIntegrity.QuotedRoundTrip | qbench-core/src/core/data-integrity.js:612 | a quoted, escaped field reads back as the original text, followed by what came after it (see also line 621) |
| DataIntegrity.SampleLabel | qbench-core/src/core/data-integrity.js:598 | a missing or empty sample id exports as "Not specified" |
| DataIntegrity.AssayLabel | qbench-core/src/core/data-integrity.js:599 | the assay column falls back from the display name to the name to "Not specified" |
| DataIntegrity.ExportCsv | qbench-core/src/core/data-integrity.js:589-626 | there is no file exactly when the log is empty; otherwise the file starts with the header line |
| DataIntegrity.DescriptionReadsBack | qbench-core/src/core/data-integrity.js:614-625 | the description column of each exported line reads back as the logged description |
| DataIntegrity.ExportLines | qbench-core/src/core/data-integrity.js:602-626 | with no line break in the records or labels, the file has one header line plus one line per deviation |
| DataIntegrity.Guard.constructor | qbench-core/src/core/data-integrity.js:7-14 | locked, no deviations, no current deviation |
| DataIntegrity.Guard.Load | qbench-core/src/core/data-integrity.js:91-103 | the log becomes what was loaded, and a reload detaches a listed current deviation; the lock is untouched |
| DataIntegrity.Guard.Initialize | qbench-core/src/core/data-integrity.js:16-28 | with the feature off nothing changes; otherwise the stored log is loaded |
| DataIntegrity.Guard.SetProtection | qbench-core/src/core/data-integrity.js:46-49 | the protection checkbox sets the lock and logs nothing |
| DataIntegrity.Guard.Submit | qbench-core/src/core/data-integrity.js:309-357 | a rejected form changes nothing; an accepted one appends one open record, makes it current, saves the log and unlocks; history is kept |
| DataIntegrity.Guard.Lock | qbench-core/src/core/data-integrity.js:375-385 | always ends locked; only when unlocked with a current deviation is that record closed, forgotten as current and the log saved; history is kept |
| DataIntegrity.Guard.Export | qbench-core/src/core/data-integrity.js:589-626 | the exported file is the header, then one line per deviation in log order |
| DataIntegrity.SubmitThenLockCloses | qbench-core/src/core/data-integrity.js:345-346 | submitting and then locking leaves the old log followed by exactly one new record, closed at the lock time (see also lines 377-379) |
| MultiUnitSupport.Added | qbench-core/src/core/multi-unit-support.js:131-136 | adding appends a unit that is absent and leaves a present one alone |
| MultiUnitSupport.FirstIndex | qbench-core/src/core/multi-unit-support.js:147 | `indexOf` finds the first position holding the unit, and finds none only when it is absent |
| MultiUnitSupport.Removal | qbench-core/src/core/multi-unit-support.js:141-154 | removal is refused exactly when at most one unit is selected or the unit is absent; otherwise one occurrence goes and at least one unit is left |
| MultiUnitSupport.AddIdempotent | qbench-core/src/core/multi-unit-support.js:131-136 | adding twice is adding once |
| MultiUnitSupport.AddKeepsNoDuplicates | qbench-core/src/core/multi-unit-support.js:131-136 | adding never creates a duplicate |
| MultiUnitSupport.RemovalKeepsOrder | qbench-core/src/core/multi-unit-support.js:147-149 | the `splice` drops the first occurrence and keeps the other units in order |
| MultiUnitSupport.RemovalDropsUnit | qbench-core/src/core/multi-unit-support.js:147-153 | in a duplicate-free selection the unit is gone and every other unit stays |
| MultiUnitSupport.AddThenRemove | qbench-core/src/core/multi-unit-support.js:131-153 | adding a new unit and then unchecking it gives back the selection it started from |
| MultiUnitSupport.SelectionNeverEmpties | qbench-core/src/core/multi-unit-support.js:90-101 | no checkbox change empties a non-empty selection, and a checked unit is selected afterwards |
| MultiUnitSupport.FallbackDisplay | qbench-core/src/core/multi-unit-support.js:174-178 | a display unit still selected is kept; otherwise it becomes a selected unit |
| MultiUnitSupport.InitialDisplay | qbench-core/src/core/multi-unit-support.js:21 | the first allowed unit when it is non-empty, otherwise "ppb" |
| MultiUnitSupport.EscapeUnitForId | qbench-core/src/core/multi-unit-support.js:349-358 | the id contains only `[A-Za-z0-9_-]` and is never shorter than the unit |
| MultiUnitSupport.EscapeCons | qbench-core/src/core/multi-unit-support.js:350-357 | each character is escaped on its own: id characters kept, the four mapped characters as their words, others as `x` and their hex code units |
| MultiUnitSupport.EscapeKeepsIdText | qbench-core/src/core/multi-unit-support.js:350 | a unit already made of id characters is its own id |
| MultiUnitSupport.EscapeIdempotent | qbench-core/src/core/multi-unit-support.js:349-358 | escaping an id changes nothing |
| MultiUnitSupport.EscapeCollides | qbench-core/src/core/multi-unit-support.js:352 | the escape is not one-to-one: "/" and "_per_" get the same id |
| MultiUnitSupport.Selection.constructor | qbench-core/src/core/multi-unit-support.js:7-11 | nothing selected, display unit "ppb" |
| MultiUnitSupport.Selection.Initialize | qbench-core/src/core/multi-unit-support.js:16-21 | the selection copies `allowed_units` (`['ppb']` when missing) and the display unit is its first entry, or "ppb" |
| MultiUnitSupport.Selection.AddOutputUnit | qbench-core/src/core/multi-unit-support.js:131-136 | the selection becomes the added one; the display unit is untouched |
| MultiUnitSupport.Selection.RemoveOutputUnit | qbench-core/src/core/multi-unit-support.js:141-154 | returns true exactly when removal is allowed, and then removes; otherwise nothing changes |
| MultiUnitSupport.Selection.UpdateDisplayUnitSelector | qbench-core/src/core/multi-unit-support.js:159-179 | with the selector present, the display unit falls back to a selected unit; the selection is untouched |
| MultiUnitSupport.Selection.HandleUnitCheckboxChange | qbench-core/src/core/multi-unit-support.js:90-109 | a refused uncheck changes nothing; any other change updates the selection and then the display fallback |
| MultiUnitSupport.Selection.HandleDisplayUnitChange | qbench-core/src/core/multi-unit-support.js:114-115 | the display unit becomes the chosen one |
| ConditionFields.Underscored | qbench-core/src/core/condition-fields.js:181 | after the first replace only `[a-z0-9_]` remain |
| ConditionFields.Collapse | qbench-core/src/core/condition-fields.js:182 | no two underscores are adjacent, and the first and last characters are kept |
| ConditionFields.StripEdges | qbench-core/src/core/condition-fields.js:183 | without a doubled underscore, stripping leaves no underscore at either end |
| ConditionFields.SanitizeAnalyteName | qbench-core/src/core/condition-fields.js:178-184 | the prefix has only `[a-z0-9_]`, no doubled underscore and no underscore at either end |
| ConditionFields.CleanNameFixed | qbench-core/src/core/condition-fields.js:180-183 | a name that is already clean sanitizes to itself |
| ConditionFields.SanitizeIdempotent | qbench-core/src/core/condition-fields.js:180-183 | sanitizing twice is sanitizing once |
| ConditionFields.FieldNames | qbench-core/src/core/condition-fields.js:162-165 | each analyte gets four field names |
| ConditionFields.FieldNamesDistinct | qbench-core/src/core/condition-fields.js:162-165 | the four names of one analyte differ, and analytes with different prefixes share no name |
| ConditionFields.ParseResultValue | qbench-core/src/core/condition-fields.js:94-113 | missing or empty text, "NT" and "ND" read as 0; other text not starting with `<` reads as `parseFloat` of it trimmed, or 0 when that is NaN, so it is never NaN |
| ConditionFields.LessThanDotIsNaN | qbench-core/src/core/condition-fields.js:105-107 | as written, the cell "<." reads as NaN |
| ConditionFields.ResultValue | qbench-core/src/core/condition-fields.js:94-113 | the result is never NaN, and it equals the as-written result wherever that is not NaN |
| ConditionFields.LessThanReadsRun | qbench-core/src/core/condition-fields.js:105-107 | a `<` result reads as `parseFloat` of its first digit/dot run, or 0 when there is none |
| ConditionFields.ParseLimitValue | qbench-core/src/core/condition-fields.js:118-123 | missing, empty or non-numeric text is `null`; otherwise the limit is `parseFloat` of the trimmed text, never NaN |
| ConditionFields.EnsureNumericValue | qbench-core/src/core/condition-fields.js:211-222 | a missing value or non-numeric text becomes 0; NaN comes out only for a NaN number |
| ConditionFields.AsWrittenFieldIsNaN | qbench-core/src/core/condition-fields.js:105-107 | as written, the "<." cell reaches its field as NaN (see also lines 216-217) |
| ConditionFields.LimitOr0 | qbench-core/src/core/condition-fields.js:128-137 | a missing or falsy LOD/LOQ becomes 0, and a truthy one is passed through unchanged |
| ConditionFields.GetAnalyteData | qbench-core/src/core/condition-fields.js:67-89 | the limit is never NaN, missing text gives a 0 result and no limit, a falsy or missing LOD/LOQ gives 0, and only a result starting with `<` can be NaN |
| ConditionFields.AsWrittenDataIsNaN | qbench-core/src/core/condition-fields.js:82 | as written, the summary cell "<." gives the analyte a NaN result, whatever its limits |
| ConditionFields.GetAnalyteDataCorrected | qbench-core/src/core/condition-fields.js:67-89 | with the corrected result parser the result is never NaN, the limits are those of the as-written data, and the result equals the as-written one wherever that is not NaN, 0 otherwise |
| ConditionFields.FindField | qbench-core/src/core/condition-fields.js:191 | the lookup finds the first field of that name, and none only when no field has it |
| ConditionFields.UpsertSets | qbench-core/src/core/condition-fields.js:189-206 | after writing, the name looks up the new value; other names are unchanged; a field is added only when the name was absent; unique names stay unique |
| ConditionFields.WriteAnalyteSets | qbench-core/src/core/condition-fields.js:158-165 | each of the analyte's four names looks up the value written to it |
| ConditionFields.WriteAnalyteOthers | qbench-core/src/core/condition-fields.js:158-165 | writing an analyte changes no other name's lookup |
| ConditionFields.WriteAnalyteGrowth | qbench-core/src/core/condition-fields.js:158-165 | writing an analyte adds at most four fields and keeps names unique (see also lines 191-199) |
| ConditionFields.WriteAnalyteReuses | qbench-core/src/core/condition-fields.js:191-199 | writing an analyte a second time reuses its fields and adds none |
| ConditionFields.AnalyteListDistinct | qbench-core/src/core/condition-fields.js:51-62 | the analyte list holds each non-empty attribute exactly once |
| ConditionFields.GetAnalyteList | qbench-core/src/core/condition-fields.js:51-62 | the row loop filling a `Set` gives the analyte list |
| ConditionFields.Document.CreateConditionField | qbench-core/src/core/condition-fields.js:189-206 | the fields become the old ones with that name written, as a number |
| ConditionFields.Document.CreateConditionFieldsForAnalyte | qbench-core/src/core/condition-fields.js:158-165 | the fields become the old ones with the analyte's four fields written in order |
| WorksheetConfig.BaseFor | qbench-core/src/qbench-worksheet.js:90 | `target[key] \|\| {}` is never falsy |
| WorksheetConfig.DeepMerge | qbench-core/src/qbench-worksheet.js:86-96 | the keys are those of either side; target-only keys keep their value; a non-object source value replaces wholesale; an object source value gives an object |
| WorksheetConfig.MergeRecurses | qbench-core/src/qbench-worksheet.js:89-90 | an object source value is merged into the target's value, or into `{}` |
| WorksheetConfig.MergeNothing | qbench-core/src/qbench-worksheet.js:87-88 | an empty or non-object source gives a copy of the target |
| WorksheetConfig.MergeIntoEmpty | qbench-core/src/qbench-worksheet.js:86-96 | merging into `{}` gives back a deep copy of the source |
| WorksheetConfig.MergeIdempotent | qbench-core/src/qbench-worksheet.js:86-96 | merging the same source twice is merging it once |
| WorksheetConfig.DeepMergeOverItself | qbench-core/src/qbench-worksheet.js:86-96 | merging a merge result over the original target gives that result back |
| WorksheetConfig.MergeOverSelf | qbench-core/src/qbench-worksheet.js:86-96 | an object merged over itself is itself |
| WorksheetConfig.ValidateConfig | qbench-core/src/qbench-worksheet.js:46-81 | every default section is present in the validated configuration |
| WorksheetConfig.ValidateMissingConfig | qbench-core/src/qbench-worksheet.js:47-80 | no configuration, or a falsy one, gives exactly the defaults |
| WorksheetConfig.ValidateIdempotent | qbench-core/src/qbench-worksheet.js:46-81 | validating a validated configuration changes nothing |
| WorksheetConfig.StartOrder | qbench-core/src/qbench-worksheet.js:151-171 | start-up throws exactly when `features` is null; otherwise the UI manager and the calculations always start, each optional module starts exactly when its feature flag is truthy, and the modules start in the fixed order multi-unit, data integrity, UI manager, calculations, condition fields |
| WorksheetConfig.NullFeaturesThrow | qbench-core/src/qbench-worksheet.js:155 | a site configuration with `features: null` survives validation as null, so start-up throws |
| WorksheetConfig.DefaultsStartEverything | qbench-core/src/qbench-worksheet.js:151-171 | with the defaults every optional module starts, in the order multi-unit, data integrity, UI manager, calculations, condition fields |
| WorksheetConfig.Worksheet.constructor | qbench-core/src/qbench-worksheet.js:13-17 | no configuration and not initialized |
| WorksheetConfig.Worksheet.Init | qbench-core/src/qbench-worksheet.js:23-41 | the validated configuration is kept and the worksheet is marked initialized |
| UiManager.Toggle | qbench-core/src/core/ui-manager.js:143-148 | a click always leaves the column ascending or descending |
| UiManager.ToggleAlternates | qbench-core/src/core/ui-manager.js:143-148 | clicks alternate between ascending and descending |
| UiManager.ResetBelow | qbench-core/src/core/ui-manager.js:153-158 | the reset loop records no new column |
| UiManager.Clicked | qbench-core/src/core/ui-manager.js:139-158 | the clicked column is toggled; every other recorded column among the headers becomes 'none'; recorded columns beyond the headers are untouched |
| UiManager.ClickedHasOneActiveColumn | qbench-core/src/core/ui-manager.js:139-158 | after a click, among the headers only the clicked column is sorted |
| UiManager.ClickTwiceReverses | qbench-core/src/core/ui-manager.js:143-150 | clicking the same column again reverses its direction |
| UiManager.OtherColumnStartsAscending | qbench-core/src/core/ui-manager.js:143-158 | clicking another column sorts it ascending |
| UiManager.ClickKeepsOthersSettled | qbench-core/src/core/ui-manager.js:153-158 | a second click on the same column leaves every other column as the first left it |
| UiManager.SortStates.constructor | qbench-core/src/core/ui-manager.js:97-98 | no table has a recorded state |
| UiManager.SortStates.SortTable | qbench-core/src/core/ui-manager.js:138-166 | only the clicked table's state changes, to the clicked state, and the sort runs ascending exactly when the column became 'asc' |
| UiManager.Negate | qbench-core/src/core/ui-manager.js:192 | negation is NaN exactly for NaN |
| UiManager.NegateInvolutive | qbench-core/src/core/ui-manager.js:192 | negating twice gives the value back |
| UiManager.SubAntisymmetric | qbench-core/src/core/ui-manager.js:186-190 | swapping the operands of the difference negates it |
| UiManager.RemoveMarks | qbench-core/src/core/ui-manager.js:235 | no ✓ ✗ ⚠ – is left, and text without them is unchanged |
| UiManager.SortValueOf | qbench-core/src/core/ui-manager.js:201-244 | only plain text gets a text sort key, and that key is the trimmed text lower-cased |
| UiManager.TextSortsLowercased | qbench-core/src/core/ui-manager.js:201-244 | a cell sorts as text exactly when it is not a placeholder, not ND, not under a limit, not a percentage, not a number, and neither Pass nor Fail once its marks are stripped; it then sorts by its lower-cased text |
| UiManager.PercentKey | qbench-core/src/core/ui-manager.js:221-225 | a percentage no earlier rule claims sorts by `parseFloat` of the text without its first "%", and shows that number or 0 when it is NaN |
| UiManager.PercentOrder | qbench-core/src/core/ui-manager.js:221-225 | "n%" sorts as n |
| UiManager.PlaceholdersRankFixed | qbench-core/src/core/ui-manager.js:206-213 | "", "-" and "NT" sort as 9999 and "ND" as −9999, before any numeric reading |
| UiManager.StatusComesLast | qbench-core/src/core/ui-manager.js:234-240 | a status key comes only from text that fails every earlier rule; Pass is 1 and Fail is 2 after the marks are stripped |
| UiManager.StatusFromMarkedText | qbench-core/src/core/ui-manager.js:234-240 | text that fails every earlier rule and is Pass or Fail once stripped is a status |
| UiManager.BelowLimitKey | qbench-core/src/core/ui-manager.js:215-219 | a `<` or LOQ cell sorts just under its first digit/dot run, or under 0 |
| UiManager.NumericKey | qbench-core/src/core/ui-manager.js:228-231 | a number that no earlier rule claims sorts and shows as its `parseFloat` value |
| UiManager.DigitsPassNoEarlierRule | qbench-core/src/core/ui-manager.js:206-225 | plain digits match none of the placeholder, ND, below-limit or percent rules |
| UiManager.LimitRun | qbench-core/src/core/ui-manager.js:216-217 | the run read from `<` and digits is the digits |
| UiManager.BelowLimitOrder | qbench-core/src/core/ui-manager.js:215-219 | `<n` sorts as n − 0.001 |
| UiManager.NumberOrder | qbench-core/src/core/ui-manager.js:228-231 | `n` sorts as n |
| UiManager.LeadingRunOfDigits | qbench-core/src/core/ui-manager.js:216 | the leading digit/dot run of a digit string is the whole string |
| UiManager.Compare | qbench-core/src/core/ui-manager.js:176-193 | a row without the cell compares equal |
| UiManager.DescendingNegates | qbench-core/src/core/ui-manager.js:192 | the descending comparison is the negated ascending one |
| UiManager.CompareAntisymmetric | qbench-core/src/core/ui-manager.js:186-192 | unless both keys are text, swapping the cells negates the comparison |
| UiManager.CompareNumbers | qbench-core/src/core/ui-manager.js:186-190 | two numeric keys compare as their difference |
| UiManager.BelowLimitComparesUnder | qbench-core/src/core/ui-manager.js:186-192 | ascending, `<n` sorts just before `n` |
| UiManager.BelowLimitComparesOverDescending | qbench-core/src/core/ui-manager.js:186-192 | descending, `<n` sorts just after `n` |
| UiManager.PassBeforeFail | qbench-core/src/core/ui-manager.js:186-192 | ascending, a Pass cell sorts before a Fail cell (see also lines 237-238) |

## Left out

- Service calls, the console, the progress bar and `QB.success`: the
  services' answers are inputs and the logging is not modelled.
- `FileReader`: a file is its name and its text.
- JSON encoding and decoding (`JSON.parse`/`JSON.stringify` of
  `ws_instrument_results`, `testing_file_order` and `control_data`): these are
  nested maps and lists, modelled once decoded. A stored worksheet that
  cannot be decoded counts as one that cannot be fetched.
- Sample and test ids as JSON numbers or strings: they are integers, and
  QC-flag cache entries are booleans rather than "1"/"0".
- Floating point: numbers are exact reals plus NaN and the infinities.
  `toPrecision(5)` in `toFloat`, binary64 rounding and signed zero are not
  modelled.
- FileParse.ToFloat: does not round to five significant figures, because
  numbers are exact reals.
- ConditionFields.GetAnalyteData: the missing summary row (`return null`,
  `condition-fields.js:69`) and the `status` and `unit` fields (`:84-85`) are
  not modelled; these are DOM reads that the written fields do not use.
- TestIndex: sample ids at or above 2^32 - 1 are not modelled. JavaScript
  enumerates such keys after the array-index keys, in insertion order, so
  the owner found need not be the lowest sample.
- `toLowerCase` covers ASCII, Latin-1 and the Kelvin sign only. Other
  case mappings are not modelled.
- `sampleWorksheets/fileParser.js` (the superseded tab-delimited importer) is
  not modelled. Only its layout is kept, as `FileParse.TabFormat`, and the
  row classifier takes the layout as a parameter.
- Clocks (`Date.now`, `toISOString`, `toLocaleString`) are parameters.
  Dates read back from ISO text are given as milliseconds with the text.
- The DOM is not modelled: modals, alerts, confirms, `innerHTML`, the CSV
  download, event listeners, tab indicators and tooltips, and table
  header/row rebuilding in multi-unit support. A missing element is a
  parameter where the code branches on it.
- DataIntegrity: the deviation review HTML is not modelled beyond its
  duration text. `getDeviations`, `isDataLocked` and `getCurrentDeviation`
  are plain field reads.
- DataIntegrity.Loaded: a stored value that parses to something other than
  a list or a falsy value is not modelled.
- ConditionFields: `populateConditionFields` is not modelled beyond one
  analyte's write. It is a `forEach` over the analyte list calling
  `createConditionFieldsForAnalyte`.
- ConditionFields: `clearConditionFields` and `getConditionFields` are not
  modelled, since they are DOM queries. The calculations module's selected
  units and the unit config's limits are inputs to `GetAnalyteData`.
- ConditionFields.EnsureNumericValue: the field's text rendering of a number
  (`toString`) is not modelled; the field holds the number.
- WorksheetConfig: arrays, strings and other values are not spread or
  iterated by `deepMerge`; the model gives them no properties. A NaN
  configuration value, property order, inherited properties, and
  `undefined` or function values are not modelled.
- WorksheetConfig.StartOrder: only the order in which modules start is
  modelled. The `modules` map, the module constructors and the DOMContentLoaded
  deferral are not.
- UiManager: the constructor's configuration, tab switching, tooltips and the
  re-appending of rows are not modelled.
- UiManager.Compare: `localeCompare` is a parameter.
- UiManager.Compare: the host `Array.prototype.sort` is not modelled, only
  the comparator it is given. Its order with a comparator that can return
  NaN is implementation-defined, so "sorting reorders rows as a permutation"
  is not stated.
- `qbench-core/src/core/calculations.js` is not modelled. Its result
  calculation is a stub returning 0, and the rest is DOM reads and number
  formatting.
- The configuration examples, `smithers-config.js`, `rollup.config.js` and
  `qbench-worksheet-external.js` are not modelled: they are declarative data,
  build set-up and a demo page.

## Findings

| source | as written | input that shows it | evidently intended | confidence | as-written member | corrected member |
|---|---|---|---|---|---|---|
| qbench-core/src/core/condition-fields.js:105-107 | a `<` result takes `parseFloat` of the first `/[\d.]+/` match, and a match made only of dots gives NaN | the summary cell "<." | every path of `parseResultValue` returns a number, 0 when none can be read, so the Confident Cannabis field is numeric | not executed | ConditionFields.LessThanDotIsNaN | ConditionFields.ResultValue |
| sampleWorksheets/fileParser_simple.js:393-414 | each raw reading is deleted from `worksheetData` as it is copied into the test's results, before `TestService.update` is sent | a test whose worksheet update is refused | a reading is given up only when the update carrying it is accepted, so a refused update leaves it for the batch patch | not executed | Ingestion.FailedUpdateLosesReadings | Ingestion.MergeStepKept |
