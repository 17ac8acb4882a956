# Bakery cash-close dashboard — a Dafny model

The application reads a photographed cash-register closing ("cierre de caja")
of a bakery and turns it into a daily report. It compares what the till
system says was sold (the system side) with what was counted in the drawer
(the real side, "arqueo real"). The report is then reviewed in an editor,
saved into a list, exported as CSV and summed up on a dashboard.

The model covers the logic of that pipeline. All money is in whole
currency units (`int`).

- `Extraction` (`services/geminiService.ts`) holds:
  - the five-rule validator of a raw extracted record, where any field may
    be absent (`Option`);
  - the status classifier, with a ±50 band and a review whenever a warning
    is present;
  - the normaliser, which turns the raw record into a `DailyReport`;
  - the wrapper around the model call;
  - the data-URL clean-up and base64 padding of the uploaded file.

  The validator is specified by `Checks`, the list of findings in rule
  order, and `Message` renders each finding. `ValidateReportData` builds
  the warning list imperatively, one rule at a time, and is proved equal to
  that specification.
- `Editor` (`components/ReportEditor.tsx`) is a `ReportEditor` class. It
  holds the report under review and has the totals effect
  (`RecalculateTotals`, specified by `Rederived`). The effect runs after
  mounting and after every edit of its dependencies: the single-bucket
  update, warning dismissal with JavaScript `splice` semantics, and a new
  expenses amount. Date and shift edits leave the totals alone.
- `AppState` (`App.tsx`) holds:
  - the upsert of a saved report by id;
  - the three demo records, proved to be fixed points of the editor's
    effect and to pass the validator;
  - an `App` class with the saved list, the report being edited and the
    active tab.
- `CsvExport` (`components/ReportList.tsx`) builds the CSV content: a fixed
  prefix, 13 header labels, then one row per report. It proves that the
  content splits back into the header line and one line per report, each of
  13 cells, whenever no cell holds a comma or a line break.
- `Dashboard` (`src/app/components/Dashboard.tsx`) holds:
  - the headline sums, computed with left folds and proved equal to
    reference sums;
  - the payment-method slices, in fixed channel order and filtered to
    positive values;
  - a stable insertion sort by date on a copy of the list;
  - the timeline points and the empty-state choice.
- `ResponseParsing` (`src/app/services/geminiService.ts`) holds:
  - the API-key guard;
  - the greedy `{…}` cut of the model's answer;
  - `split(',')[1]` on a data URL.
- `Types` (`src/app/types.ts`) holds the shared records and the status rule
  shared by the classifier and the editor. `Strings` holds JavaScript
  string ordering, `join`, `split`, `repeat` and character search.
  `Wrappers` holds `Option` and `Result`.

Several JavaScript behaviours enter as parameters:

- `isValidDate` stands for "`Date.parse` is not NaN".
- `today` is the current `YYYY-MM-DD`.
- `show` is number-to-string.
- `timeOf` is `new Date(date).getTime()`.

Three source behaviours are worth knowing:

- An absent `systemTotal`, `realTotal` or `difference` makes the
  corresponding comparison NaN-valued in JavaScript, so that rule never
  fires. The model keeps this.
- The future-date rule compares dates as strings. Only zero-padded
  `YYYY-MM-DD` dates compare as days do; `Extraction.UnpaddedPastDateIsFuture`
  shows an unpadded past date flagged as future.
- The editor's real total includes the real `other` bucket, but the
  validator's real-side sum leaves it out. `Editor.RederivedAgainstValidator`
  proves the two agree exactly when `other` is within the ±5 tolerance, so
  always when it is 0.

## Model

| member | source | states |
|---|---|---|
| Strings.LexLess | services/geminiService.ts:27 | JavaScript string `<`: a proper prefix sorts before the longer string |
| Strings.LexLessFirstDifference | services/geminiService.ts:27 | at the first position where two strings differ, the smaller character makes the smaller string |
| Strings.LexLessTransitive | services/geminiService.ts:27 | JavaScript string order is transitive |
| Strings.LexLessIrreflexive | services/geminiService.ts:27 | a date string is never later than itself under JavaScript string `>` |
| Strings.LexLessTrichotomy | services/geminiService.ts:27 | JavaScript string order is total and asymmetric |
| Strings.Repeat | services/geminiService.ts:12 | `"=".repeat(n)` has length n and holds only that character |
| Strings.Split | src/app/services/geminiService.ts:79 | `split` gives at least one part and no part holds the separator |
| Strings.SplitWithoutSeparator | src/app/services/geminiService.ts:79 | a string without the separator splits into itself alone |
| Strings.SplitAtFirstSeparator | src/app/services/geminiService.ts:79 | splitting cuts at the first separator and continues on the rest |
| Strings.JoinLayout | components/ReportList.tsx:36-37 | `join` lays out every part in order at its offset, with exactly one separator between consecutive parts and nothing else (the length is the parts' lengths plus one per gap); `SplitJoin` is its inverse |
| Strings.SplitJoin | components/ReportList.tsx:35-37 | splitting a joined list gives it back when no part holds the separator |
| Strings.SplitIsSingle | src/app/services/geminiService.ts:79 | a string splits into one part exactly when it has no separator |
| Strings.FirstIndexOf | src/app/services/geminiService.ts:57 | the first occurrence: present iff the character occurs, none before it |
| Strings.LastIndexOf | services/geminiService.ts:10 | the last occurrence: present iff the character occurs, none after it |
| Types.Set | components/ReportEditor.tsx:57-63 | `{...b, [field]: v}` sets that bucket and leaves the other four unchanged |
| Types.StatusFor | services/geminiService.ts:155-162 | REVIEW_REQUIRED iff warnings; else SHORTAGE iff difference < -50, SURPLUS iff > 50, BALANCED otherwise, including ±50 and an absent difference |
| Extraction.Checks | services/geminiService.ts:20-69 | at most one finding per rule, so never more than five |
| Extraction.InRuleOrderAppend | services/geminiService.ts:20-69 | appending one later rule's finding keeps the findings in rule order |
| Extraction.ChecksInRuleOrder | services/geminiService.ts:20-69 | findings come in strictly increasing rule order: date, system sum, real sum, missing cash, large difference |
| Extraction.LaterChecksIgnoreDate | services/geminiService.ts:31-67 | rules 2 to 5 never produce a date finding |
| Extraction.ChecksDateRule | services/geminiService.ts:24-29 | invalid date iff the date is absent, empty or unparseable; future iff valid and later than today; never both |
| Extraction.ChecksSystemRule | services/geminiService.ts:31-41 | the system warning, with the computed and stated numbers, is present iff the five system buckets (absent = 0) miss a present system total by more than 5 |
| Extraction.ChecksRealRule | services/geminiService.ts:43-57 | the real warning is present iff the four real channels plus expenses, without `other`, miss a present real total by more than 5 |
| Extraction.ChecksSentinels | services/geminiService.ts:59-67 | missing cash iff real cash is 0 or absent and the real total is positive; large discrepancy iff the difference is beyond ±1000 |
| Extraction.MessagesTellChecksApart | services/geminiService.ts:24-67 | the texts of findings of different kinds never coincide, whatever numbers they carry, so a warning names the check that raised it |
| Extraction.Render | services/geminiService.ts:20-69 | one message per finding |
| Extraction.RenderAppend | services/geminiService.ts:20-69 | the messages of two lists of findings are the messages of each, in order |
| Extraction.RenderChecks | services/geminiService.ts:20-69 | the messages of all findings are those of rule 1, then rule 2, up to rule 5 |
| Extraction.ValidateReportData | services/geminiService.ts:20-70 | the pushed warnings are exactly the messages of `Checks`, in order |
| Extraction.DateRule | services/geminiService.ts:24-29 | rule 1 appends to the warnings exactly the message of its date finding, if it has one |
| Extraction.SystemRule | services/geminiService.ts:31-41 | rule 2 appends to the warnings exactly the message of its system-sum finding, if it has one |
| Extraction.RealRule | services/geminiService.ts:43-57 | rule 3 appends to the warnings exactly the message of its real-sum finding, if it has one |
| Extraction.CashRule | services/geminiService.ts:59-62 | rule 4 appends to the warnings exactly the message of its missing-cash finding, if it has one |
| Extraction.DifferenceRule | services/geminiService.ts:64-67 | rule 5 appends to the warnings exactly the message of its large-difference finding, if it has one |
| Extraction.ClassifyStatus | services/geminiService.ts:155-162 | the status is the shared status rule, and REVIEW_REQUIRED iff there is a warning |
| Extraction.NormaliseBreakdown | services/geminiService.ts:169-183 | every bucket is the raw bucket or 0 when absent |
| Extraction.Normalise | services/geminiService.ts:164-189 | carries exactly the given id, status and warnings and the date; a present non-empty shift is kept and the shift is "N/A" iff absent or empty; present notes are kept, absent ones become ""; each total, the expenses and the difference are kept when present and 0 when absent; each breakdown is normalised bucket by bucket; the normalised sums equal the sums the validator checked |
| Extraction.NormaliseAsRaw | services/geminiService.ts:164-189 | normalising a complete record gives the report back |
| Extraction.ExactSumsNoArithmeticWarning | services/geminiService.ts:31-57 | exact totals never raise either sum warning |
| Extraction.ZeroCashIsFlagged | services/geminiService.ts:59-62 | zero cash against a real total of 500 is always flagged |
| Extraction.LargeShortageNeedsReview | services/geminiService.ts:64-67 | a difference of -1500 is flagged and forces REVIEW_REQUIRED |
| Extraction.UnpaddedPastDateIsFuture | services/geminiService.ts:27 | the date rule compares text: a past date without zero padding ("2023-9-1") sorts after a padded today ("2023-10-01") and is flagged as future |
| Extraction.TodayIsNotFuture | services/geminiService.ts:24-29 | a valid report dated today gets neither date warning |
| Extraction.AnalyzeCashCloseImage | services/geminiService.ts:72-189 | missing key, then empty answer, then unparseable answer fail in that order; otherwise the report is the normalised record with the validator's warnings and the classifier's status |
| Extraction.LineLength | services/geminiService.ts:10 | the longest prefix without a line terminator, where `.` stops |
| Extraction.StripDataUrlPrefix | services/geminiService.ts:10 | the result is a suffix of the input, unchanged when it does not start with `data:` |
| Extraction.StripDataUrlKeepsPayload | services/geminiService.ts:10 | `data:<header>,<payload>` loses exactly `data:<header>,` |
| Extraction.FileToBase64 | services/geminiService.ts:10-14 | fewer than 4 `=` are appended to the stripped text, the length becomes a multiple of 4, and a text already of such length is unchanged |
| Editor.Rederived | components/ReportEditor.tsx:15-44 | system total is all five system buckets; real total is four channels plus expenses plus `other`; difference is real minus system; status by the shared rule; no other field changes |
| Editor.RederiveIdempotent | components/ReportEditor.tsx:38-50 | running the effect twice equals running it once |
| Editor.SpliceOne | components/ReportEditor.tsx:66-70 | a valid index removes exactly that warning, keeps the others in order and shortens the list by one; past the end removes nothing; -1 removes the last |
| Editor.StatusWithoutWarnings | components/ReportEditor.tsx:33-36 | with no warnings the status is fixed by the difference alone |
| Editor.RederivedAgainstValidator | components/ReportEditor.tsx:23-29 | after the effect the system rule never fires, and the real rule fires iff the real `other` bucket exceeds the tolerance; with `other` 0 both real sums agree |
| Editor.ReportEditor.constructor | components/ReportEditor.tsx:12-50 | the editor starts on the given report with the effect run once after mounting, so its totals are consistent |
| Editor.ReportEditor.RecalculateTotals | components/ReportEditor.tsx:15-44 | the new report is `Rederived` of the old one, and its totals are consistent |
| Editor.ReportEditor.UpdateBreakdown | components/ReportEditor.tsx:45-64 | exactly one bucket of the chosen breakdown changes and the other breakdown is unchanged; since the breakdown changed, the effect then re-derives the totals, the difference and the status, and nothing else changes |
| Editor.ReportEditor.DismissWarning | components/ReportEditor.tsx:45-70 | the warnings change by `SpliceOne`; since they changed, the effect then re-derives the totals and the status |
| Editor.ReportEditor.SetDate | components/ReportEditor.tsx:120 | only the date changes; the effect does not run, and consistent totals stay consistent |
| Editor.ReportEditor.SetShiftNumber | components/ReportEditor.tsx:129 | only the shift changes; the effect does not run, and consistent totals stay consistent |
| Editor.ReportEditor.SetExpenses | components/ReportEditor.tsx:191 | the same amount changes nothing; a new amount is set and the effect then re-derives the totals and the status |
| Editor.DismissThenShortage | components/ReportEditor.tsx:12-70 | a closing that is 500 short with one warning opens as REVIEW_REQUIRED, and dismissing that warning gives SHORTAGE |
| AppState.ReplaceById | App.tsx:47 | same length; each entry with the saved id becomes the saved report, and the others stay |
| AppState.Upsert | App.tsx:43-50 | a present id keeps the length and replaces by id; a new id appends at the end; the saved report is in the result |
| AppState.Others | App.tsx:47-49 | the entries with other ids, all drawn from the list |
| AppState.OthersAppend | App.tsx:49 | the other-id entries of a concatenation are those of each part |
| AppState.OthersOfReplace | App.tsx:47 | replacing by id leaves the other-id entries and their order unchanged |
| AppState.UpsertKeepsOthers | App.tsx:45-49 | entries with other ids are unchanged and keep their relative order |
| AppState.UpsertIdempotent | App.tsx:43-50 | saving the same report twice equals saving it once |
| AppState.DemoReports | App.tsx:57-76 | three demo records with distinct ids and distinct dates |
| AppState.DemoReportsSettled | App.tsx:57-76 | three demo records whose buckets add up to their totals, whose difference is real minus system, and whose status is BALANCED, SHORTAGE and SURPLUS |
| AppState.SettledIsFixedPoint | App.tsx:57-76 | a record that adds up and has `other` 0 is left unchanged by the editor's effect |
| AppState.SettledPassesValidation | App.tsx:57-76 | such a record, with a past valid date, non-zero cash and a modest difference, raises no warning |
| AppState.DemoReportsAreConsistent | App.tsx:57-76 | every demo record is a fixed point of the effect and passes the validator |
| AppState.App.constructor | App.tsx:10-16 | no reports, nothing being edited, dashboard tab |
| AppState.App.HandleSaveReport | App.tsx:43-53 | the list becomes the upsert and holds the saved report; editing closes; the dashboard tab is shown |
| AppState.App.LoadDemoData | App.tsx:56-79 | the list becomes the demo records; the dashboard tab is shown; the editor is untouched |
| CsvExport.RowFields | components/ReportList.tsx:19-33 | 13 cells, starting with date and shift and ending with the status |
| CsvExport.RowLine | components/ReportList.tsx:19-37 | when no cell holds a comma, the row splits back into its 13 cells |
| CsvExport.RowLines | components/ReportList.tsx:19-37 | one line per report, in input order |
| CsvExport.ExportToCsv | components/ReportList.tsx:11-37 | nothing for an empty list; otherwise the prefix, then the header line and the report lines joined by line breaks, without a trailing break |
| CsvExport.JoinCons | components/ReportList.tsx:36-37 | header, line break, then the joined rows is one join of all lines |
| CsvExport.HeadersHaveNoLineBreak | components/ReportList.tsx:14-17 | no header label holds a line break |
| CsvExport.HeaderLine | components/ReportList.tsx:14-17 | the joined header is a single line |
| CsvExport.RowReadsBack | components/ReportList.tsx:19-37 | a row whose cells hold no comma or line break splits back into its 13 cells and is one line |
| CsvExport.LinesReadBack | components/ReportList.tsx:35-37 | lines joined by line breaks split back into the same lines |
| CsvExport.CsvReadsBack | components/ReportList.tsx:35-37 | the content has reports.length + 1 lines: the header line, then each report's 13 cells in order |
| CsvExport.JoinKeepsOut | components/ReportList.tsx:36-37 | joining introduces no character other than the separator |
| Dashboard.Reduce | src/app/components/Dashboard.tsx:17-19 | the `reduce` left fold from `acc` is `acc` plus the reference sum |
| Dashboard.TotalAppend | src/app/components/Dashboard.tsx:17-19 | sums split over concatenation |
| Dashboard.TotalUpdate | src/app/components/Dashboard.tsx:21-25 | swapping in a report with the same value keeps the sum |
| Dashboard.Summarise | src/app/components/Dashboard.tsx:17-19 | total sales, difference and expenses are the sums over all reports; all 0 when the list is empty |
| Dashboard.SummariseAppend | src/app/components/Dashboard.tsx:17-19 | one more report adds its own figures |
| Dashboard.Slice | src/app/components/Dashboard.tsx:21-25 | a channel's slice is named for it and holds the sum of that real bucket |
| Dashboard.KeepPositive | src/app/components/Dashboard.tsx:26 | the filter never grows the list |
| Dashboard.KeepPositiveMembers | src/app/components/Dashboard.tsx:26 | exactly the slices with a positive value survive |
| Dashboard.KeepPositiveAppend | src/app/components/Dashboard.tsx:26 | the filter distributes over concatenation, keeping relative order |
| Dashboard.KeepPositiveOfFour | src/app/components/Dashboard.tsx:21-26 | filtering four slices keeps each one in place if positive |
| Dashboard.PaymentMethodData | src/app/components/Dashboard.tsx:21-26 | the chart is cash, electronic, delivery, current account in that order, each the sum of its real bucket, each only if positive |
| Dashboard.PaymentMethodDataIgnoresOther | src/app/components/Dashboard.tsx:21-26 | changing a real `other` bucket does not change the chart |
| Dashboard.SortedCons | src/app/components/Dashboard.tsx:29 | a report no later than the head of a sorted list keeps it sorted |
| Dashboard.Insert | src/app/components/Dashboard.tsx:29 | insertion adds exactly the one report |
| Dashboard.InsertSorted | src/app/components/Dashboard.tsx:29 | insertion keeps a list sorted by time |
| Dashboard.SortByDate | src/app/components/Dashboard.tsx:29 | the copy is sorted by time and is a permutation of the list |
| Dashboard.InsertAt | src/app/components/Dashboard.tsx:29 | insertion puts the report ahead of those at the same instant |
| Dashboard.SortByDateIsStable | src/app/components/Dashboard.tsx:29 | reports at the same instant keep their order |
| Dashboard.TotalInsert | src/app/components/Dashboard.tsx:29 | insertion adds the report's value to any sum |
| Dashboard.SortByDateKeepsTotals | src/app/components/Dashboard.tsx:29 | sorting changes no sum |
| Dashboard.DataOverTime | src/app/components/Dashboard.tsx:31-36 | one point per report, in order, copying date, sales, counted total and expenses |
| Dashboard.Render | src/app/components/Dashboard.tsx:15-48 | the empty state iff there are no reports; otherwise the figures, the chart, and as timeline the points of the date-sorted copy, time-ordered and as long as the list |
| Dashboard.TimelineMatchesSummary | src/app/components/Dashboard.tsx:17-36 | the sorted copy holds the same reports, with the same sales and expense totals as the headline figures |
| ResponseParsing.ExtractJsonSlice | src/app/services/geminiService.ts:56-60 | fails with the format error iff no `{` has a later `}`; a success starts with `{` and ends with `}` |
| ResponseParsing.ExtractJsonSliceBounds | src/app/services/geminiService.ts:57 | the slice is exactly the text from the first `{` to the last `}` |
| ResponseParsing.AnalyzeCashCloseImage | src/app/services/geminiService.ts:10-13 | a missing key fails before anything else; otherwise the result is the slice of the answer |
| ResponseParsing.DataUrlPayload | src/app/services/geminiService.ts:79 | absent iff the data URL has no comma; a present payload holds no comma |
| ResponseParsing.DataUrlPayloadOf | src/app/services/geminiService.ts:79 | `header,payload` (with or without more comma-separated text) gives the payload |

## Left out

- Floating-point arithmetic: money is exact integers. The ±5 tolerance is kept as written, although the source has it only as floating-point slack. Input parsing with `parseFloat(...) || 0` (components/ReportEditor.tsx:247) is not modelled; the editor methods take integers.
- The model calls, the prompt text, the response schema and `JSON.parse`. They are foreign calls: the root `AnalyzeCashCloseImage` takes the model's answer and its parse result (`None` when parsing throws) as parameters. The Next.js variant returns the JSON slice, and the unchecked cast of its parse is not modelled.
- `FileReader`, promises and error logging. Only the string transformations are kept.
- The database services (`dbService.ts`, `src/app/dbService.ts`), because they are SQL I/O.
- The JSX rendering, recharts, icons, colours, and `toLocaleString` and currency formatting.
- `encodeURI` and the DOM download in `exportToCSV`.
- `crypto.randomUUID`: the id is a parameter.
- `Date.parse`, `new Date().toISOString()` and `getTime()`. These are the parameters `isValidDate`, `today` and `timeOf`.
- NaN sort keys for unparseable dates are not modelled, because `timeOf` returns an integer.
- JavaScript compares strings by UTF-16 code units; the model compares by characters, which is the same for the ASCII dates involved.
- Extraction.Normalise: an absent date is carried as the empty string, where JavaScript keeps `undefined`.
- Extraction.Render: its contract states only the count of messages. Their text is tied to the findings through `ValidateReportData`'s contract, because `Render` is defined from `Message`.
- The stray `};` at the end of `src/app/services/geminiService.ts` is a syntax slip. The functions are modelled by their evident behaviour.
- The app's other state setters, because they only move the screen: the tab buttons, opening a report in the editor, cancelling, and the upload handler with its processing and error flags.
