# ReceiptVision core, modelled in Dafny

ReceiptVision is a personal-finance web application. This project models the
parts of it that carry logic rather than layout.

- **Invoice pipeline.**
  - `InvoiceProcessor` sends a photographed invoice to a generative model. It
    strips the code fences from the reply and parses the JSON.
  - `InvoiceFormEditor` lets the user correct the extracted record.
  - `InvoiceDataHandler` files the record as an income row under an income
    source named after the company. It reuses that source or creates it.
- **Analytics page.** Monthly income and expense totals, per-category
  spending, the grand totals, the planned-budget view and the spending tips.
- **Goals page.**
  - A dialog that creates or edits savings goals.
  - Deleting a goal and updating its progress.
  - The tips shown on each goal.
- **The two chart components.** The pie chart builds percentage shares with a
  cycling palette. The bar chart builds five weekday rows with 0 defaults.

## Modules

| Module | File | Form |
|---|---|---|
| `Wrappers` | `wrappers.dfy` | `Option` and `Result` |
| `JsStrings` | `js_strings.dfy` | the ECMAScript white-space set and `trim` |
| `JsNumbers` | `js_numbers.dfy` | `parseFloat`, `Number.prototype.toString`, and division with its infinities and NaN |
| `JsValues` | `js_values.dfy` | dynamically typed values, truthiness, `||` and `String(v)` |

The components come next:

- `InvoiceForm`, `InvoiceProcessor` and `InvoiceDataHandler` are classes for
  the component state, plus functions for the pure steps.
- `Analytics` and `Goals` are methods with loops where the source reduces or
  iterates. Each is proved against a specification function.
- `PieChart` and `BarChart` are functions.
- `InvoicePipeline` holds lemmas that span the three invoice components.

### Modelling choices

- **Amounts.** Amounts are exact rationals. Analytics amounts are whole cents.
- **Supabase tables.** Each table is an in-memory sequence with an id counter.
  A failed database call is an input flag or a `Faults` record.
- **Stored numbers.** JSON has no NaN, so a NaN amount written to a table is
  stored as null, and a null amount read back counts as 0 in arithmetic.
  `JsValues.Store` and `JsValues.Arithmetic` model this boundary.
- **Foreign calls.** The generative model and `JSON.parse` are `Service`
  tables. A table maps each input to its answer, with a default answer for
  every other input.
- **Fixed inputs.** The wall clock and the `FileReader` result are parameters.

## Model

| member | source | states |
|---|---|---|
| JsStrings.TrimStart | src/components/InvoiceProcessor.jsx:106 | result is a suffix; everything dropped is white space; the result starts with non-white space or is empty |
| JsStrings.TrimEnd | src/components/InvoiceProcessor.jsx:106 | result is a prefix; everything dropped is white space; the result ends with non-white space or is empty |
| JsStrings.TrimIsInfix | src/components/InvoiceProcessor.jsx:106 | `trim` returns the infix of the text between its leading and its trailing white space, character by character |
| JsStrings.TrimmedEnds | src/components/InvoiceProcessor.jsx:106 | a trimmed text is empty or has non-white-space characters at both ends |
| JsStrings.TrimIdempotent | src/components/InvoiceProcessor.jsx:106 | trimming twice equals trimming once |
| JsStrings.TrimKeepsInnerText | src/components/InvoiceProcessor.jsx:106 | a text with no white space at either end is unchanged by `trim` |
| JsNumbers.DigitPrefix | src/components/invoiceformEditor.jsx:34 | the longest run of digits at the start: a prefix, all digits, followed by a non-digit or the end |
| JsNumbers.ParseFloatDefinedIff | src/components/invoiceformEditor.jsx:34 | `parseFloat` gives a number exactly when a digit, or a point followed by a digit, comes after the white space and the sign; otherwise NaN |
| JsNumbers.NatToString | src/pages/GoalsAndTips.jsx:132-135 | the decimal text of a natural number is non-empty, all digits, and reads back as the same value |
| JsNumbers.ParseFloatOfDigits | src/pages/GoalsAndTips.jsx:91-92 | `parseFloat` of a digit string is that string's value |
| JsNumbers.ParseFloatOfNegatedDigits | src/pages/GoalsAndTips.jsx:91-92 | `parseFloat` of a minus sign followed by digits is the negated value |
| JsNumbers.WholeNumberRoundTrip | src/pages/GoalsAndTips.jsx:132-135 | `parseFloat(k.toString()) == k` for every whole number `k`, negative ones included |
| JsNumbers.NaNRoundTrip | src/pages/GoalsAndTips.jsx:132-135 | `parseFloat(NaN.toString())` is NaN |
| JsNumbers.Divide | src/pages/Analytics.jsx:157 | with a non-zero divisor, the exact quotient; with a zero divisor, +Infinity, -Infinity or NaN according to the sign of the dividend |
| JsNumbers.Percent | src/components/PieChartComponent.jsx:15 | `a / b * 100`: with `b != 0`, the finite `r` with `r * b == 100a`; with `b == 0`, an infinity or NaN according to the sign of `a` |
| JsValues.TextOrEmpty | src/components/invoiceformEditor.jsx:19 | a falsy value shows as "", and a string shows as itself |
| JsValues.ParseFloatOfWholeNumberText | src/components/invoiceformEditor.jsx:63 | the text of a whole number typed into the total is parsed back to that number |
| InvoiceForm.FormData.Set | src/components/invoiceformEditor.jsx:32-35 | the named field gets the new value and every other field is kept |
| InvoiceForm.InitialFormFields | src/components/invoiceformEditor.jsx:17-26 | recurring exactly when the reply says `true`; a truthy total, number, company, customer or frequency is kept and a falsy one defaults to 0 or ""; a missing date becomes today and a readable `YYYY-MM-DD` date is kept |
| InvoiceForm.InitialDescription | src/components/invoiceformEditor.jsx:19 | the description names number, company and customer, with "" for a missing part |
| InvoiceForm.EmptyDescription | src/components/invoiceformEditor.jsx:19 | with nothing extracted the description is "Invoice # from  - Customer: " |
| InvoiceForm.InitialFormFailsOnlyOnDate | src/components/invoiceformEditor.jsx:22 | building the initial record throws exactly when a date is present and is not a readable `YYYY-MM-DD` date, with a month from 1 to 12 and a day within that month's length, leap years included |
| InvoiceForm.ThirtyFirstOfFebruaryThrows | src/components/invoiceformEditor.jsx:22 | a reply dated "2023-02-31" makes building the initial record throw "Invalid time value" |
| InvoiceForm.LeapDayIsKept | src/components/invoiceformEditor.jsx:22 | a reply dated "2024-02-29" keeps that date |
| InvoiceForm.ChangedSpec | src/components/invoiceformEditor.jsx:30-36 | a number input stores `parseFloat(value)`, any other input stores the text; only the named field changes |
| InvoiceForm.FrequencyChangedSpec | src/components/invoiceformEditor.jsx:38-44 | the frequency is set, recurring becomes `value != "one-time"`, the other six fields are kept |
| InvoiceForm.RecurringChangedSpec | src/components/invoiceformEditor.jsx:46-52 | unticking forces "one-time"; ticking turns "one-time" into "monthly" and keeps any other frequency; the other six fields are kept |
| InvoiceForm.HandlersKeepCoupling | src/components/invoiceformEditor.jsx:30-52 | after either recurrence handler the form is recurring exactly when the frequency is not "one-time"; an edit of another field keeps that |
| InvoiceForm.InitialFormMayBeUncoupled | src/components/invoiceformEditor.jsx:20-21 | a reply with a frequency but no recurrence flag starts a form that breaks that coupling |
| InvoiceForm.FinalizeSpec | src/components/invoiceformEditor.jsx:59-68 | five fields are copied, the total is parsed, recurring is the truthiness of the flag, and the frequency is null unless recurring |
| InvoiceForm.CoupledSubmission | src/components/invoiceformEditor.jsx:59-68 | from a coupled form, the submitted record has a frequency exactly when it is recurring, and that frequency is never "one-time" |
| InvoiceForm.RecurringWithEmptyFrequency | src/components/invoiceformEditor.jsx:46-68 | ticking recurring on a form whose reply had no frequency submits a recurring record with frequency "" |
| InvoiceForm.InvoiceFormEditor.constructor | src/components/invoiceformEditor.jsx:17-28 | the form starts from the initial record, not submitting |
| InvoiceForm.InvoiceFormEditor.HandleChange | src/components/invoiceformEditor.jsx:30-36 | the new record is `Changed` of the old one |
| InvoiceForm.InvoiceFormEditor.HandleFrequencyChange | src/components/invoiceformEditor.jsx:38-44 | the new record is `FrequencyChanged` of the old one and is coupled |
| InvoiceForm.InvoiceFormEditor.HandleRecurringChange | src/components/invoiceformEditor.jsx:46-52 | the new record is `RecurringChanged` of the old one and is coupled |
| InvoiceForm.InvoiceFormEditor.HandleSubmit | src/components/invoiceformEditor.jsx:54-76 | hands `Finalize` of the record to `onSubmit`; the record is untouched; submitting ends false |
| InvoiceProcessor.IndexOf | src/components/InvoiceProcessor.jsx:51 | None exactly when the character is absent; otherwise its first position |
| InvoiceProcessor.SecondPieceSpec | src/components/InvoiceProcessor.jsx:51 | `split(',')[1]` is the comma-free text from just after the first comma up to the next comma or the end |
| InvoiceProcessor.ImagePayloadSpec | src/components/InvoiceProcessor.jsx:51 | without a comma the whole string is sent; otherwise the non-empty second piece, or the whole string when that piece is empty |
| InvoiceProcessor.ImagePayloadOfDataUrl | src/components/InvoiceProcessor.jsx:51 | a data URL `prefix,data` sends exactly `data` |
| InvoiceProcessor.StripFencesShrinks | src/components/InvoiceProcessor.jsx:106 | the fence replacement never lengthens the text |
| InvoiceProcessor.StripFencesWithoutBacktick | src/components/InvoiceProcessor.jsx:106 | a text without a backtick is left as it is |
| InvoiceProcessor.CleanReplyWithoutBacktick | src/components/InvoiceProcessor.jsx:106 | for such a reply the clean-up is a plain `trim` |
| InvoiceProcessor.StripClosingFence | src/components/InvoiceProcessor.jsx:106 | a closing "\n```" after backtick-free text is removed together with its newline |
| InvoiceProcessor.FencedReply | src/components/InvoiceProcessor.jsx:106-107 | a reply "```json\n…\n```" is cleaned to the trimmed payload inside the fence |
| InvoiceProcessor.NewlineBeforeOpeningFence | src/components/InvoiceProcessor.jsx:106 | a newline before "```json" is taken with the backticks by the second alternative, so "json" stays in the parsed text |
| InvoiceProcessor.ProcessInvoiceOutcome | src/components/InvoiceProcessor.jsx:44-112 | success exactly when the model answers and the cleaned answer parses, with the parsed value; each failure is rethrown with "Failed to process invoice: " before its message |
| InvoiceProcessor.FencedAnswerIsParsed | src/components/InvoiceProcessor.jsx:51-107 | a data URL answered with a fenced JSON block parses exactly the trimmed payload, or fails with the prefixed parse error |
| InvoiceProcessor.InvoiceProcessor.constructor | src/components/InvoiceProcessor.jsx:22-26 | every piece of state starts empty, and processing is false |
| InvoiceProcessor.InvoiceProcessor.HandleFileSelect | src/components/InvoiceProcessor.jsx:28-42 | the first file is selected and previewed, with result and error cleared; an empty choice changes nothing |
| InvoiceProcessor.InvoiceProcessor.Settle | src/components/InvoiceProcessor.jsx:125-136 | a value becomes the result; a failure sets the error and clears the result; processing ends |
| InvoiceProcessor.InvoiceProcessor.HandleProcess | src/components/InvoiceProcessor.jsx:114-136 | without a file nothing changes; otherwise processing ends false, with the parsed value as the result and no error, or the message as the error and no result |
| InvoiceDataHandler.Named | src/components/InvoiceDataHandler.jsx:17-21 | at most as many rows as the table; every source whose name is the company, each as often as it occurs in the table, and no other |
| InvoiceDataHandler.SingleId | src/components/InvoiceDataHandler.jsx:17-25 | the lookup yields an id exactly when it does not fail and exactly one source has that name, and then that source's id |
| InvoiceDataHandler.WithSource | src/components/InvoiceDataHandler.jsx:27-39 | one source appended under the next id; the income table is untouched |
| InvoiceDataHandler.ReusesSingleSource | src/components/InvoiceDataHandler.jsx:17-42 | exactly one matching source and a working lookup: the sources are untouched and the row points at that source |
| InvoiceDataHandler.CreatesSourceWhenNotSingle | src/components/InvoiceDataHandler.jsx:25-39 | no single match, or a failed lookup: a source "Income from <company>" is created under the next id, or a failed insert stops the run with the tables untouched |
| InvoiceDataHandler.AppendsOneIncomeRow | src/components/InvoiceDataHandler.jsx:45-64 | success exactly when the source is resolved and the income insert works; then exactly one row is appended and reported, with the invoice's amount as stored (null for NaN), its date and description, not recurring and "one-time"; on error the income table is untouched |
| InvoiceDataHandler.IncomeFailureKeepsNewSource | src/components/InvoiceDataHandler.jsx:27-59 | a failed income insert still leaves the source created earlier in the run |
| InvoiceDataHandler.RowPointsAtCompanySource | src/components/InvoiceDataHandler.jsx:23-49 | the row of a successful run points at a source named after the company |
| InvoiceDataHandler.WithSourceKeepsValid | src/components/InvoiceDataHandler.jsx:27-39 | appending a source keeps ids increasing and every row's source present |
| InvoiceDataHandler.ResolveKeepsValid | src/components/InvoiceDataHandler.jsx:17-42 | resolving keeps the tables well formed and yields the id of an existing source |
| InvoiceDataHandler.AppendIncomeKeepsValid | src/components/InvoiceDataHandler.jsx:45-57 | appending an income row under the next id that points at an existing source keeps the tables well formed |
| InvoiceDataHandler.ReconcileKeepsValid | src/components/InvoiceDataHandler.jsx:11-72 | every run keeps the tables well formed, whatever fails |
| InvoiceDataHandler.SameCompanySharesSource | src/components/InvoiceDataHandler.jsx:17-42 | two runs for one company, starting from at most one source of that name, file both rows under one source and leave exactly one such source |
| InvoiceDataHandler.Tables.constructor | src/components/InvoiceDataHandler.jsx:17-57 | empty, well-formed tables whose ids start at 1 |
| InvoiceDataHandler.Tables.InsertSource | src/components/InvoiceDataHandler.jsx:27-39 | the new source's id is the next id, and the tables become `WithSource` of the old ones |
| InvoiceDataHandler.Tables.InsertIncome | src/components/InvoiceDataHandler.jsx:45-57 | the invoice's row is appended under the next id and returned |
| InvoiceDataHandler.InvoiceDataHandler.constructor | src/components/InvoiceDataHandler.jsx:7-9 | not processing, no error |
| InvoiceDataHandler.InvoiceDataHandler.ProcessInvoiceToSupabase | src/components/InvoiceDataHandler.jsx:11-72 | tables and notice are as `Reconcile` gives them; well-formed tables stay well formed; processing ends false; the error is set exactly when `onError` is called |
| Analytics.TotalAppend | src/pages/Analytics.jsx:110-111 | totals add over concatenation |
| Analytics.SumForAbsent | src/pages/Analytics.jsx:12-25 | a month without rows sums to zero |
| Analytics.EntryTotal | src/pages/Analytics.jsx:27-28 | in a month-ordered summary an entry's total is its month's total |
| Analytics.AddToSpec | src/pages/Analytics.jsx:16-23 | adding a row keeps month order, adds its month, and adds its amount to its month only and to the grand total |
| Analytics.MonthlySpec | src/pages/Analytics.jsx:11-33 | the monthly summary is in ascending month order, has exactly the months with rows, gives each month the sum of its amounts, and adds up to the grand total |
| Analytics.MonthlyEntries | src/pages/Analytics.jsx:11-33 | each entry's total is the sum of its month's amounts |
| Analytics.SummaryUnique | src/pages/Analytics.jsx:27-28 | two ordered summaries with the same months and totals are equal, so the sorted result does not depend on the key order |
| Analytics.MonthAccumulator | src/pages/Analytics.jsx:12-25 | the accumulator's keys are the months with rows, each with its month's sum; its insertion order lists each key once |
| Analytics.InsertInOrder | src/pages/Analytics.jsx:27-28 | the entries end up in ascending month order, with exactly the accumulated months and their totals |
| Analytics.ProcessMonthlyData | src/pages/Analytics.jsx:11-33 | the result is ascending by month, covers exactly the months with rows, and gives each month its sum; it equals `Monthly` of the rows |
| Analytics.Dates | src/pages/Analytics.jsx:111-121 | one (month, amount) row per expense, in order |
| Analytics.FirstIndex | src/pages/Analytics.jsx:98-104 | the position of a row of that category |
| Analytics.FirstIndexIsFirst | src/pages/Analytics.jsx:98-104 | no earlier row has that category |
| Analytics.CategoryAccumulator | src/pages/Analytics.jsx:95-108 | one entry per category id, each with its first row's name, the sum of its amounts and 0 planned; keys listed in order of first appearance |
| Analytics.AddRow | src/pages/Analytics.jsx:96-107 | one reduce step keeps the accumulator's invariant for one more row |
| Analytics.KnownCategoryStep | src/pages/Analytics.jsx:106 | a row of a known category adds its amount to that entry only |
| Analytics.NewCategoryStep | src/pages/Analytics.jsx:98-106 | a row of a new category opens its entry and lists the category last |
| Analytics.CategoryTotals | src/pages/Analytics.jsx:95-108 | the category list holds one entry per category id, in order of first appearance, each with its first row's name, its summed spending and 0 planned |
| Analytics.SpentOnAbsent | src/pages/Analytics.jsx:95-108 | a category without rows has spent 0 |
| Analytics.BudgetFor | src/pages/Analytics.jsx:113-117 | remaining plus spent equals planned; percent used is `spent / planned * 100` when planned is positive, else 0 |
| Analytics.PlannedBudgets | src/pages/Analytics.jsx:113-117 | one budget per category, in the same order |
| Analytics.UnplannedBudgets | src/pages/Analytics.jsx:95-117 | categories built from expenses plan 0, so every budget shows minus the spending as remaining and 0 % used |
| Analytics.JoinedExpenses | src/pages/Analytics.jsx:95-97 | the expense rows with their categories, one per row in order, exactly when no row's category join is null |
| Analytics.JoinedTips | src/pages/Analytics.jsx:126-130 | no tips when the tip query gave none; otherwise one tip per row in order, exactly when no row's template join is null |
| Analytics.BuildPageData | src/pages/Analytics.jsx:65-137 | a failed income or expenses query, or a null category or template join, throws and leaves the page data as it was; otherwise monthly summaries, category summary, totals, spending, budgets, tips and transactions as the page state |
| Analytics.MonthlyMatchesTotals | src/pages/Analytics.jsx:110-121 | the monthly entries add up to the grand totals shown |
| Analytics.SpendingIsHighIff | src/pages/Analytics.jsx:157-164 | `expenses / income > 0.8` in whole numbers: `5e > 4i` for positive income, `5e < 4i` for negative income, `e > 0` for zero income |
| Analytics.HighestSpending | src/pages/Analytics.jsx:165-167 | a category with the largest spending, the first one among ties (the stable sort's front) |
| Analytics.GenerateTips | src/pages/Analytics.jsx:155-172 | the two fixed tips; the high-spending tip exactly when the ratio test holds; the highest-category tip when there are categories; then every active tip's description, in order |
| Analytics.AppendDescriptions | src/pages/Analytics.jsx:170 | the earlier tips are kept and the descriptions follow in order |
| BarChart.ChartData | src/components/BarChartComponent.jsx:14-41 | five rows, Monday to Friday; an omitted `data` counts as the empty object |
| BarChart.OmittedDataIsZero | src/components/BarChartComponent.jsx:14-41 | without data all ten values are 0 |
| BarChart.ShownValues | src/components/BarChartComponent.jsx:18-39 | a shown value is the day's value exactly when that is truthy and 0 otherwise |
| PieChart.SliceOf | src/components/PieChartComponent.jsx:12-17 | name and value are copied; the colour is palette entry `i mod 4`; with a non-zero total the percentage is the finite `amount / total * 100` |
| PieChart.ChartData | src/components/PieChartComponent.jsx:12-17 | one slice per item, in order |
| PieChart.ColorsRepeatEveryFour | src/components/PieChartComponent.jsx:5-16 | slices four apart share a colour |
| PieChart.NearbyColorsDiffer | src/components/PieChartComponent.jsx:5-16 | slices fewer than four apart differ in colour |
| PieChart.ScaledSums | src/components/PieChartComponent.jsx:9-15 | the percentages from any position on, times the total, equal 100 times the amounts from there on |
| PieChart.PercentagesSumToHundred | src/components/PieChartComponent.jsx:9-15 | with a non-zero total every share is finite and the exact shares add up to 100 |
| Goals.OrZero | src/pages/GoalsAndTips.jsx:91 | `x || 0` on a number is always finite and keeps a finite value |
| Goals.GoalRecord | src/pages/GoalsAndTips.jsx:88-95 | texts are copied; the target is parsed and a NaN target is stored as null; the current amount is parsed with 0 for NaN; owner, time and "active" are added |
| Goals.UpdateById | src/pages/GoalsAndTips.jsx:98-102 | rows with that id get the new data; ids and the other rows are kept |
| Goals.SetProgress | src/pages/GoalsAndTips.jsx:156-159 | only the current amount of rows with that id changes |
| Goals.DeleteById | src/pages/GoalsAndTips.jsx:142-145 | the remaining rows are exactly the rows without that id |
| Goals.DeleteAbsentId | src/pages/GoalsAndTips.jsx:142-145 | deleting an absent id leaves the table, order included, as it is |
| Goals.DeleteRemovesOneRow | src/pages/GoalsAndTips.jsx:142-145 | with distinct ids, deleting a present id removes exactly one row |
| Goals.UpdateKeepsValid | src/pages/GoalsAndTips.jsx:98-102 | updating keeps ids distinct and below the next id |
| Goals.SetProgressKeepsValid | src/pages/GoalsAndTips.jsx:156-159 | a progress update keeps ids distinct and below the next id |
| Goals.DeleteKeepsValid | src/pages/GoalsAndTips.jsx:142-145 | deleting keeps ids distinct and below the next id |
| Goals.EditForm | src/pages/GoalsAndTips.jsx:127-138 | the form shows the goal's texts and its amounts' `toString`; it throws the `null.toString()` error exactly when an amount is stored as null |
| Goals.EditThenSave | src/pages/GoalsAndTips.jsx:88-95 | editing a goal with whole stored amounts succeeds, and saving it unchanged writes back the same goal, refreshing only owner, time and status |
| Goals.GoalsPage.constructor | src/pages/GoalsAndTips.jsx:36-49 | an empty list, a closed dialog, no goal being edited, and the blank form |
| Goals.GoalsPage.FetchGoals | src/pages/GoalsAndTips.jsx:64-83 | on mount or reload the list shows the table; a failed query leaves the list as it was |
| Goals.GoalsPage.HandleSubmit | src/pages/GoalsAndTips.jsx:85-125 | updates the edited goal or inserts a new one under the next id, then closes, resets and reloads; a failed write changes nothing; the table stays well formed |
| Goals.GoalsPage.Save | src/pages/GoalsAndTips.jsx:98-121 | the successful write and the reset that follows it |
| Goals.GoalsPage.HandleEdit | src/pages/GoalsAndTips.jsx:127-138 | remembers the goal; fills the form from it and opens the dialog, or, when an amount is stored as null, throws and leaves form and dialog as they were |
| Goals.GoalsPage.HandleDelete | src/pages/GoalsAndTips.jsx:140-152 | the table loses the rows with that id and is reloaded; a failure changes nothing |
| Goals.GoalsPage.UpdateProgress | src/pages/GoalsAndTips.jsx:154-166 | that row's current amount becomes `parseFloat(newAmount)` as stored (null for NaN) and the table is reloaded; a failure changes nothing |
| Goals.GoalsPage.SetAmount | src/pages/GoalsAndTips.jsx:156-162 | the successful progress write and the reload |
| Goals.Progress | src/pages/GoalsAndTips.jsx:170 | with stored nulls read as 0: with a non-zero target the finite `current / target * 100`, 0 for a null current; with a zero target NaN or an infinity by the sign of the current amount |
| Goals.ClearedProgressReadsAsZero | src/pages/GoalsAndTips.jsx:154-170 | clearing the progress input stores null; with a positive target the goal then reads as 0 % and gets the "getting started" tip, and editing it throws |
| Goals.CategoryTips | src/pages/GoalsAndTips.jsx:179-195 | always a pair of tips |
| Goals.DefaultTipsIff | src/pages/GoalsAndTips.jsx:179-195 | the default pair is chosen exactly for categories other than the three named ones |
| Goals.GenerateTips | src/pages/GoalsAndTips.jsx:168-204 | the savings tip, then the category pair, then "getting started" below 25 %, "almost there" at 75 % or more, and nothing else |
| Goals.GettingStartedIff | src/pages/GoalsAndTips.jsx:197 | `progress < 25` without division, for a positive, a negative and a zero target |
| Goals.AlmostThereIff | src/pages/GoalsAndTips.jsx:199 | `progress >= 75` without division, for a positive, a negative and a zero target |
| InvoicePipeline.LedgerDescriptionMatchesInitial | src/components/InvoiceDataHandler.jsx:51 | the ledger description rebuilt from number, company and customer equals the form's initial description while those three fields are untouched |
| InvoicePipeline.TypedTotalIsRecorded | src/components/invoiceformEditor.jsx:63 | any whole number typed into the total's number input, negative ones included, is the amount recorded |
| InvoicePipeline.UnreadableTotalIsRecordedAsNull | src/components/invoiceformEditor.jsx:63 | a total whose text `parseFloat` cannot read is recorded as a null amount |
| InvoicePipeline.ClearedDateIsRecorded | src/components/invoiceformEditor.jsx:64 | a cleared date field is recorded as an empty income date |

## Left out

- **Excluded components.**
  - The camera capture, the other pages, routing and authentication are not
    part of this model.
  - The `user_id` filters of the queries are not modelled. The page is taken
    to see one user's rows.
- **The generative model and `JSON.parse`.** Both are foreign. Their answers
  are `Service` tables given as parameters. The prompt text and the model
  configuration are not modelled.
- **`FileReader`.** It is asynchronous. The data URL it produces is a field of
  the chosen file. The outer `catch` of `handleProcess` is left out; it covers
  only a synchronous failure of `readAsDataURL`.
- **Supabase.**
  - Every write, and the lookup of an income source, is modelled on an
    in-memory table with a failure flag for each call. The Analytics queries
    are modelled by their answers, with None for a failed query.
  - The reload (`fetchGoals`) that follows a successful write is taken to
    succeed. A failed query is modelled only for the load on mount,
    `Goals.GoalsPage.FetchGoals`.
  - `.single()` is modelled as "exactly one matching row". Any other count, or
    a failed call, is treated as "no source", as the handler does.
  - Ids come from a counter starting at 1. That counter stands in for the
    serial column.
  - Reloading (`fetchGoals`) is modelled as showing the whole table. Its
    filter by user and its ordering by `created_at` are left out.
  - The loading flags and console logging are left out.
- **JsNumbers.ParseFloat.**
  - Numbers are exact rationals, so binary floating-point rounding is not
    modelled.
  - `parseFloat("Infinity")`, infinities stored in fields, and -0 are not
    modelled.
- **JsNumbers.NumberToString.** It writes positional notation only, with at
  most 20 fraction digits. JavaScript switches to exponent notation below 1e-6
  and from 1e21 up. The round trip is proved for whole numbers only.
- **`toFixed(2)` formatting and month names.**
  - The two-decimal formatting of the pie percentages, the monthly amounts and
    the goal's monthly requirement is not modelled.
  - The `toLocaleString` month name of the monthly summary is not modelled.
    `Analytics.ProcessMonthlyData` returns the month keys and exact totals.
- **Dates.**
  - Time zones and `Date` parsing of anything other than a `YYYY-MM-DD` string
    are not modelled.
  - The form's initial date treats every other non-empty date as unreadable.
    A day past the end of its month is treated as unreadable too. Some
    JavaScript engines roll such a day over into the next month instead.
  - Analytics.Before orders months by calendar date. The page sorts its
    month keys with `localeCompare`, and the year in a key is not padded, so
    the two orders agree only for years 1000 to 9999.
  - Analytics rows carry their calendar month directly.
  - The six-month cut-off of the queries and the page's current-date header
    are left out.
- **Goals.GenerateTips.** The months-remaining arithmetic on dates is not
  modelled. `monthlyRequired` is the text the savings tip shows, given as a
  parameter.
- InvoiceDataHandler.Named: the contract does not state that the matches
  keep their table order. `.single()` reads only how many there are.
- **Analytics.CategoryTotals.** Categories are listed in order of first
  appearance. That is how `Object.values` lists string keys. Integer-like
  category ids would be listed in numeric order instead.
- **Analytics amounts.** Amounts are whole cents, and `Number(item.amount)` is
  taken to succeed. A non-numeric amount, which would give NaN, is not
  modelled.
- **Chart inputs.** The Analytics page hands its monthly arrays and its
  category entries to the chart components, with field names those components
  do not read. Each chart is modelled on the input shape it reads.
- **PieChart.ChartData.** The sum-to-100 property is proved only for a
  non-zero total. With a zero total every share is NaN or an infinity, as
  `Percent` states.
- **BarChart.ChartData.** A `null` `data` prop throws in the component and is
  not modelled. An omitted prop is modelled.
- **InvoiceForm validation.** The form performs no validation. A negative or
  unparsable total, an empty date, and a recurring invoice with an empty
  frequency are all submitted. The model follows the code here.
  `InvoiceForm.InitialFormMayBeUncoupled` and
  `InvoiceForm.RecurringWithEmptyFrequency` state this. A design in which the
  form rejects such records would differ.
- **Line items.** The line items of an invoice are not stored by the handler,
  so they are not modelled.
- **Timing.** The asynchronous interleaving of React state updates is not
  modelled. Each handler is one atomic step, and `onSubmit` is taken to
  return.
