# Finance dashboard core, modelled and verified in Dafny

This project models the bookkeeping logic of a React finance dashboard. Users
keep transactions `{type, category, amount, date}` and budget lines
`{category, budget, spent, color}`. Around those records the dashboard has
the following parts:

- a forecaster that buckets history by `YYYY-MM` month and predicts next month's income, expenses and savings (`src/models/FinancialPredictor.js`);
- a CSV exporter that folds transactions into one fixed-column row per day, and an importer that expands such rows back into transactions (`src/utils/transactionsToCsv.js`, `src/utils/csvToTransactions.js`);
- the aggregation and banding rules of the Reports, Budget, Dashboard, Transactions, Predictions and gold-price pages;
- the small state machines of the application shell, the budget editor, the transaction list, the chat assistant and the authentication provider.

One Dafny module stands for each source file:

- `Forecast` (forecast.dfy) models `src/models/FinancialPredictor.js`
- `CsvExport` (csv_export.dfy) models `src/utils/transactionsToCsv.js`
- `CsvImport` (csv_import.dfy) models `src/utils/csvToTransactions.js`
- `ReportsPage` (reports.dfy) models `src/components/Reports.js`
- `BudgetPage` (budget.dfy) models `src/components/Budget.js`
- `DashboardPage` (dashboard.dfy) models `src/components/Dashboard.js`
- `TransactionsPage` (transactions.dfy) models `src/components/Transactions.js`
- `App` (app.dfy) models `src/App.js`
- `ChatBot` (chatbot.dfy) models `src/components/ChatBot.js`
- `Auth` (auth.dfy) models `src/contexts/AuthContext.js`
- `Predictions` (predictions.dfy) models `src/components/Predictions.js`
- `Market` (other.dfy) models `src/components/Other.js`

Four modules are shared:

- `Common`: the records, an option type, JavaScript numbers and sums.
- `Text`: the string built-ins the code relies on, and ISO dates.
- `Sorting`: the stable comparator sorts.
- `Tallies`: the year filter and the per-period and per-category totals that Reports, Budget and Dashboard each compute the same way.

Where the source updates things step by step, the model does so too. The
React components' state becomes classes whose methods update fields:
`App.Shell`, `BudgetPage.BudgetEditor`, `TransactionsPage.TransactionsView`,
`ChatBot.ChatLog` and `Auth.AuthProvider`. Each `forEach` that fills an
object or pushes onto an array becomes a method with a loop. Each such method
is proved equal to a function, and the properties are then proved about that
function. Pure expressions stay functions.

Notes on the modelling:

- **Arithmetic.** It is exact `real` arithmetic.
- **Unguarded divisions.** These are the forecaster's trend and rates, the budget percentages, and the report alerts. They use the JavaScript number cases `Fin`, `PosInf`, `NegInf` and `NaN` (`Common.JsNum`) instead of preconditions that forbid a zero divisor. So what the page shows for a zero budget, or a zero older-window average, is part of the model.
- **Dates.** A date is read only when it is a date-only ISO string `YYYY-MM-DD` naming a real day. Any other text is unreadable, which is what `new Date` gives as NaN.
- **`Math.round`.** It is `Floor(x + 0.5)`.
- **Injected values.** The clock, the id generator, fetched prices and the browser's storage are parameters or fields.
- **The forecaster's sort** (`src/models/FinancialPredictor.js:72`). It compares a field the aggregates do not have, so every comparison gives NaN and the sort leaves the array as it is. The model keeps first-appearance order.

## Model

| member | source | states |
|---|---|---|
| App.PageFor | src/App.js:146-171 | "transactions", "budget" and "reports" each select their page, and exactly the other tabs, "dashboard" among them, select the dashboard |
| App.Stamp | src/App.js:120-131 | the added transaction keeps the form's type, category, amount and description; its date reads back as the clock's UTC day |
| App.WithoutId | src/App.js:134-136 | deleting never lengthens the list, and each transaction with another id stays exactly as often as it was there while those with the id are gone |
| App.WithoutIdMembers | src/App.js:134-136 | a transaction survives a delete exactly when it was present and has another id |
| App.WithoutAbsentId | src/App.js:134-136 | deleting an id that no transaction has leaves the list unchanged |
| App.WithoutIdInOrder | src/App.js:134-136 | the survivors keep their relative order: each is picked from a later position than the one before |
| App.Rebudget | src/App.js:138-144 | same length; category, spent and colour unchanged at every position; the budget becomes the new amount exactly where the category matches |
| App.RebudgetAbsent | src/App.js:138-144 | updating a category that no budget has changes nothing |
| App.RebudgetTwice | src/App.js:138-144 | two updates of one category leave only the second amount |
| App.Shell.constructor | src/App.js:9-118 | the shell starts on the dashboard tab with the initial transactions and budgets |
| App.Shell.SetTab | src/App.js:175 | the tab becomes the chosen one; transactions and budgets are untouched |
| App.Shell.AddTransaction | src/App.js:120-132 | the stamped transaction is prepended: one longer, the old list unchanged behind it, budgets and tab untouched |
| App.Shell.DeleteTransaction | src/App.js:134-136 | the list becomes the old list without the id; budgets and tab untouched |
| App.Shell.UpdateBudget | src/App.js:138-144 | the budgets become the old ones re-budgeted for the category; transactions and tab untouched |
| App.AddThenDelete | src/App.js:120-136 | adding a transaction and deleting its fresh id gives back the list as it was |
| Auth.EmailDomain | src/contexts/AuthContext.js:42 | the part after the first "@" holds no further "@" |
| Auth.OrganizationName | src/contexts/AuthContext.js:40-51 | "Personal Use" with no user; the hosted domain when it is set and differs from the e-mail's domain; otherwise the organisation name if set, else "Personal Use" |
| Auth.OwnDomainHidden | src/contexts/AuthContext.js:42-50 | a hosted domain equal to the e-mail's own domain falls through to the organisation name |
| Auth.UseAuth | src/contexts/AuthContext.js:5-11 | succeeds with the context exactly when there is a provider, and fails with the source's message otherwise |
| Auth.AuthProvider.constructor | src/contexts/AuthContext.js:13-15 | no user and still loading, over the given store |
| Auth.AuthProvider.Restore | src/contexts/AuthContext.js:17-28 | a parseable saved user is restored; an unparseable value is removed and the user stays unset; a missing or blank value changes nothing; loading ends false in every case |
| Auth.AuthProvider.Login | src/contexts/AuthContext.js:30-33 | the user is set, authenticated, and saved under "financeUser" |
| Auth.AuthProvider.Logout | src/contexts/AuthContext.js:35-38 | the user is cleared, not authenticated, and the "financeUser" key is removed |
| Auth.LoginSurvivesRestart | src/contexts/AuthContext.js:17-33 | a restart after signing in restores the same user |
| Auth.LogoutSurvivesRestart | src/contexts/AuthContext.js:17-51 | a restart after signing out finds no user, and the organisation is "Personal Use" |
| BudgetPage.ProgressPercentage | src/components/Budget.js:44-46 | never above 100 (and never +Infinity); for a positive budget a number in [0, 100] when spent is not negative, exactly 100 when spent has reached the budget, else spent/budget × 100; for a zero budget 100, NaN or -Infinity as spent is positive, zero or negative |
| BudgetPage.ProgressColor | src/components/Budget.js:48-52 | red exactly from 100, amber exactly from 80 below 100, green exactly below 80 (NaN included) |
| BudgetPage.ProgressColorBands | src/components/Budget.js:44-52 | for a positive budget the bar is red exactly when spent ≥ budget and amber exactly when 80% of the budget ≤ spent < budget |
| BudgetPage.RemainingAmount | src/components/Budget.js:54-56 | never negative; budget − spent when spent ≤ budget, 0 otherwise |
| BudgetPage.CategoryToYearSpent | src/components/Budget.js:58-69 | holds exactly the categories of the year's expense transactions, each with the total of that category's expenses in that year |
| BudgetPage.BudgetCard | src/components/Budget.js:109-117 | over budget exactly when the year's spending exceeds the budget; remaining and colour are the page's functions of the year's spending; the overrun printed is `spent − budget` of the line |
| BudgetPage.CardFor | src/components/Budget.js:109-117 | the card's spending is the year's expense total of the line's category, over budget exactly when that total exceeds the budget, and the remaining amount is never negative |
| BudgetPage.OverrunCanBeNegative | src/components/Budget.js:223-224 | a line over budget for the year can print a negative overrun, because the message uses `spent` and not the year's spending |
| BudgetPage.BudgetEditor.constructor | src/components/Budget.js:13-14 | nothing is being edited and the amount text is empty |
| BudgetPage.BudgetEditor.EditStart | src/components/Budget.js:26-29 | the line's category is being edited, starting from the text of its budget |
| BudgetPage.BudgetEditor.SetAmount | src/components/Budget.js:147 | the amount text becomes what was typed; the edited line is unchanged |
| BudgetPage.BudgetEditor.EditSave | src/components/Budget.js:31-37 | an accepted amount yields one update with the edited category and the parsed, positive amount, and clears the editor; any other text yields no update and leaves the editor unchanged |
| BudgetPage.BudgetEditor.EditCancel | src/components/Budget.js:39-42 | the editor is cleared and no update is made |
| BudgetPage.EditRoundTrip | src/components/Budget.js:26-37 | starting an edit on a whole-number budget and saving at once updates that category with that same budget |
| BudgetPage.RefusedAmounts | src/components/Budget.js:32 | empty text, non-numeric text and "0" are refused |
| ChatBot.MonthKey | src/components/ChatBot.js:34-38 | "unknown" exactly when the date does not read as a calendar date, otherwise the date's seven-character `YYYY-MM` prefix |
| ChatBot.MonthTally | src/components/ChatBot.js:39-48 | `byMonth` has an entry for exactly the month keys that occur |
| ChatBot.InMonth | src/components/ChatBot.js:36-39 | the transactions of one month key, each from the input |
| ChatBot.InMonthKeys | src/components/ChatBot.js:36-39 | a transaction is in a month exactly when it is in the input with that month key |
| ChatBot.MonthTallyMeaning | src/components/ChatBot.js:39-48 | each month's entry holds that month's income total, expense total and number of transactions |
| ChatBot.TotalsSplit | src/components/ChatBot.js:40-47 | every amount goes to exactly one of the two totals: income plus expense is the sum of all amounts |
| ChatBot.IncomeAnyCase | src/components/ChatBot.js:32-40 | the type test ignores case: "Income" and "INCOME" count as income |
| ChatBot.ExpenseRows | src/components/ChatBot.js:33-46 | the rows `byCategory` sums are the non-income ones, each under a non-empty category |
| ChatBot.ExpenseRowsMeaning | src/components/ChatBot.js:41-46 | every non-income transaction is a row under its category (or "Other"), and every row is one of them |
| ChatBot.ExpenseRowsTotal | src/components/ChatBot.js:44-46 | the rows `byCategory` sums add up to the expense total |
| ChatBot.NonIncome | src/components/ChatBot.js:41-46 | the transactions the loop's expense branch sees: exactly the non-income ones, each as often as in the input |
| ChatBot.ExpenseRowsCount | src/components/ChatBot.js:44-46 | one row per non-income transaction, in order, each under its category (or "Other") |
| ChatBot.Last | src/components/ChatBot.js:53 | `slice(-n)`: the last min(n, length) elements |
| ChatBot.Take | src/components/ChatBot.js:58-75 | `slice(0, n)`: the first min(n, length) elements |
| ChatBot.KeptMonths | src/components/ChatBot.js:51-53 | at most twelve keys, each the month key of some transaction |
| ChatBot.Months | src/components/ChatBot.js:51-54 | one row per kept key, in the same order, carrying that month's income, expense and count |
| ChatBot.Pass | src/components/ChatBot.js:25-49 | the loop leaves the income total, the expense total, the month tally, and the month keys in order of first appearance |
| ChatBot.Summarize | src/components/ChatBot.js:22-83 | null exactly for an empty list; otherwise the totals, their difference as net, the months, the top categories, the count and the recent samples of the input |
| ChatBot.MonthRows | src/components/ChatBot.js:51-54 | the sorted month keys, last twelve, each with its `byMonth` entry, are `months` |
| ChatBot.TopFive | src/components/ChatBot.js:56-59 | the category sums sorted by amount, first five, are `topCategories` |
| ChatBot.NewestSix | src/components/ChatBot.js:68-81 | `sampleRecent`: six samples (fewer only for fewer transactions), newest first, each of an input transaction, and a transaction left out is no newer than the sixth |
| ChatBot.SummaryMonths | src/components/ChatBot.js:51-54 | at most twelve months, in ascending key order, each the month of some transaction |
| ChatBot.KeptAscending | src/components/ChatBot.js:51-53 | the kept month keys are in ascending order |
| ChatBot.SummaryTop | src/components/ChatBot.js:46-59 | at most five categories, largest amount first, each a category of the non-income rows carrying that category's total |
| ChatBot.SummaryRecent | src/components/ChatBot.js:68-81 | at most six transactions of the input, newest first |
| ChatBot.SampleRecentOrder | src/components/ChatBot.js:68-81 | six samples, fewer only for fewer transactions, newest first |
| ChatBot.SampleRecentFrom | src/components/ChatBot.js:68-81 | each sample is one of an input transaction |
| ChatBot.SampleRecentNewest | src/components/ChatBot.js:68-81 | a transaction left out is no newer than the sixth sample |
| ChatBot.ShortMentionsNothing | src/components/ChatBot.js:133-264 | a query shorter than every keyword of a rule matches none of them |
| ChatBot.DataParts | src/components/ChatBot.js:150-166 | the "available data" answer lists the transactions exactly when the summary counts some, the monthly predictions exactly when stored, and the yearly predictions exactly when stored |
| ChatBot.RoundHalfUp | src/components/ChatBot.js:197 | `Math.round`: the integer within half of the value, halves rounded up |
| ChatBot.Mean | src/components/ChatBot.js:177-178 | the mean times the month count gives back the total |
| ChatBot.MonthAnswer | src/components/ChatBot.js:224-247 | a month question is answered, from the data it quotes, exactly when predicted months or historical months exist |
| ChatBot.Closing | src/components/ChatBot.js:249-272 | the reply is grounded in the context, and it is the stored insight exactly when an insight with a message is stored |
| ChatBot.Listings | src/components/ChatBot.js:206-247 | every reply quotes only what the context holds |
| ChatBot.Figures | src/components/ChatBot.js:176-205 | every reply quotes only what the context holds; a question whose figure is not stored falls through |
| ChatBot.Questions | src/components/ChatBot.js:132-174 | every reply quotes only what the context holds, and none is the greeting |
| ChatBot.Answer | src/components/ChatBot.js:120-273 | every answer quotes only what the context holds (each figure is the stored one, each "nothing there" reply means that part is missing), and the greeting is given exactly for the greeting queries |
| ChatBot.ModelQuestion | src/components/ChatBot.js:132-136 | a non-greeting query that mentions the model gets the model description whatever data is stored |
| ChatBot.MonthlyDataAnswer | src/components/ChatBot.js:138-147 | a monthly-data question reports the number of predicted months when they are stored, and that they are pending otherwise |
| ChatBot.ShortQueryCloses | src/components/ChatBot.js:132-266 | a query of at most three characters skips every keyword rule and reaches the closing rules |
| ChatBot.ThankYou | src/components/ChatBot.js:249-256 | "ty" gets the stored insight when one has a message, and "you're welcome" otherwise: the insight rule comes before the thanks rule |
| ChatBot.ChatLog.constructor | src/components/ChatBot.js:12-14 | no messages, empty input, not thinking |
| ChatBot.ChatLog.SetInput | src/components/ChatBot.js:326 | the input becomes the typed text; messages unchanged |
| ChatBot.ChatLog.Send | src/components/ChatBot.js:275-281 | blank input changes nothing; otherwise the trimmed text is appended as a user message, the input is cleared and the bot is thinking |
| ChatBot.ChatLog.Deliver | src/components/ChatBot.js:283-287 | exactly one bot message, the answer to the question, is appended and thinking ends |
| ChatBot.Exchange | src/components/ChatBot.js:275-288 | blank text adds no message; any other text adds exactly the user message and the bot's answer to it |
| CsvExport.CsvCategory | src/utils/transactionsToCsv.js:6-24 | always one of the eleven columns, and "misc" for any category outside the table |
| CsvExport.ColumnFor | src/utils/transactionsToCsv.js:69-77 | a transaction that lands in a column lands in its mapped column: an income one only in an income column, any other only in an expense column |
| CsvExport.ColumnForSome | src/utils/transactionsToCsv.js:69-77 | a transaction lands in a column exactly when it is income mapped to an income column or expense mapped to an expense column; other pairs and other types are dropped |
| CsvExport.NormalizeExportDate | src/utils/transactionsToCsv.js:39-46 | a date with "T" becomes its part before the first "T"; a date with "/" becomes year-month-day of its slash parts, month and day padded to two places, a missing part printed "undefined" and an unreadable one "NaN"; any other date is unchanged |
| CsvExport.PartText | src/utils/transactionsToCsv.js:44-45 | a part past the end of the split text prints as "undefined", a part `parseInt` cannot read as "NaN", any other as its number |
| CsvExport.ExportDateNoYear | src/utils/transactionsToCsv.js:42-45 | `M/D` without a year becomes "undefined-MM-DD" |
| CsvExport.ExportDateIso | src/utils/transactionsToCsv.js:46-47 | an ISO date is left as it is |
| CsvExport.ExportDateTimestamp | src/utils/transactionsToCsv.js:40-41 | a timestamp `YYYY-MM-DDT…` is cut back to its date |
| CsvExport.SlashParts | src/utils/transactionsToCsv.js:44 | each of the three parts of `M/D/Y` is read back by `parseInt` as its number |
| CsvExport.ExportSlash | src/utils/transactionsToCsv.js:42-45 | any `M/D/Y` becomes `Y-MM-DD` with month and day padded to two digits |
| CsvExport.ExportDateUs | src/utils/transactionsToCsv.js:42-45 | `M/D/YYYY` with a four-digit year becomes the ISO text of the same day |
| CsvExport.ZeroRow | src/utils/transactionsToCsv.js:48-62 | a new date's row has every one of the eleven amounts at 0 |
| CsvExport.Credit | src/utils/transactionsToCsv.js:65-77 | the transaction's amount is added to its column, and every other amount is unchanged |
| CsvExport.Group | src/utils/transactionsToCsv.js:35-78 | every date of the map has a row of eleven amounts |
| CsvExport.GroupDates | src/utils/transactionsToCsv.js:35-63 | there is one row per distinct normalised date, in order of first appearance |
| CsvExport.CellStep | src/utils/transactionsToCsv.js:65-77 | one more transaction adds its amount to at most one cell: the one of its date and column |
| CsvExport.GroupCells | src/utils/transactionsToCsv.js:35-78 | each cell is the sum of the amounts of the transactions with that normalised date whose type and category select that column |
| CsvExport.DayRows | src/utils/transactionsToCsv.js:81 | the rows are the map's values, one per date, in insertion order |
| CsvExport.ExportRowsPermutation | src/utils/transactionsToCsv.js:81-83 | the sorted rows are the grouped rows rearranged: one per distinct normalised date |
| CsvExport.ExportRowsDates | src/utils/transactionsToCsv.js:35-83 | every row belongs to a normalised date and has eleven amounts, and every normalised date has a row |
| CsvExport.ExportRowsAscending | src/utils/transactionsToCsv.js:81-83 | when every normalised date is an ISO date, the rows are in ascending date order |
| CsvExport.Cells | src/utils/transactionsToCsv.js:103-107 | a data line's fields are the date, then each amount as the number text, one per column |
| CsvExport.Lines | src/utils/transactionsToCsv.js:101-109 | the header line first, then one line per row, in row order |
| CsvExport.HeaderLine | src/utils/transactionsToCsv.js:86-102 | the header line has no newline and splits at commas back into the twelve names |
| CsvExport.CellsPlain | src/utils/transactionsToCsv.js:103-107 | with number texts free of commas and newlines, no field holds either |
| CsvExport.RowLineSplit | src/utils/transactionsToCsv.js:103-107 | a data line has no newline and splits at commas back into its fields |
| CsvExport.LinesSplit | src/utils/transactionsToCsv.js:101-111 | splitting the text at newlines gives back its lines: the lines are joined with "\n" and there is no trailing newline |
| CsvExport.RenderShape | src/utils/transactionsToCsv.js:86-111 | the text has one line more than there are rows; the first is exactly the twelve headers; every data line has exactly twelve fields: its date, then its amounts in column order |
| CsvExport.CreditDay | src/utils/transactionsToCsv.js:65-77 | the loop body credits the day's row as `Credit` states |
| CsvExport.AddTxSteps | src/utils/transactionsToCsv.js:48-77 | opening a zero row for a new date and then crediting it is the grouping step |
| CsvExport.BuildDateMap | src/utils/transactionsToCsv.js:35-78 | the `forEach` leaves the dates in order of first appearance and the credited rows, as `Group` states |
| CsvExport.TransactionsToCsv | src/utils/transactionsToCsv.js:29-112 | null exactly for a missing or empty list; otherwise the text of the grouped rows in date order |
| CsvImport.MakeDate | src/utils/csvToTransactions.js:20 | the day `new Date(y, m - 1, d)` counts out is always a real calendar day; whether a `Date` can hold it is `CsvImport.FromParts`'s check |
| CsvImport.MakeDateDays | src/utils/csvToTransactions.js:20 | the constructed day lies `d − 1` days after the first of the month that the year and month index name, once the index is carried into the year (so out-of-range months and days roll over) |
| CsvImport.MakeDateValid | src/utils/csvToTransactions.js:20-23 | a real calendar day is kept as it is, and a two-digit year is read in the 1900s |
| CsvImport.RollForward | src/utils/csvToTransactions.js:20 | a day past the month's end, carried into later months, is a real calendar day |
| CsvImport.RollForwardDays | src/utils/csvToTransactions.js:20 | carrying forward keeps the day count: the result is `d − 1` days after the first of the month |
| CsvImport.RollBackward | src/utils/csvToTransactions.js:20 | a day of 0 or less, borrowed from earlier months, is a real calendar day |
| CsvImport.RollBackwardDays | src/utils/csvToTransactions.js:20 | borrowing keeps the day count: the result is `d − 1` days after the first of the month |
| CsvImport.NormalizeDateToIso | src/utils/csvToTransactions.js:15-31 | a text without "/" is returned unchanged, whether or not it has a "-" |
| CsvImport.FromParts | src/utils/csvToTransactions.js:19-23 | a part that is not a number, or a day outside the range a `Date` can hold, gives "NaN-NaN-NaN" |
| CsvImport.FourDigitInRange | src/utils/csvToTransactions.js:20 | every day of a four-digit year lies within the range of `Date` |
| CsvImport.ImportDateTooLate | src/utils/csvToTransactions.js:20-23 | `1/1/300000` lies past the range of `Date` and gives "NaN-NaN-NaN" |
| CsvImport.ImportSlash | src/utils/csvToTransactions.js:17-24 | any `M/D/Y` becomes what the three numbers give: the text of the day `new Date(Y, M − 1, D)` names, or "NaN-NaN-NaN" beyond the range of `Date` |
| CsvImport.FromPartsDate | src/utils/csvToTransactions.js:20-24 | the parts of a real day within the range of `Date` give that day's zero-padded text |
| CsvImport.ImportDateUs | src/utils/csvToTransactions.js:17-24 | `M/D/YYYY` of a real day with a four-digit year gives its ISO text, the same text the export writes for that day |
| CsvImport.ImportDateShortYear | src/utils/csvToTransactions.js:19-21 | a year written with one or two digits is read in the 1900s |
| CsvImport.ImportDateRollover | src/utils/csvToTransactions.js:20-24 | the day after a month's last day rolls into the first of the next month (within the range of `Date`) |
| CsvImport.ImportDateNotANumber | src/utils/csvToTransactions.js:19-24 | a part that is not a number makes the whole text "NaN-NaN-NaN" |
| CsvImport.Capitalize | src/utils/csvToTransactions.js:38-73 | capitalising keeps the length |
| CsvImport.MapExpenseOneWord | src/utils/csvToTransactions.js:33-40 | a key without "_" other than "rent" becomes that word capitalised |
| CsvImport.NamesMapBack | src/utils/csvToTransactions.js:33-73 | every category name the import gives a column is mapped back to that same column by the export's table; "Misc" reaches `misc` through the fallback |
| CsvImport.IncomeNamesBack | src/utils/csvToTransactions.js:70-73 | each income column's name ("Sales Revenue", "Consulting", "Investment") maps back to its column |
| CsvImport.ExpenseNamesBack | src/utils/csvToTransactions.js:33-40 | each expense column's name maps back to its column |
| CsvImport.CellAmountDigits | src/utils/csvToTransactions.js:59-62 | a text cell of digits is read by `parseFloat` as their value and counts exactly when positive; empty, missing and true/false cells are never pushed |
| CsvImport.Transactions | src/utils/csvToTransactions.js:63-101 | one transaction per entry |
| CsvImport.TransactionsAt | src/utils/csvToTransactions.js:63-101 | the k-th transaction is the k-th entry with the k-th consecutive id |
| CsvImport.ToTransactionBack | src/utils/csvToTransactions.js:67-101 | an entry's transaction has the entry's amount and date, the time "00:00" and the entry's kind, and the export's table maps its category back to the entry's column |
| CsvImport.ColumnEntriesExactly | src/utils/csvToTransactions.js:58-103 | a column loop pushes exactly one entry per column whose amount is positive: zero, negative and non-numeric cells are skipped |
| CsvImport.ColumnEntriesOrder | src/utils/csvToTransactions.js:58-83 | with distinct columns the entries follow the column order |
| CsvImport.SheetColumns | src/utils/csvToTransactions.js:3-13 | no column repeats, and no column is both income and expense |
| CsvImport.RowEntriesOrder | src/utils/csvToTransactions.js:57-103 | a dated row pushes its income entries before its expense entries, each in column order |
| CsvImport.SheetRowOrder | src/utils/csvToTransactions.js:3-103 | with the source's lists a row's transactions come out in the export's column order, "sales" to "misc" |
| CsvImport.EntriesFromColumns | src/utils/csvToTransactions.js:58-103 | every entry comes from a column of its own kind and has a positive amount |
| CsvImport.ImportMapsBack | src/utils/csvToTransactions.js:52-104 | every imported transaction has its consecutive id, a positive amount, its row's date and the time "00:00", and lands back in the column it was read from |
| CsvImport.ImportSnoc | src/utils/csvToTransactions.js:52 | rows are read in input order, one after the other |
| CsvImport.ImportSkipsUndated | src/utils/csvToTransactions.js:53 | a row without a date adds no transaction |
| CsvImport.PushColumns | src/utils/csvToTransactions.js:58-80 | one column loop appends the transactions of the positive columns, in column order, with the next ids |
| CsvImport.PushRow | src/utils/csvToTransactions.js:57-103 | the two column loops of a dated row append its income and then its expense transactions |
| CsvImport.PushDatedRow | src/utils/csvToTransactions.js:52-104 | a row without a date appends nothing; otherwise its date is normalised and both column loops run |
| CsvImport.PushRows | src/utils/csvToTransactions.js:50-106 | the row loop returns the transactions of all the rows' entries, in row order, with consecutive ids |
| CsvImport.ParseCsvRows | src/utils/csvToTransactions.js:48-106 | the import with the source's column lists returns `ImportAll` of the parsed rows |
| Forecast.Record | src/models/FinancialPredictor.js:62-69 | filing a transaction adds its amount to the month's income plus expenses |
| Forecast.RecordAdds | src/models/FinancialPredictor.js:62-69 | income adds only to `income`; every other type adds to `expenses` and to its own category's tally, and to no other category |
| Forecast.Tabulate | src/models/FinancialPredictor.js:50-70 | every month key of the table has an aggregate |
| Forecast.AddToSteps | src/models/FinancialPredictor.js:58-69 | opening an empty aggregate for a new month and then filing into it is the table step |
| Forecast.PrepareHistoricalData | src/models/FinancialPredictor.js:49-73 | the `forEach` and the sort on a missing field give the aggregates in order of first appearance, as `HistoryOf` states |
| Forecast.TabulateKeys | src/models/FinancialPredictor.js:50-60 | the table's keys are the distinct `YYYY-MM` months, in order of first appearance |
| Forecast.TabulateTotals | src/models/FinancialPredictor.js:52-70 | a month's aggregate holds the income of that month's income transactions, the expenses of all its other transactions, and each category's total of those |
| Forecast.HistoryByMonth | src/models/FinancialPredictor.js:49-73 | one aggregate per distinct month, in order of first appearance (not by date), each holding that month's totals |
| Forecast.TabulateConserves | src/models/FinancialPredictor.js:52-70 | the aggregates' income plus expenses equals the sum of the amounts filed |
| Forecast.HistoryConserves | src/models/FinancialPredictor.js:49-73 | every amount lands in exactly one month, as income or as expense: the aggregates add up to the total of all amounts |
| Forecast.Recent | src/models/FinancialPredictor.js:158 | `slice(-3)`: the last three values, or all of them |
| Forecast.Older | src/models/FinancialPredictor.js:159 | `slice(-6, -3)`: none up to three months, then up to three values |
| Forecast.PredictSavings | src/models/FinancialPredictor.js:213-217 | never negative, and equal to income − expenses exactly when income ≥ expenses; 0 otherwise |
| Forecast.OlderWindow | src/models/FinancialPredictor.js:156-167 | the older window is non-empty exactly from four months on, so below four months the trend is 0 |
| Forecast.RoundInteger | src/models/FinancialPredictor.js:172-205 | `Math.round` gives a whole number within half of its argument |
| Forecast.PredictSeriesWhole | src/models/FinancialPredictor.js:147-206 | 0 for an empty history; otherwise, whenever the trend's divisor is not 0, a non-negative whole number |
| Forecast.PredictShortHistory | src/models/FinancialPredictor.js:150-172 | with one to three months there is no trend: the prediction is the rounded mean, clamped at 0 |
| Forecast.PredictFlatThreeMonths | src/models/FinancialPredictor.js:150-172 | three months of 1000 predict 1000 |
| Forecast.PredictZeroOlderWindow | src/models/FinancialPredictor.js:163-172 | an older window that averages 0 makes the unguarded division yield +Infinity when the recent and overall means are positive, and NaN when the recent mean is 0 as well |
| Forecast.Confidence | src/models/FinancialPredictor.js:90-94 | always within [0, 1] |
| Forecast.ConfidenceMonotone | src/models/FinancialPredictor.js:90-94 | more months never lower the confidence, and it is 0.85 exactly from six months |
| Forecast.NextMonth | src/models/FinancialPredictor.js:78-85 | the month after today's, rolling December into January of the next year |
| Forecast.InsightsUnique | src/models/FinancialPredictor.js:99-139 | the insight list is fully determined by the savings rate, the budget utilisation and the expense prediction |
| Forecast.InsightsJoin | src/models/FinancialPredictor.js:99-139 | the savings insight (at most one) followed by the budget insight (at most one) is the whole list |
| Forecast.SumBudgets | src/models/FinancialPredictor.js:119 | the loop's total is the sum of the budgets |
| Forecast.GenerateInsights | src/models/FinancialPredictor.js:99-139 | at most two insights, the savings one first: "positive" above a 20% rate, "warning" below 10%; then "danger" above 100% utilisation, "warning" above 90% up to 100%; a NaN comparison adds nothing |
| Forecast.OverBudgetExample | src/models/FinancialPredictor.js:119-128 | predicted expenses of 1100 against budgets of 1000 end the list with a "danger" insight of 10% over |
| Forecast.PredictNextMonth | src/models/FinancialPredictor.js:19-44 | the next month; expense and income predictions from the same history; savings from exactly those two; confidence from the number of months in that history; insights from those predictions |
| ReportsPage.MonthlyData | src/components/Reports.js:42-91 | the chosen year's points, January to December with no month twice (at most twelve); their income sums to the year's income and their expenses to the year's other transactions |
| ReportsPage.WeeklyData | src/components/Reports.js:103-133 | the chosen year's points keyed `Week ceil(day / 7)`: every key between 1 and 5, ascending, at most five points; income and expenses add up as for the months |
| ReportsPage.SlotsPresent | src/components/Reports.js:51-64 | every point's month or week is that of some transaction |
| ReportsPage.SavingsRate | src/components/Reports.js:156 | 0 without income; otherwise net/income × 100, positive exactly when expenses are below income, and at most 100 when expenses are not negative |
| ReportsPage.YearFigures | src/components/Reports.js:149-156 | the year's income sums exactly the "income" transactions, its expenses exactly the "expense" ones, net savings is their difference, and the rate is `SavingsRate` of them |
| ReportsPage.NonPayrollExpenses | src/components/Reports.js:207-222 | exactly the "expense" transactions whose category is not "Payroll", each as often as in the input |
| ReportsPage.Share | src/components/Reports.js:224-225 | part/whole × 100 for a positive whole, 0 otherwise |
| ReportsPage.TopSpendingCategory | src/components/Reports.js:204-228 | the loop and sort give the first category by total among the year's non-payroll expenses, with its share |
| ReportsPage.TopOfNone | src/components/Reports.js:217 | there is no top category exactly when there is no non-payroll expense |
| ReportsPage.TopOfIsTop | src/components/Reports.js:213-219 | otherwise the card shows a category with the largest total, carrying that total, and the first such category to appear |
| ReportsPage.TopIsLargest | src/components/Reports.js:213-219 | the stable sort's first entry beats every category and is no later than any category with the same total |
| ReportsPage.TopShare | src/components/Reports.js:221-225 | with positive amounts the top category's share of the non-payroll expenses lies in (0, 100] |
| ReportsPage.ShareBounds | src/components/Reports.js:221-225 | with positive amounts a present category's total is positive and at most the total of all |
| ReportsPage.AlertFor | src/components/Reports.js:232-255 | an alert is never raised for "Payroll"; it names its line, carries spent/budget × 100 and the overrun spent − budget |
| ReportsPage.AlertBands | src/components/Reports.js:236-255 | for a positive budget: danger exactly when spent ≥ budget, warning exactly when 80% of the budget ≤ spent < budget; for a zero budget: danger when anything is spent, no alert otherwise |
| ReportsPage.AlertsConcat | src/components/Reports.js:232-256 | the alerts keep budget order |
| ReportsPage.AlertsFromLines | src/components/Reports.js:232-256 | every alert comes from a budget line that is not "Payroll" |
| ReportsPage.BudgetAlerts | src/components/Reports.js:230-258 | the `forEach` pushes exactly each line's alert, in budget order, at most one per line |
| ReportsPage.FinancialTrend | src/components/Reports.js:260-292 | exactly one band: above 20, above 10, above 0, otherwise overspending |
| ReportsPage.TrendOfYear | src/components/Reports.js:260-292 | with income, the card is negative exactly when expenses reach income, and positive exactly when more than a tenth of income is saved |
| ReportsPage.GoalProgress | src/components/Reports.js:294-325 | progress 0 (good) when the budgets total nothing; otherwise spent/budget × 100; good exactly below 70, danger exactly from 90 |
| ReportsPage.GoalBands | src/components/Reports.js:294-325 | with a positive total: danger exactly from 90% of the total spent, good exactly below 70% |
| DashboardPage.Summarize | src/components/Dashboard.js:26-34 | total income sums exactly the "income" transactions, total expenses exactly the "expense" ones, and net income is their difference |
| DashboardPage.SummaryIgnoresOtherTypes | src/components/Dashboard.js:26-34 | a transaction of any other type changes neither total |
| DashboardPage.Recent | src/components/Dashboard.js:37 | the first min(5, n) transactions, in list order |
| DashboardPage.Slices | src/components/Dashboard.js:40-44 | one slice per budget, in budget order, named by the category and valued at `spent` |
| DashboardPage.MonthlyData | src/components/Dashboard.js:47-90 | the points follow the month order Jan..Dec (after an "Invalid Date" point for unreadable dates): at most 13, no month twice; their income sums to the total income and their expenses to every non-income transaction |
| DashboardPage.MonthlyPoint | src/components/Dashboard.js:50-63 | each point belongs to a month some transaction falls in, and holds that month's income and, as expenses, every other transaction of that month, whatever the year |
| Market.ExchangeRate | src/components/Other.js:18-32 | the rupee rate when the reply has a non-zero one, otherwise 83 |
| Market.FetchGoldPrices | src/components/Other.js:34-97 | the sample prices exactly when the gold request fails; always rupees per 8 grams; for a live quote, price per gram × 31.1035 = price per ounce and price = 8 × price per gram |
| Market.GoldConversion | src/components/Other.js:52-85 | the price per ounce is the quote when it is in rupees (any case), otherwise the quote times the exchange rate; the USD price is set exactly for a USD quote; the exchange rate is left out exactly for a rupee quote |
| Market.LowerCaseRupees | src/components/Other.js:54 | the currency test ignores case: "inr" is rupees |
| Market.GoldFallback | src/components/Other.js:86-95 | a failed request shows 47500 rupees, no change, with the sample-data note |
| Market.StockName | src/components/Other.js:101-109 | a listed symbol gets its company name; any other symbol is returned as it is |
| Market.StockNameKnown | src/components/Other.js:101-109 | the name is the symbol itself exactly when the symbol is not listed |
| Market.ChangeColorIcon | src/components/Other.js:139-145 | green goes with the rising arrow and red with the falling one; a change rises exactly when it is ≥ 0, so zero counts as a rise |
| Predictions.ConfidenceLabel | src/components/Predictions.js:67-71 | High exactly from 0.8, Medium exactly from 0.6 below 0.8, Low exactly below 0.6 |
| Predictions.ColorMatchesLabel | src/components/Predictions.js:61-71 | colour and label use the same thresholds: green with High, amber with Medium, red with Low |
| Predictions.LabelMonotone | src/components/Predictions.js:67-71 | more confidence never gives a lower label |
| Predictions.InsightIcon | src/components/Predictions.js:73-82 | only "warning" gets the alert icon; every other type gets the info icon |
| Predictions.TrendBadge | src/components/Predictions.js:91-97 | the trend is shown exactly when it is present and not 0; it is positive exactly when the trend is, and shows its absolute value |
| Predictions.TrendBadgeSymmetric | src/components/Predictions.js:91-97 | opposite trends show the same magnitude in opposite directions |
| Predictions.ViewFor | src/components/Predictions.js:305-307 | "monthly" picks the monthly view and any other value the yearly one |
| Tallies.YearOf | src/components/Reports.js:33-43 | a year exactly when the date is readable, and then that date's year |
| Tallies.InYear | src/components/Reports.js:42-45 | exactly the transactions whose year is the chosen one, each as often as in the input; an unreadable date is in no year |
| Tallies.AddYear | src/components/Reports.js:32-34 | adding a year to an ascending list without repeats keeps it so and adds exactly that year |
| Tallies.AvailableYears | src/components/Reports.js:32-34 | strictly ascending (no year twice), holding exactly the years of the ISO-readable dates; the NaN entry of an unreadable date is not modelled |
| Tallies.DefaultYear | src/components/Reports.js:35-38 | the latest year present, or the current year when there is none |
| Tallies.Slot | src/components/Reports.js:52-109 | the month index 0..11 or the week `ceil(day / 7)` in 1..5 with the day inside that week; -1 exactly for an unreadable date |
| Tallies.Key | src/components/Reports.js:51-53 | each transaction paired with its period, in order |
| Tallies.Accumulate | src/components/Reports.js:49-65 | the `forEach` leaves the totals object `Tally` of the keyed transactions |
| Tallies.TallyMeaning | src/components/Reports.js:55-64 | the totals object has an entry exactly for the periods met, holding those transactions' income and the sum of every other type as expenses |
| Tallies.TallyHas | src/components/Reports.js:55-57 | every period met has an entry |
| Tallies.Series | src/components/Reports.js:81-90 | the entries inside a range of periods, one row per period, in ascending period order, each carrying its entry's totals |
| Tallies.SeriesCovers | src/components/Reports.js:81-90 | no period of the range that has an entry is missing from the rows |
| Tallies.SeriesSums | src/components/Reports.js:81-87 | the rows' income and expenses add up to the range's totals |
| Tallies.RangeConserves | src/components/Reports.js:49-65 | when every period lies in the range, the range's totals are the income and non-income sums of all the transactions |
| Tallies.SeriesConserves | src/components/Reports.js:49-90 | the chart rows lose nothing: their income is the income total and their expenses the total of every other type |
| Tallies.InCategory | src/components/Budget.js:65-69 | exactly the transactions of one category, each as often as in the input |
| Tallies.CategoryTotalAbsent | src/components/Budget.js:67 | a category with no transactions sums to 0, as the missing entry starts from 0 |
| Tallies.SumByCategory | src/components/Budget.js:65-69 | the `reduce` keys exactly the categories present, in order of first appearance, each with the sum of its amounts |
| Tallies.SumsMeaning | src/components/ChatBot.js:46 | the sums built one transaction at a time hold exactly the categories present, each with its total |
| Tallies.CategorySums | src/components/ChatBot.js:46-56 | `Object.entries` of the category sums is each category with its total, in order of first appearance |
| TransactionsPage.Kept | src/components/Transactions.js:47-60 | exactly the transactions whose description or category contains the search term ignoring case, whose type matches unless "all", and whose category matches unless "all", each as often as in the input |
| TransactionsPage.FilteredMeaning | src/components/Transactions.js:47-67 | the list is a permutation of the kept transactions (each as often as in the input), holds exactly the matching ones, and runs newest first by ISO date |
| TransactionsPage.NoFilterKeepsAll | src/components/Transactions.js:47-60 | with the initial empty search and both filters on "all", nothing is filtered out |
| TransactionsPage.OtherTypeHidden | src/components/Transactions.js:54-55 | a transaction of another type than the type filter's is never listed |
| TransactionsPage.TransactionsView.constructor | src/components/Transactions.js:18-28 | modal closed, empty search, both filters "all", 15 rows shown, the form empty with type "expense" |
| TransactionsPage.TransactionsView.Displayed | src/components/Transactions.js:69 | the first `displayCount` rows of the list, or all of them when fewer |
| TransactionsPage.TransactionsView.HasMoreMeansHidden | src/components/Transactions.js:69-70 | "Show more" is offered exactly when some row of the list is not shown |
| TransactionsPage.TransactionsView.ShowMore | src/components/Transactions.js:72-74 | shows 15 rows more and changes nothing else |
| TransactionsPage.TransactionsView.ResetDisplayCount | src/components/Transactions.js:76-78 | back to 15 rows, nothing else changes |
| TransactionsPage.TransactionsView.SetSearch | src/components/Transactions.js:81-83 | sets the search term; the row count returns to 15 exactly when the term changed |
| TransactionsPage.TransactionsView.SetType | src/components/Transactions.js:81-83 | sets the type filter; the row count returns to 15 exactly when it changed |
| TransactionsPage.TransactionsView.SetCategory | src/components/Transactions.js:81-83 | sets the category filter; the row count returns to 15 exactly when it changed |
| TransactionsPage.TransactionsView.Open | src/components/Transactions.js:134 | opens the modal, nothing else changes |
| TransactionsPage.TransactionsView.Close | src/components/Transactions.js:401 | closes the modal and keeps the form as typed |
| TransactionsPage.TransactionsView.Edit | src/components/Transactions.js:319-390 | the form becomes what was typed, nothing else changes |
| TransactionsPage.TransactionsView.Submit | src/components/Transactions.js:85-104 | sends what `SubmissionOf` gives for the form; after a send the form is empty and the modal closed, otherwise nothing changes |
| TransactionsPage.SubmissionOf | src/components/Transactions.js:87-95 | nothing is sent exactly when amount, category or description is empty; a sent amount is `parseFloat` of the text, and an amount it cannot read is sent as unreadable with the form kept |
| TransactionsPage.SubmitExamples | src/components/Transactions.js:87-101 | the empty form sends nothing; a filled-in whole number is sent as that number with the other fields unchanged |
| TransactionsPage.ShowMoreExtends | src/components/Transactions.js:69-74 | on a fresh view with no filter, "Show more" goes from min(n, 15) to min(n, 30) rows and the rows already shown stay first, in place |
| Sorting.SortDesc | src/components/Reports.js:213-215 | the comparator sort `b - a` keeps every element exactly as often (a permutation) |
| Sorting.SortDescSorted | src/components/Reports.js:213-215 | its result runs from the largest key down |
| Sorting.SortDescHead | src/components/Reports.js:213-217 | the first element is the earliest with the largest key, as the sort is stable |
| Sorting.SortDescConstant | src/models/FinancialPredictor.js:72 | a comparator that finds every pair equal leaves the order as it was |
| Sorting.FirstMax | src/components/Reports.js:217 | the earliest position holding the largest key |
| Sorting.SortStrings | src/components/ChatBot.js:51-52 | `sort()` on the keys keeps every key exactly as often |
| Sorting.SortStringsAscending | src/components/ChatBot.js:51-52 | and puts them in character order |
| Sorting.LexTotal | src/components/ChatBot.js:52 | any two keys are ordered one way or the other |
| Text.IncludesEmpty | src/components/Transactions.js:49-53 | the empty search term is contained in every text |
| Text.TrimEmpty | src/components/ChatBot.js:276 | `trim()` leaves nothing exactly when the text is all white space (the ECMAScript white space and line terminators) |
| Text.ParseIntDigits | src/utils/csvToTransactions.js:19 | `parseInt` of a run of digits is their value |
| Text.ParseFloatDigits | src/components/Transactions.js:94 | `parseFloat` of a run of digits is their value, and `Number` reads it too |
| Text.NatToStringValue | src/utils/csvToTransactions.js:22-23 | `String(n)` of a natural number reads back as `n` |
| Text.PadStart2Digits | src/utils/csvToTransactions.js:22-23 | `padStart(2, "0")` of a number below 100 gives its two digits |
| Text.IsoText | src/App.js:124 | the `YYYY-MM-DD` text is ten characters with dashes at 4 and 7 |
| Text.ParseIsoText | src/App.js:124 | reading the written date gives the same date back |
| Text.IsoTextParse | src/utils/transactionsToCsv.js:41 | every readable ISO date string is exactly the text of the date it names |
| Text.SplitJoin | src/utils/transactionsToCsv.js:44 | splitting a joined text on its separator gives the parts back when no part holds the separator |

## Left out

- `src/models/FinancePred.py` and `src/models/server.py` are not part of this model: they are thin wrappers over pandas, scikit-learn and FastAPI, whose logic lives in those libraries.
- `server/geminiProxy.js`, `src/services/firebase.js`, `src/components/Login.js` and `src/components/Sidebar.js` are not part of this model: they are a network proxy, SDK configuration and layout.
- JSX rendering and the recharts charts are left out. So is text formatting (`toFixed`, `toLocaleString`, `Intl.NumberFormat`, `toLocaleDateString` in `formatDate`). Replies, alerts, insights and cards are datatypes that carry the numbers they would print, not the printed text.
- The chat replies' wording is left out in the same way. Each rule's reply is a constructor carrying the figures it quotes.
- The Blob and DOM download of `exportReport` (`src/components/Reports.js:159-201`) is left out, because it is browser I/O.
- The `fetch` calls of the predictions page and the gold-price panel are left out, because they are network I/O. Their outcomes are parameters: a body, or a failure.
- `localStorage` becomes a map from keys to stored values. `JSON.parse` is reduced to whether the stored text parses, because the text encoding of a user is not modelled.
- papaparse is left out, because it is a library. The import takes the parsed rows as input: a row maps column names to cells that are numbers, texts, booleans or missing.
- Identifiers and clocks are parameters. `crypto.randomUUID` ids in the import become consecutive numbers from a given first id. The `Date.now()` id, the current date in `addTransaction`, and the current year and month of the reports page and the forecaster are all arguments.
- Forecast.NextMonth: returns the month as a year and month number, not the locale text "Month YYYY" that `getNextMonth` builds.
- JavaScript `Date` parsing of anything but a date-only ISO `YYYY-MM-DD` string is left out. Such a date counts as unreadable everywhere, although JavaScript would read forms such as `2024-01-15T10:00:00Z` or `1/15/2024`.
- The model reads a date's year, month and day as written, which is UTC. The browser's local time zone is left out, so a west-of-UTC zone that shows the first day of a month as the previous day is not modelled.
- Forecast.PrepareHistoricalData: requires every date to be an ISO date. The source would file an unreadable date under the key `NaN-NaN`, and that case is not modelled.
- Forecast.PredictNextMonth: requires every date to be an ISO date, for the same reason: the `NaN-NaN` month of an unreadable date is not modelled.
- Forecast.HistoryByMonth: states the month aggregates only when every date is an ISO date; the `NaN-NaN` aggregate is not modelled.
- Forecast.HistoryConserves: states the totals only when every date is an ISO date; the `NaN-NaN` aggregate is not modelled.
- Tallies.AvailableYears: leaves out the `NaN` year that `new Date(t.date).getFullYear()` gives for an unreadable date. The source's `Set` keeps one `NaN`, the `a - b` comparator leaves its place to the engine's sort, and `defaultYear` can then be `NaN`.
- TransactionsPage.FilteredMeaning: states "newest first" for ISO dates only. Any other date sorts as day 0 here, while the source's comparator gets `NaN` for it and leaves its place to the engine's sort.
- ChatBot.SummaryRecent: an unreadable non-empty date sorts as the epoch here (as the empty date does in the source), while the source's comparator gets `NaN` for it and leaves its place to the engine's sort. The same holds for `ChatBot.NewestSix` and the `SampleRecent` lemmas.
- CsvExport.ExportRowsAscending: states the ascending row order only when every normalised date is an ISO date. For other dates the source's comparator yields NaN and the order depends on the engine's sort.
- The CSV lines take the number-to-text conversion as a parameter. Exact JavaScript number printing is left out, and the lemmas about commas in lines assume it prints plain numbers.
- Transaction amounts are numbers. Amounts stored as text are left out: the `parseFloat(tx.amount) || 0` in the export and `Number(t.amount) || 0` in the chat summary act on numbers only. The chat summary also reads the date from `t.date` only, not from the `createdAt`, `timestamp` or `transactionDate` fallbacks.
- `toLowerCase` and `toUpperCase` fold ASCII letters only. `parseFloat` and `Number` read plain decimals (sign, digits, an optional fraction), without exponents or `Infinity`.
- Floating-point rounding is left out, because the arithmetic is exact. Signed zero is not distinguished.
- The chat's `setTimeout` delay is modelled as two steps, `ChatLog.Send` and `ChatLog.Deliver`. Timing and interleaving with other events are left out.
- The predictions page's `activeView` toggle is modelled as the pure choice `Predictions.ViewFor`, because it is a single state variable.

