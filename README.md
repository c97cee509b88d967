# meu-hub finance core, in Dafny

meu-hub is a Next.js personal-finance app. Users record income and expense
transactions, attach them to savings goals ("metas"), set monthly budgets,
and look at dashboards, reports and exports. An assistant turns free text
into transactions and answers questions about the user's money. This project
models the app's deterministic logic and proves properties of it:

- **Text to transaction.**
  - `nlp_extract.py` becomes module `Nlp`.
  - The local fallback and the reply validation of the `ia-transacao` route become `IaRoute`.
  - Regular expressions are hand-written scanners over `seq<char>`. They try start positions, alternatives and repetitions in the order the source's matcher does.
- **Calendar.**
  - `Calendar` holds proleptic Gregorian dates as (year, month, day) triples.
  - It models JavaScript's `new Date(y, m, d)` month and day overflow.
  - `DateUtils` and every period computation of the screens and exports are built on it.
- **Serialisers.**
  - `Csv` holds RFC 4180 (section 2) quoting, with an independent row reader.
  - It is used by the export route (`ExportRoute`), the CSV helpers (`UtilsCsv`, `ExportUtils`) and the client-side exports (`ExportManager`).
  - The PDF report generator is `PdfReport`.
- **Aggregations.**
  - Totals, grouping, top-N, running balances and goal progress.
  - They live in `Ledger`, `Seqs` and one module per chart or dashboard.
- **State machines.**
  - The notification list (`Notifications`), the alert board (`Alerts`) and the offline sync queue (`Sync`) are classes with sequence fields.
  - The forms (`TxForm`, `QuickForm`, `MetasPage`, `BudgetManager`) are classes too.
- **Guards and dispatch.**
  - The route guard (`Middleware`).
  - The keyword dispatch of the two assistant routes (`OpenAiRoute`, `ChatRoute`).

Conventions used throughout:

- **Transactions and money.**
  - A transaction's kind is `Income` or `Expense`, the only two values the app stores. A test `type !== "income"` is therefore the same as `type === "expense"`.
  - Amounts are exact `real` numbers.
  - JavaScript's non-finite results (division by zero) are written out where the source can produce them, in `NumFmt.JsNumber`.
- **Dates and the clock.**
  - A stored transaction date is a calendar day.
  - A client receives a transaction date from the JSON of the transactions API as the text of a midnight-UTC timestamp, `YYYY-MM-DDT00:00:00.000Z` (`Calendar.Timestamp`). Where the client writes or compares `t.date`, the model does the same on that text.
  - `t.date.slice(0, 7)` is the month key `YYYY-MM` (`Calendar.MonthKey`).
  - Date inputs, the default filter bounds and the Python extractor use the ISO day `YYYY-MM-DD` (`Calendar.Iso`).
  - The local time zone is taken to be UTC.
  - "Now" and "today" are parameters. Windows the source computes from the clock are computed from them in the model too (for example `Alerts.WindowStart`, now minus 30 or 7 days in milliseconds).
- **Dictionaries.** JavaScript objects and `Map`s are association lists in insertion order. That is their iteration order for `Map`s and for object keys that are not integer-like; a plain object lists integer-like keys (`"0"`, `"2024"`) first, in ascending order, which the model does not do (see "## Left out").
- **Sorting.** `Array.prototype.sort` is stable; it is modelled by a stable insertion sort over the same comparator.
- **Strings.**
  - Strings are `seq<char>`.
  - `localeCompare` and `<` on strings are code-unit lexicographic order (`Strs.StrLe`).
- **Effects.**
  - Network replies, database reads and the session lookup are parameters.
  - Toasts, sent requests and reloads are recorded in sequence fields of the classes.
- **Merge conflicts.** Where a source file holds unresolved merge-conflict markers (`useNotifications.tsx`, `BudgetManager.tsx`, `financialInsights.ts`), the HEAD side is modelled.
- **Quirks kept as written.**
  - In the chat route, "tchau" and "obrigado" get the greeting text; the farewell text is defined but never returned.
  - The goals page counts a goal as reached when its rounded percentage is 100, even when a little is still missing (`MetasPage.CountedBeforeReached`).

## Model

| member | source | states |
|---|---|---|
| Middleware.Route | middleware.ts:16-41 | a public path is always let through; a redirect to the sign-in page, carrying the path as `callbackUrl`, happens exactly for a protected, non-public path without a token |
| Middleware.TokenPasses | middleware.ts:29-40 | with a session token every path is let through |
| Middleware.ProtectedByPrefix | middleware.ts:25-27 | protection is by prefix: any extension of a protected route that is not public is redirected without a token |
| Middleware.FinanceiroModernoIsProtected | middleware.ts:6-11 | "/financeiro-moderno" is guarded because it starts with "/financeiro" |
| Middleware.SignInIsPublic | middleware.ts:14-22 | the sign-in page and its extensions are never redirected |
| DateUtils.FormatDateLocal | src/lib/dateUtils.ts:16-21 | splitting the text on "-" gives the unpadded year, then the month and day padded to two digits; four-digit years give 7 to 10 characters |
| DateUtils.FormatRoundTrip | src/lib/dateUtils.ts:16-21 | parsing the formatted text gives back the same date |
| DateUtils.GetCurrentDateLocal | src/lib/dateUtils.ts:5-11 | today's text parses back to today |
| DateUtils.AddDaysLocal | src/lib/dateUtils.ts:26-30 | moving by zero days formats the date itself |
| DateUtils.AddDaysLocalAdditive | src/lib/dateUtils.ts:26-30 | adding `a` days and then `b` days gives the text of adding `a + b` days |
| DateUtils.GetCurrentMonthRange | src/lib/dateUtils.ts:35-44 | the range runs from day 1 to the month's last day (28, 29, 30 or 31 by the Gregorian rule) |
| DateUtils.GetNextMonthRange | src/lib/dateUtils.ts:49-58 | the range covers the following month, December rolling over to January of the next year |
| DateUtils.GetCurrentYearRange | src/lib/dateUtils.ts:63-72 | the range is January 1st to December 31st of the current year |
| Calendar.DaysInMonth | src/lib/dateUtils.ts:38 | a month has 28 to 31 days; February has 29 exactly in leap years; the other months have at least 30 |
| Calendar.MakeDateFirst | src/lib/dateUtils.ts:37 | `new Date(y, m, 1)` is day 1 of the month the index normalises to, months outside 0..11 rolling into other years |
| Calendar.MakeDateLastDay | src/lib/dateUtils.ts:38 | `new Date(y, m + 1, 0)` is the last day of month `m` (day 0 is the last day of the month before) |
| Calendar.AddDaysAdd | src/lib/dateUtils.ts:27-28 | moving by `a` days and then by `b` days is moving by `a + b` days |
| Calendar.MonthsBeforeEarlier | src/app/api/export/route.ts:19-42 | the same day one or more months earlier is strictly before today, whatever day the earlier month lacks |
| Calendar.YearBefore | src/app/api/export/route.ts:43-49 | `new Date(year - 1, month, day)` is the date twelve months before |
| Calendar.WeekdayAdd | src/components/features/financial/UpcomingPaymentsDashboard.tsx:29-31 | moving by `k` days moves `getDay()` by `k` modulo 7 |
| Calendar.IsoOrder | src/components/features/analytics/Charts/FinanceFilters.tsx:27-28 | for four-digit years the `YYYY-MM-DD` texts compare as strings exactly in date order |
| Calendar.Timestamp | src/app/api/transactions/route.ts:7-10 | the JSON text of a stored date: its ISO day followed by midnight UTC, 24 characters, none of them a separator or quote |
| Calendar.TimestampOrder | src/components/features/analytics/Charts/FinanceFilters.tsx:27-28 | for four-digit years, a `YYYY-MM-DD` bound is at most a timestamp exactly when its day is not later, and a timestamp is at most a bound exactly when its day is strictly earlier |
| Calendar.MonthKeyOrder | src/components/features/analytics/Charts/FinanceLineChart.tsx:29-37 | for four-digit years the `YYYY-MM` keys compare as strings in month order, and are equal exactly for the same month |
| ExportRoute.ComputeDateRange | src/app/api/export/route.ts:13-64 | a relative period ends today and starts the same day 1, 3, 6 or 12 months earlier, strictly before today; "custom" uses both given dates only when both exist; "all" and unknown periods are unbounded |
| ExportRoute.WhereDate | src/app/api/export/route.ts:272-277 | the date condition is added exactly when the range has a bound, with the range's bounds |
| ExportRoute.FetchSpec | src/app/api/export/route.ts:279-282 | the query returns exactly the stored transactions the condition selects, each as often as stored, in ascending date order |
| ExportRoute.RelativeWindow | src/app/api/export/route.ts:270-282 | with a relative period every exported transaction is stored and lies between the start date and today |
| ExportRoute.Totals | src/app/api/export/route.ts:74-80 | the two filter-and-reduce totals are the income and the expense totals, and the balance is their difference |
| ExportRoute.CsvEscape | src/app/api/export/route.ts:66-71 | a missing value gives ""; otherwise the output is one character longer per inner quote plus the two outer quotes, and reading the quoted field back gives the value (RFC 4180, section 2, rule 7) |
| ExportRoute.TransactionRowFields | src/app/api/export/route.ts:89-101 | a transaction row reads back as exactly its eight field values, whatever commas or quotes the free-text fields hold; the goal name is that of the first goal with the same id, else "" |
| ExportRoute.MetaRowTexts | src/app/api/export/route.ts:106-118 | a goal row reads back as name, target, accumulated amount and progress percentage |
| ExportRoute.BuildCsv | src/app/api/export/route.ts:73-121 | the loops build the report function: header, one row per transaction in order, then one row per goal |
| ExportRoute.BuildJson | src/app/api/export/route.ts:123-145 | the backup holds the transactions and goals unchanged and the income total, expense total and their difference |
| ExportRoute.Progress | src/app/api/export/route.ts:180-182 | a zero target gives progress 0 instead of dividing; otherwise progress times target is the accumulated amount times 100 |
| ExportRoute.Advice | src/app/api/export/route.ts:235-247 | the negative-balance tip exactly for a negative balance, the tight tip exactly for a balance below 20% of expenses, the healthy tip otherwise |
| ExportRoute.PeriodLines | src/app/api/export/route.ts:194-202 | the period line appears exactly when the range has a bound |
| ExportRoute.TopLines | src/app/api/export/route.ts:210-217 | one numbered line per top category, or a single placeholder line when there is none |
| ExportRoute.MetaSummaryLines | src/app/api/export/route.ts:220-231 | one line per goal, or a single placeholder line when there are none |
| ExportRoute.BuildTxt | src/app/api/export/route.ts:147-250 | the text is the report's lines joined with newlines |
| ExportRoute.TxtAdvice | src/app/api/export/route.ts:233-249 | the report's last line is the advice for the period's balance and expense total |
| ExportRoute.TxtNoExpenses | src/app/api/export/route.ts:160-170 | the top-categories section is the "no expenses" placeholder exactly when the period has no expense |
| ExportRoute.OrDefault | src/app/api/export/route.ts:260-268 | a missing or empty parameter takes the fallback, any other value is kept |
| ExportRoute.ExportTypeOf | src/app/api/export/route.ts:260-262 | the lower-cased type selects JSON or text exactly for "json" and "txt"; anything else exports CSV |
| ExportRoute.Get | src/app/api/export/route.ts:252-325 | 401 exactly without a session; otherwise the export of the query's window, oldest first |
| ExportRoute.Export | src/app/api/export/route.ts:284-320 | always an attachment; each type gets its content type, its body and the given or default file name with its extension |
| ExportRoute.GetDefaults | src/app/api/export/route.ts:260-270 | a request with no parameters exports every stored transaction, oldest first, as the default CSV file |
| Csv.DoubleQuotes | src/lib/utils.ts:35 | writing every quote twice adds exactly one character per quote |
| Csv.UndoubleInside | src/app/api/export/route.ts:69-70 | reading an escaped field back undoes the doubling: the original text, and nothing after it |
| Csv.RowRoundTrip | src/lib/utils.ts:33-37 | a row written cell by cell with the separator reads back as exactly the cells' texts (RFC 4180, section 2, rules 6 and 7) |
| Csv.JoinRoundTrip | src/app/api/export/route.ts:100 | the rendered cells joined with the separator read back as the cells' texts |
| Csv.DoubleQuotesNone | src/lib/utils.ts:35 | text without a quote is written unchanged |
| Csv.TimestampPlain | src/lib/exportUtils.ts:34-43 | a date's timestamp text never needs quoting: it holds no comma, semicolon or quote |
| UtilsCsv.Lookup | src/lib/utils.ts:34 | a found value belongs to a pair with that key; nothing is found exactly when no pair has the key |
| UtilsCsv.TranslateHeader | src/lib/utils.ts:9-29 | a field with a Portuguese name in the header table is renamed to it; any other field keeps its own name |
| UtilsCsv.KeysOf | src/lib/utils.ts:27 | the headers are the first record's keys, in order |
| UtilsCsv.CsvRows | src/lib/utils.ts:26-38 | the header line from the first record's keys, then one line per record in order, each in that header order |
| UtilsCsv.ExportToCsv | src/lib/utils.ts:20-40 | nothing is produced exactly for an empty list; otherwise the content is the lines joined with line breaks |
| UtilsCsv.RowLineFields | src/lib/utils.ts:32-37 | a record's line read back with ";" gives its values in header order, quotes inside strings included, missing fields as empty |
| ExportUtils.Quarter | src/lib/exportUtils.ts:30 | the quarter is 1 to 4, months January to March giving 1 and so on |
| ExportUtils.WeekdayName | src/lib/exportUtils.ts:31 | the weekday column is the Portuguese name of the date's day of the week |
| ExportUtils.MetaLabel | src/lib/exportUtils.ts:39 | a transaction without a goal is labelled "Sem meta"; one with a goal id shows that id |
| ExportUtils.LabelsPlain | src/lib/exportUtils.ts:40-42 | the month, quarter and weekday columns hold no comma or quote, so they need no quoting |
| ExportUtils.AdvancedRowFields | src/lib/exportUtils.ts:28-44 | where category, description and goal hold no quote, a line reads back as exactly the nine column values |
| ExportUtils.WeekdayNameNext | src/lib/exportUtils.ts:31 | consecutive days get consecutive weekday names |
| ExportUtils.Largest | src/lib/exportUtils.ts:107-124 | the first entry after the stable descending sort: none exactly for no entries, otherwise the first entry, in list order, that no other entry exceeds |
| ExportUtils.ResumoOf | src/lib/exportUtils.ts:67-89 | the counts, the income and expense totals, a final balance equal to their difference, and a reached-goal count no larger than the goal count |
| ExportUtils.CategoriasSpec | src/lib/exportUtils.ts:90-96 | every signed category total once, largest magnitude first, the totals adding up to the final balance |
| ExportUtils.LargestTextNA | src/lib/exportUtils.ts:110-112 | "N/A" stands exactly for the missing entry |
| ExportUtils.TendenciasNA | src/lib/exportUtils.ts:97-129 | each trend is "N/A" exactly when the transactions hold no expense |
| ExportUtils.SavingsRate | src/lib/exportUtils.ts:155-158 | the final balance as a percentage of income, income below 1 counting as 1 |
| ExportUtils.MonthlyAverageSpec | src/lib/exportUtils.ts:159-162 | expenses over the number of distinct months, which is at least 1 and at most the number of transactions; with no transactions, the total itself |
| ExportUtils.GoalEffectiveness | src/lib/exportUtils.ts:163-166 | a percentage from 0 to 100: 100 when every goal is reached, 0 when none is |
| ExportUtils.CategoryRows | src/lib/exportUtils.ts:200-213 | one row per category total, its share taken of the sum of all amounts, income and expense alike |
| ExportUtils.GoalRows | src/lib/exportUtils.ts:217-230 | one row per goal, in order |
| ExportUtils.SheetLayout | src/lib/exportUtils.ts:184-231 | four heading rows, the transaction rows, three heading rows, the category rows, three more, then the goal rows |
| ExportManager.GeneratePeriodReport | src/lib/exportManager.ts:301-332 | the report keeps, in their order, exactly the transactions dated from the start to the end day, both included, with the goals unchanged and the totals of the kept transactions |
| ExportManager.SummaryOf | src/lib/exportManager.ts:312-330 | income total, expense total, and a balance equal to their difference |
| ExportManager.PeriodCoversAll | src/lib/exportManager.ts:307-310 | a period spanning every transaction keeps them all |
| ExportManager.InstallmentsOr | src/lib/exportManager.ts:48 | a missing or zero instalment count writes nothing; any other is written as digits |
| ExportManager.TransactionLineFields | src/lib/exportManager.ts:43-50 | (corrected) whatever the description and the goal name hold, the escaped line reads back as its eight values |
| ExportManager.TransactionLineAgrees | src/lib/exportManager.ts:43-50 | where the description and the goal name hold no quote, the escaped line is exactly the line the source writes, its date cell the timestamp text the client holds |
| ExportManager.VerbatimQuoteSplitsField | src/lib/exportManager.ts:45-47 | (as written) a description `x",y` closes the quoted field early: the line reads back as nine values, the fourth `x` and the fifth `y"` |
| ExportManager.MetaLineAgrees | src/lib/exportManager.ts:56-68 | the goal line is the export route's goal row with the name escaped; where the name holds no quote the two are the same text |
| ExportManager.CategoryRankingSpec | src/lib/exportManager.ts:74-86 | the ranking holds every expense category total exactly once, largest first |
| ExportManager.ExportToCsv | src/lib/exportManager.ts:24-89 | the `+=` loops build the report text with the transaction and goal lines as the source writes them (each date as its timestamp text), downloaded as the given name with ".csv" |
| ExportManager.CsvContentAgrees | src/lib/exportManager.ts:43-66 | where no description or goal name holds a quote, the file as written is the RFC 4180 escaped file |
| ExportManager.StatusBands | src/lib/exportManager.ts:138-146 | for a positive target: reached from 100%, close from 80%, halfway from 50%, pending below, each stated as a comparison of saved amount and target |
| ExportManager.StatusWithoutTarget | src/lib/exportManager.ts:138-146 | with target 0 the percentage is infinite or undefined: reached when anything was saved, pending otherwise |
| ExportManager.Bar | src/lib/exportManager.ts:179-181 | an undefined share draws nothing; an infinite share makes `repeat` throw |
| ExportManager.BarShape | src/lib/exportManager.ts:179-181 | a non-negative share draws `floor(p / 2)` full cells padded with empty cells to 25 |
| ExportManager.CategoryBlock | src/lib/exportManager.ts:177-187 | an entry can be written exactly when its bar can be drawn |
| ExportManager.CategoryBlocksDefined | src/lib/exportManager.ts:174-187 | the category section can be written exactly when every bar can be drawn |
| ExportManager.BarsDrawn | src/lib/exportManager.ts:170-187 | with a positive expense total no bar throws |
| ExportManager.RecommendationOf | src/lib/exportManager.ts:196-214 | the alert exactly for a negative balance, the excellent note exactly for a balance above 30% of income, the balanced note otherwise |
| ExportManager.FocusIsLargest | src/lib/exportManager.ts:200-203 | the alert's focus is the first category, in order of first appearance, with the largest expense total (the stable sort's head), or "controle de despesas" when there is none or it has no name |
| ExportManager.ProblemCategory | src/lib/exportManager.ts:217-219 | the first category, in insertion order, whose share of expenses exceeds 40%; none exactly when no category does |
| ExportManager.ProblemShare | src/lib/exportManager.ts:217-226 | with a positive expense total the flagged category takes more than 40% of it |
| ExportManager.LastMonthSpending | src/lib/exportManager.ts:238-240 | the expenses of the transactions from one month ago onwards |
| ExportManager.LastMonthWindow | src/lib/exportManager.ts:231-236 | the window keeps exactly the transactions dated on or after the same day last month, which is before today |
| ExportManager.AppendCategoryBlocks | src/lib/exportManager.ts:174-187 | the loop appends the entries' texts one by one, and stops with nothing once a bar throws |
| ExportManager.ExportExecutiveReport | src/lib/exportManager.ts:92-263 | the report is downloaded as the name with ".txt" exactly when every section can be written |
| ExportManager.GoalsSection | src/lib/exportManager.ts:125-155 | the loop appends one entry per goal, or the "no goals" notice |
| ExportManager.CategoriesSection | src/lib/exportManager.ts:157-188 | the categories grouped, ranked, cut to ten and appended, or the "no expenses" notice |
| ExportManager.CategoryBlocksPrefix | src/lib/exportManager.ts:177-187 | once one entry throws, the whole section throws |
| Ledger.NetIsIncomeMinusExpense | src/lib/exportUtils.ts:69-78 | the signed sum of all transactions is the income total minus the expense total |
| Ledger.FilterIncomeTotal | src/app/api/export/route.ts:74-76 | filtering the income transactions and summing them gives the income total |
| Ledger.FilterExpenseTotal | src/app/api/export/route.ts:77-79 | filtering the expense transactions and summing them gives the expense total |
| Ledger.FindMeta | src/components/features/transactions/TransactionsList.tsx:61 | `metas.find`: the first goal with that id; nothing exactly when the id is missing or no goal has it |
| Ledger.PerInstallment | src/components/TransactionForm.tsx:58 | the instalments multiply back to the total, and are positive when it is |
| Ledger.KindLabel | src/lib/exportManager.ts:45 | "Receita" and "Despesa" never need quoting: no comma, semicolon or quote |
| Ledger.MetaName | src/app/api/export/route.ts:94-95 | `meta?.nome \|\| ""`: empty without a goal id, the found goal's name otherwise |
| Ledger.ExpenseMap | src/lib/exportManager.ts:158-163 | the accumulating reduce gives each expense category's total, in order of first appearance |
| Ledger.ExpenseByCategoryTotal | src/lib/exportManager.ts:158-163 | the category totals add up to the expense total |
| Ledger.ExpenseByCategoryEmpty | src/lib/exportManager.ts:170 | there is no category total exactly when there is no expense |
| Ledger.TopByValueSpec | src/app/api/export/route.ts:168-170 | sort descending and slice: at most `n` entries, largest first, all drawn from the list, none left out larger than the last kept |
| Ledger.TopByValueFirst | src/app/api/export/route.ts:168-170 | the sort is stable: the first entry kept is the first entry of the list with the largest value |
| Ledger.AmountsAddUp | src/lib/exportUtils.ts:210 | the income and expense totals add up to the sum of all amounts |
| Ledger.AccumulatedIsNet | src/app/api/export/route.ts:106-111 | a goal's accumulated amount is its linked income minus its linked expense |
| Ledger.Remaining | src/lib/exportManager.ts:153 | "Faltam" is never negative, is 0 exactly when the goal is reached, and otherwise completes the accumulated amount to the target |
| Ledger.ReachedCount | src/lib/exportUtils.ts:80-88 | the number of goals reached is at most the number of goals |
| Ledger.Round | src/components/features/analytics/Charts/MetasProgressChart.tsx:26 | `Math.round`: the integer within half of the value, halves rounded up |
| Ledger.Ceil | src/lib/pdfReportGenerator.ts:176 | `Math.ceil`: the least integer not below the value |
| ExportControls.AllSpec | src/components/features/system/ExportControls.tsx:33-36 | "all" exports every transaction, labelled "Todos os dados" |
| ExportControls.RelativeStartSpec | src/components/features/system/ExportControls.tsx:40-56 | a relative period starts on the same day 1, 3, 6 or 12 months back, which is before today |
| ExportControls.RelativeSpec | src/components/features/system/ExportControls.tsx:40-76 | a relative period keeps, in order, exactly the transactions dated on or after its first day; nothing bounds it above |
| ExportControls.CustomSpec | src/components/features/system/ExportControls.tsx:57-69 | "custom" with both dates keeps the transactions between them, both included, in order, labelled with the dates; with a date missing it keeps everything |
| ExportControls.SummarySpec | src/components/features/system/ExportControls.tsx:79-96 | whatever the period, the summary holds the income and expense totals of the exported transactions and their difference |
| ExportControls.GenerateExportData | src/components/features/system/ExportControls.tsx:32-97 | the switch and reassignments build exactly the data the period's selection describes |
| ExportControls.ExportFilenameSpec | src/components/features/system/ExportControls.tsx:104 | a typed name is kept; otherwise "relatorio-", the format and today's date, which reads back as today; never empty |
| Alerts.Lookup | src/components/features/notifications/AlertsManager.tsx:112 | `categoriesLast30[category] \|\| 0`: the category's month total when it has one, else 0 |
| Alerts.SurgeAlerts | src/components/features/notifications/AlertsManager.tsx:111-135 | at most one surge alert per category of the week |
| Alerts.SurgeAlertsSpec | src/components/features/notifications/AlertsManager.tsx:111-133 | one alert per week entry that passes the surge test against the month's total, in the week's order; an alert is in the list exactly when it is the alert of such an entry |
| Alerts.SavingsRate | src/components/features/notifications/AlertsManager.tsx:219 | 0 without income; otherwise the rate times income is the saved amount times 100 |
| Alerts.FrequencyAlerts | src/components/features/notifications/AlertsManager.tsx:166-186 | one frequency alert exactly when the week averages more than five transactions a day |
| Alerts.ProjectionAlerts | src/components/features/notifications/AlertsManager.tsx:258-276 | one projection alert exactly when the month's expenses exceed its income |
| Alerts.Mapped | src/components/features/notifications/AlertsManager.tsx:141-163 | one alert per high expense, in order |
| Alerts.Reminders | src/components/features/notifications/AlertsManager.tsx:188-208 | one reminder per goal, in order |
| Alerts.AnalyzePatterns | src/components/features/notifications/AlertsManager.tsx:80-281 | the pushes build exactly the analysis of the transactions from 30 days and from 7 days before now, in milliseconds: surges, high expenses, frequency, goal reminders, savings and projection, in that order |
| Alerts.PushSurges | src/components/features/notifications/AlertsManager.tsx:111-135 | the loop appends exactly the surge alerts |
| Alerts.PushHighExpenses | src/components/features/notifications/AlertsManager.tsx:141-163 | the loop appends one alert per high expense kept |
| Alerts.PushReminders | src/components/features/notifications/AlertsManager.tsx:188-208 | the loop appends one reminder per goal |
| Alerts.HighExpensesSpec | src/components/features/notifications/AlertsManager.tsx:137-141 | at most three alerts, each for a week's expense above 1000, largest first, and no other such expense larger than the last one reported |
| Alerts.SavingsRules | src/components/features/notifications/AlertsManager.tsx:219-255 | without income the rate is 0 and the low-savings alert fires; the low alert exactly for a rate from 0 to below 10, the excellent alert exactly above 30 |
| Alerts.WindowDays | src/components/features/notifications/AlertsManager.tsx:82-93 | with now taken as a day and the milliseconds since its midnight, the last `k` days keep exactly the transactions dated on or after the day `k` days back, or the day after it when now is past midnight |
| Alerts.WeekWithinMonth | src/components/features/notifications/AlertsManager.tsx:82-93 | every transaction of the last 7 days is also one of the last 30 days |
| Alerts.AnalysisBound | src/components/features/notifications/AlertsManager.tsx:80-281 | at most one alert per category of the week, three for expenses, one per goal and three more |
| Alerts.MarkRead | src/components/features/notifications/AlertsManager.tsx:309-316 | the same alerts in the same order, those with the id marked read |
| Alerts.RuleOf | src/components/features/notifications/AlertsManager.tsx:327-336 | the rule takes the form's name and message, and each missing field its default |
| Alerts.Board.RunAnalysis | src/components/features/notifications/AlertsManager.tsx:287-295 | the board becomes the merge of the old alerts and the new ones; the rules and the form are unchanged |
| Alerts.Board.MarkAsRead | src/components/features/notifications/AlertsManager.tsx:309-316 | only the alerts change, as `MarkRead` describes; the unread count never grows and the critical count is kept |
| Alerts.Board.RemoveAlert | src/components/features/notifications/AlertsManager.tsx:318-320 | the alerts with the id are removed, the rest kept in order; neither count grows |
| Alerts.MarkReadCounts | src/components/features/notifications/AlertsManager.tsx:309-350 | marking never raises the unread count and lowers it when an unread alert has the id; the critical count is kept |
| Alerts.RemoveCounts | src/components/features/notifications/AlertsManager.tsx:318-350 | removing alerts never raises the unread or the critical count |
| Alerts.Board.AddRule | src/components/features/notifications/AlertsManager.tsx:325-347 | with a name and a message, exactly one rule is appended and the form reset; otherwise nothing changes |
| Alerts.MergedSpec | src/components/features/notifications/AlertsManager.tsx:291-293 | at most 50 alerts, each an old one or a new one whose id was not on the board; when all fit, the old ones first and the unseen new ones after, in order |
| Alerts.MarkAndRemove | src/components/features/notifications/AlertsManager.tsx:309-320 | marking touches only the alerts with that id; removal drops exactly them and keeps the order of the rest |
| Alerts.RuleDefaults | src/components/features/notifications/AlertsManager.tsx:330-345 | the defaults: a budget rule, amount above 1000, active, immediate |
| Notifications.Create | src/hooks/useNotifications.tsx:49-70 | every new notification starts unread, with the given id, title, time, topic and priority |
| Notifications.Titles | src/hooks/useNotifications.tsx:384 | the titles of the list, in order |
| Notifications.PushFront | src/hooks/useNotifications.tsx:497 | the new entry first, then at most 14 of the old ones, in order: never more than 15 |
| Notifications.MarkRead | src/hooks/useNotifications.tsx:457-463 | the same entries in the same order, those with the id marked read |
| Notifications.MarkAllRead | src/hooks/useNotifications.tsx:465-469 | the same entries in the same order, all read |
| Notifications.NotificationList.constructor | src/hooks/useNotifications.tsx:38 | the list starts empty |
| Notifications.NotificationList.Merge | src/hooks/useNotifications.tsx:380-395 | the list becomes the merge of the old entries and the new ones, and keeps at most 15 |
| Notifications.NotificationList.Add | src/hooks/useNotifications.tsx:488-498 | the new entry is put in front and the list keeps at most 15 |
| Notifications.NotificationList.AddTip | src/hooks/useNotifications.tsx:438-449 | the tip is put in front unless a same-title entry is under 30 minutes old, in which case nothing changes |
| Notifications.NotificationList.MarkAsRead | src/hooks/useNotifications.tsx:457-463 | the list becomes its `MarkRead` image |
| Notifications.NotificationList.MarkAllAsRead | src/hooks/useNotifications.tsx:465-469 | the list becomes its `MarkAllRead` image |
| Notifications.NotificationList.Remove | src/hooks/useNotifications.tsx:471-473 | the entries with the id are removed, the rest kept in order |
| Notifications.NotificationList.ClearAll | src/hooks/useNotifications.tsx:475-477 | the list becomes empty |
| Notifications.NotificationList.ClearRead | src/hooks/useNotifications.tsx:479-481 | the read entries are removed, the unread kept in order |
| Notifications.NotificationList.ClearByTopic | src/hooks/useNotifications.tsx:483-485 | the entries of that topic are removed, the rest kept in order |
| Notifications.MergedBound | src/hooks/useNotifications.tsx:388-392 | a merge keeps at most 15 entries |
| Notifications.MergedEntries | src/hooks/useNotifications.tsx:382-393 | every entry after a merge is an old one or a new one whose title was not listed; with nothing new the list is unchanged |
| Notifications.MergedFront | src/hooks/useNotifications.tsx:390-392 | when everything fits, the new entries come first, in order, followed by the old list |
| Notifications.MarkReadOthers | src/hooks/useNotifications.tsx:457-463 | marking touches only the entries with the id, and never adds an unread entry |
| Notifications.MarkAllReadUnread | src/hooks/useNotifications.tsx:465-503 | after marking everything read the unread count and the critical count are 0 |
| Notifications.CriticalAmongUnread | src/hooks/useNotifications.tsx:501-503 | the critical count never exceeds the unread count |
| Notifications.ByTopicTotal | src/hooks/useNotifications.tsx:502-508 | the per-topic counts add up to the total count |
| Notifications.ByPrioritySpec | src/hooks/useNotifications.tsx:510-513 | each priority present is counted once, with the number of entries of that priority; the counts add up to the list's length |
| Notifications.RecentSpec | src/hooks/useNotifications.tsx:515-518 | the recent entries are, in order, exactly those stamped at most one hour before now |
| Notifications.RemovalKeeps | src/hooks/useNotifications.tsx:471-485 | each removal keeps exactly the entries failing its test, in their order |
| Notifications.Session | src/hooks/useNotifications.tsx:38-497 | from the empty list, any sequence of the list operations keeps at most 15 entries |
| BudgetManager.SpentIsCategoryTotal | src/components/features/budgets/BudgetManager.tsx:118-120 | what a budget shows as spent is the total of the expenses in exactly its category |
| BudgetManager.SpentMatchesEntries | src/components/features/budgets/BudgetManager.tsx:116-124 | a category with expenses spent exactly its expense total; a category without any spent 0 |
| BudgetManager.SpentByCategory | src/components/features/budgets/BudgetManager.tsx:116-124 | the reduce gives one entry per budgeted category, each holding what was spent in it |
| BudgetManager.OverBudgetSpec | src/components/features/budgets/BudgetManager.tsx:180-181 | for a positive budget, over exactly when spending exceeds it; for a zero budget, when anything was spent; for a negative one the comparison turns around |
| BudgetManager.RowSpec | src/components/features/budgets/BudgetManager.tsx:178-181 | each budget's line shows what its category spent, and a positive budget is flagged exactly when that exceeds it |
| BudgetManager.MissingSpec | src/components/features/budgets/BudgetManager.tsx:179 | a category missing from the map shows 0 spent and a positive budget is never over |
| BudgetManager.MonthInputRoundTrip | src/components/features/budgets/BudgetManager.tsx:126-139 | the input shows the month with two digits, and reading back what it shows gives the same year and month |
| BudgetManager.ClearedInput | src/components/features/budgets/BudgetManager.tsx:127 | a cleared input reads as year 0 and no month |
| BudgetManager.FailureMessage | src/components/features/budgets/BudgetManager.tsx:83-97 | the server's error text when it gives one, else the fixed failure message |
| BudgetManager.Panel.constructor | src/components/features/budgets/BudgetManager.tsx:33-61 | the current month and year, an empty list, loading, and the first reload asked for |
| BudgetManager.Panel.Reload | src/components/features/budgets/BudgetManager.tsx:44-47 | a reload for the month shown is asked for and the list shows as loading; nothing else changes |
| BudgetManager.Panel.Loaded | src/components/features/budgets/BudgetManager.tsx:48-56 | the reply's list, or the list kept and an error toast; loading ends either way |
| BudgetManager.Panel.HandleAddOrUpdateBudget | src/components/features/budgets/BudgetManager.tsx:63-101 | an empty category or amount shows an error and sends nothing; otherwise the budget is posted for the month shown, and once saved the fields are cleared and the list reloaded; on failure the fields are kept and the error shown |
| BudgetManager.Panel.Edit | src/components/features/budgets/BudgetManager.tsx:188 | the budget's category and amount go back into the form, and nothing else changes |
| BudgetManager.Panel.HandleDeleteBudget | src/components/features/budgets/BudgetManager.tsx:103-114 | nothing without confirmation; otherwise the deletion is sent, then either confirmed with a reload or reported as failed |
| BudgetManager.Panel.HandleDateChange | src/components/features/budgets/BudgetManager.tsx:126-130 | the year and month come from the input, and the list is reloaded exactly when either changed |
| AdvancedDashboard.StartDateSpec | src/components/features/analytics/AdvancedDashboard.tsx:51-52 | the period starts on day 1 of the month 3, 6 or 12 months before the current one, which is before today |
| AdvancedDashboard.FilteredSpec | src/components/features/analytics/AdvancedDashboard.tsx:47-55 | "all" keeps everything; a period keeps exactly the transactions dated on or after its first day, in order, so the current month is always kept |
| AdvancedDashboard.BuildMonthlyMap | src/components/features/analytics/AdvancedDashboard.tsx:59-75 | the `forEach` fills the map with each month's income and expense totals |
| AdvancedDashboard.MonthlyStep | src/components/features/analytics/AdvancedDashboard.tsx:65-74 | one more transaction adds its amount to its month's income, or to its expense when it is not income |
| AdvancedDashboard.MonthlySpec | src/components/features/analytics/AdvancedDashboard.tsx:77-85 | at most six points, one per month up to six, earliest first, each with its totals and their difference; every month left out is earlier than those shown |
| AdvancedDashboard.MonthlyMapSpec | src/components/features/analytics/AdvancedDashboard.tsx:59-75 | every map entry is a month with its two totals, and every transaction's month has an entry |
| AdvancedDashboard.MonthlyDataFor | src/components/features/analytics/AdvancedDashboard.tsx:58-86 | the loop then the sort, slice and map give exactly the monthly series |
| AdvancedDashboard.Capitalize | src/components/features/analytics/AdvancedDashboard.tsx:104 | the same length, the first character upper-cased and the rest unchanged |
| AdvancedDashboard.CategoryRows | src/components/features/analytics/AdvancedDashboard.tsx:102-108 | one row per expense category, before sorting |
| AdvancedDashboard.CategorySpec | src/components/features/analytics/AdvancedDashboard.tsx:89-111 | at most eight categories, largest first, each an expense category with its total and its share of all expenses (0 when there are none), and none left out spent more than the last shown |
| AdvancedDashboard.ShareSpec | src/components/features/analytics/AdvancedDashboard.tsx:91-106 | the category totals add up to the expense total, and with no expense every share is 0 |
| AdvancedDashboard.CategoryAnalysis | src/components/features/analytics/AdvancedDashboard.tsx:89-111 | the `forEach` then the map, sort and slice give exactly the category analysis |
| AdvancedDashboard.BalanceInsightSpec | src/components/features/analytics/AdvancedDashboard.tsx:136-152 | the balance insight exists exactly when the balance is not 0: a success above, a warning below |
| AdvancedDashboard.GoalInsightSpec | src/components/features/analytics/AdvancedDashboard.tsx:167-185 | the goal insight exists exactly when some goal is at 80% or more but below 100%, and it is about the first such goal |
| AdvancedDashboard.CloseSpec | src/components/features/analytics/AdvancedDashboard.tsx:173-177 | for a positive target, close means at least 80% of it accumulated and not all of it |
| AdvancedDashboard.MonthBalanceSpec | src/components/features/analytics/AdvancedDashboard.tsx:120-133 | the balance is the current month's income minus its expenses |
| AdvancedDashboard.AssembleSpec | src/components/features/analytics/AdvancedDashboard.tsx:114-187 | at most three insights, in a fixed order: the balance one first, then the main category, then the goal |
| AdvancedDashboard.MonthsInPeriod | src/components/features/analytics/AdvancedDashboard.tsx:204 | the averages divide by at least one month |
| AdvancedDashboard.StatsSpec | src/components/features/analytics/AdvancedDashboard.tsx:191-217 | the period's totals and their difference, the averages over its months, and a savings rate that is 0 without income and otherwise positive exactly when the balance is |
| CategoryChart.GroupName | src/components/features/analytics/CategoryChart.tsx:33 | an empty category is grouped under "Sem Categoria"; any other under its own name, so no group name is empty |
| CategoryChart.GroupedSpec | src/components/features/analytics/CategoryChart.tsx:32-40 | the reduce gives one entry per category name, in order of first appearance, each holding that category's total, its number of transactions and the type of its first transaction |
| CategoryChart.GroupedStepKnown | src/components/features/analytics/CategoryChart.tsx:34-38 | a transaction of a category already in the record adds its amount and one to that entry |
| CategoryChart.GroupedStepNew | src/components/features/analytics/CategoryChart.tsx:34-38 | a transaction of a new category adds an entry at the end, typed by it |
| CategoryChart.Rows | src/components/features/analytics/CategoryChart.tsx:43-49 | one row per grouped entry, in order |
| CategoryChart.RowsSpec | src/components/features/analytics/CategoryChart.tsx:32-49 | every row describes one category of the given transactions, and every transaction's category has a row |
| CategoryChart.RowsAllowed | src/components/features/analytics/CategoryChart.tsx:26-29 | a row's type is one the filter lets through |
| CategoryChart.CategoryDataSpec | src/components/features/analytics/CategoryChart.tsx:25-52 | at most ten rows, largest totals first, each a category of the filtered transactions with its total, count and first type |
| CategoryChart.LeftOutSpec | src/components/features/analytics/CategoryChart.tsx:50-51 | a category left out totals no more than any row shown, and then all ten places are taken |
| CategoryChart.TotalsSpec | src/components/features/analytics/CategoryChart.tsx:55-65 | the totals are the income and expense of every transaction, whatever the filter, and their sum is the sum of all amounts |
| FinanceFilters.HandleFilterSpec | src/components/features/analytics/Charts/FinanceFilters.tsx:23-34 | the list keeps, in order, exactly the transactions passing all four tests, the date ones comparing the timestamp text with the bounds, and the type is passed on |
| FinanceFilters.OpenCriteria | src/components/features/analytics/Charts/FinanceFilters.tsx:24-28 | type "all", no category and empty date fields let every transaction through |
| FinanceFilters.DateBoundsSpec | src/components/features/analytics/Charts/FinanceFilters.tsx:27-28 | with ISO bounds, the string tests on the timestamp text keep exactly the dates from the first bound up to the day before the second: the end day is left out |
| FinanceFilters.DayBoundsSpec | src/components/features/analytics/Charts/FinanceFilters.tsx:27-28 | (corrected) comparing the day part instead keeps exactly the dates from the first bound to the second, both included |
| FinanceFilters.MonthBoundsSpec | src/components/features/analytics/Charts/FinanceFilters.tsx:45-53 | the default bounds are the ISO texts of the first and the last day of the current month |
| FinanceFilters.InitialSpec | src/components/features/analytics/Charts/FinanceFilters.tsx:16-19 | the starting bounds keep exactly the transactions of the current month except those of its last day |
| FinanceFilters.LastDayDropped | src/components/features/analytics/Charts/FinanceFilters.tsx:18-28 | (as written) a transaction dated on the last day of the current month fails the starting bounds |
| FinanceFilters.InitialDaySpec | src/components/features/analytics/Charts/FinanceFilters.tsx:16-28 | (corrected) on the day part the starting bounds keep exactly the transactions of the current month |
| FinanceFilters.HandleResetSpec | src/components/features/analytics/Charts/FinanceFilters.tsx:36-43 | after a reset the state is the starting one and the chart gets the full list with type "all", which is what the open filter would give |
| FinanceFilters.CategoriesSpec | src/components/features/analytics/Charts/FinanceFilters.tsx:21 | each category once, every category present, in order of first appearance |
| FinanceLineChart.FilteredSpec | src/components/features/analytics/Charts/FinanceLineChart.tsx:21-24 | both branches keep, in order, exactly the transactions the type filter allows |
| FinanceLineChart.BuildDataMap | src/components/features/analytics/Charts/FinanceLineChart.tsx:26-34 | the `forEach` fills the map with each month's income and expense totals |
| FinanceLineChart.DataMapStep | src/components/features/analytics/Charts/FinanceLineChart.tsx:29-33 | one more transaction adds its amount to its month's bucket for its type |
| FinanceLineChart.Points | src/components/features/analytics/Charts/FinanceLineChart.tsx:38-43 | one point per sorted bucket, in order |
| FinanceLineChart.ChartData | src/components/features/analytics/Charts/FinanceLineChart.tsx:21-43 | the loop, sort and map give exactly the series |
| FinanceLineChart.DataSpec | src/components/features/analytics/Charts/FinanceLineChart.tsx:21-43 | one point per month of the filtered transactions, months strictly ascending, each with its income and expense totals and their difference, and every allowed transaction's month has a point |
| FinanceLineChart.Chronological | src/components/features/analytics/Charts/FinanceLineChart.tsx:37 | with four-digit years the key order is calendar order |
| FinanceLineChart.OneKindSpec | src/components/features/analytics/Charts/FinanceLineChart.tsx:21-42 | with one type shown, the other total of every point is 0 and the balance is the shown total, negated for expenses |
| FinanceLineChart.LinesSpec | src/components/features/analytics/Charts/FinanceLineChart.tsx:53-59 | a type's line is drawn exactly when the filter allows that type; the balance line always is |
| FinanceChart.BuildDataMap | src/components/features/analytics/Charts/FinanceChart.tsx:21-26 | the `forEach` fills the map with each category's income and expense totals |
| FinanceChart.DataMapStep | src/components/features/analytics/Charts/FinanceChart.tsx:24-25 | one more transaction creates its category's bucket at 0 if needed and adds its amount for its type |
| FinanceChart.Bars | src/components/features/analytics/Charts/FinanceChart.tsx:28-32 | one bar per map entry, in order |
| FinanceChart.ChartData | src/components/features/analytics/Charts/FinanceChart.tsx:21-32 | the loop and the map give exactly the bars |
| FinanceChart.DataSpec | src/components/features/analytics/Charts/FinanceChart.tsx:21-32 | exactly one entry per distinct category, in order of first appearance, each with its category's income and expense totals |
| FinanceChart.DataTotals | src/components/features/analytics/Charts/FinanceChart.tsx:23-31 | the income bars add up to the income total and the expense bars to the expense total |
| FinanceChart.ShownSpec | src/components/features/analytics/Charts/FinanceChart.tsx:42-47 | a type's bar is drawn exactly when the filter allows it; the data itself ignores the filter |
| FinancePieChart.BuildDataMap | src/components/features/analytics/Charts/FinancePieChart.tsx:15-22 | the first `forEach` creates every category's bucket and adds the allowed amounts |
| FinancePieChart.DataMapStep | src/components/features/analytics/Charts/FinancePieChart.tsx:18-21 | one more transaction creates its bucket if needed and adds its amount only when the filter allows its type |
| FinancePieChart.DataMapSpec | src/components/features/analytics/Charts/FinancePieChart.tsx:15-22 | every category has a bucket holding its total for each allowed type and 0 for the others |
| FinancePieChart.BuildSlices | src/components/features/analytics/Charts/FinancePieChart.tsx:24-32 | the second `forEach` pushes exactly the slices |
| FinancePieChart.EntrySlicesSpec | src/components/features/analytics/Charts/FinancePieChart.tsx:26-31 | a bucket gives at most two slices, exactly its positive totals of the shown types |
| FinancePieChart.SlicesFrom | src/components/features/analytics/Charts/FinancePieChart.tsx:24-32 | every slice is a positive bucket of a shown type, named after its category with its type's suffix |
| FinancePieChart.SlicesCover | src/components/features/analytics/Charts/FinancePieChart.tsx:24-32 | every positive bucket of a shown type has its slice |
| FinancePieChart.ChartData | src/components/features/analytics/Charts/FinancePieChart.tsx:15-32 | the two loops give exactly the slices |
| FinancePieChart.PieSpec | src/components/features/analytics/Charts/FinancePieChart.tsx:15-32 | every slice is positive, of a shown type and named after a category and that type, with the category's total for the type; each positive total of a shown type has its slice |
| FinancePieChart.ColourSpec | src/components/features/analytics/Charts/FinancePieChart.tsx:27-50 | a slice is green exactly when its name ends in " (Receita)" and red exactly when it ends in " (Despesa)" |
| SaldoPrevisao.SaldoPrevisaoData | src/components/features/analytics/Charts/SaldoPrevisaoChart.tsx:12-27 | one point per month, each with that month's balance and the running balance up to it |
| SaldoPrevisao.Accumulate | src/components/features/analytics/Charts/SaldoPrevisaoChart.tsx:16-27 | the callback that adds to `saldoAcumulado` gives each point the sum of the balances of its month and all earlier ones |
| SaldoPrevisao.MesesSpec | src/components/features/analytics/Charts/SaldoPrevisaoChart.tsx:12-14 | the months are exactly those of the transactions, each once, strictly ascending |
| SaldoPrevisao.AcumuladoStep | src/components/features/analytics/Charts/SaldoPrevisaoChart.tsx:18-21 | the first running balance is the first month's balance, and each next one adds its month's balance |
| SaldoPrevisao.FinalBalance | src/components/features/analytics/Charts/SaldoPrevisaoChart.tsx:16-26 | the last running balance is the signed sum of all transactions |
| SaldoPrevisao.Chronological | src/components/features/analytics/Charts/SaldoPrevisaoChart.tsx:14 | with four-digit years a later point's month is a later calendar month |
| MetasProgress.ProgressSpec | src/components/features/analytics/Charts/MetasProgressChart.tsx:26 | for a non-zero target, a whole number at most 100, within half a point of the real percentage up to 99.5%, negative below -0.5% (no lower clamp); a zero target gives 100, -Infinity or NaN |
| MetasProgress.LabelSpec | src/components/features/analytics/Charts/MetasProgressChart.tsx:46-48 | every label ends in "%", and for a non-zero target it reads back as the progress |
| MetasProgress.DataSpec | src/components/features/analytics/Charts/MetasProgressChart.tsx:20-30 | one bar per goal, in goal order, with its name, target and linked income minus linked expense |
| MetasProgressAdvanced.ProgressSpec | src/components/features/analytics/Charts/MetasProgressChartAdvanced.tsx:23 | a whole percentage in 0..100 within half a point of the real one, clamped at both ends; a zero target gives 100, 0, or NaN only for 0 / 0 |
| MetasProgressAdvanced.StatusBands | src/components/features/analytics/Charts/MetasProgressChartAdvanced.tsx:30 | the bands on the rounded percentage: done from 99.5%, close from 79.5%, halfway from 49.5%, pending below |
| MetasProgressAdvanced.StatusZeroTarget | src/components/features/analytics/Charts/MetasProgressChartAdvanced.tsx:23-30 | with a zero target the status is done for a positive amount and pending otherwise |
| MetasProgressAdvanced.ShortNameSpec | src/components/features/analytics/Charts/MetasProgressChartAdvanced.tsx:26 | a name of up to 15 characters is kept; a longer one keeps its first 15 and gains "...", 18 in all |
| MetasProgressAdvanced.DataSpec | src/components/features/analytics/Charts/MetasProgressChartAdvanced.tsx:18-32 | one bar per goal, in goal order, with its target, its linked income minus linked expense, and the status of its band |
| MetasPage.CardSpec | src/app/metas/page.tsx:62-72 | the card adds linked income and linked expense alike, exceeding the charts' signed sum by twice the linked expense; reached exactly when nothing is missing, otherwise the missing amount completes the target |
| MetasPage.IncomeOnlyAgrees | src/app/metas/page.tsx:64-69 | with only income linked, the card's amount is the signed sum the charts use |
| MetasPage.ReachedStat | src/app/metas/page.tsx:353 | for a positive target "Atingidas" counts a goal exactly when it collected at least 99.5%, so every reached card is counted |
| MetasPage.CountedBeforeReached | src/app/metas/page.tsx:71-353 | between 99.5% and the target a goal is counted as reached and shows 100% while its card is not reached and still misses something |
| MetasPage.CountedBeforeReachedExample | src/app/metas/page.tsx:71-353 | one transaction of 995 for a goal of 1000 is such a goal |
| MetasPage.CollectedNonNeg | src/app/metas/page.tsx:64-69 | non-negative amounts collect a non-negative sum |
| MetasPage.ProgressBetween | src/app/metas/page.tsx:71 | a positive target and a non-negative sum give a whole percentage from 0 to 100 |
| MetasPage.CountsPartition | src/app/metas/page.tsx:353-369 | with positive targets and non-negative amounts every goal is in exactly one of "Atingidas", "Progresso" and "Início" |
| MetasPage.ZeroTarget | src/app/metas/page.tsx:353-369 | a zero target: NaN and no count with nothing collected, reached with something, -Infinity and no count with a negative sum |
| MetasPage.ZeroTargetUncounted | src/app/metas/page.tsx:345-369 | one goal with a zero target and no transactions: total 1 and every count 0 |
| MetasPage.RequestSpec | src/app/metas/page.tsx:87-97 | editing sends PUT to the goal's own address, creating sends POST to the collection, the body holding the typed fields |
| MetasPage.MetaForm.constructor | src/app/metas/page.tsx:26-27 | an empty form, nothing being edited, nothing sent |
| MetasPage.MetaForm.HandleSubmit | src/app/metas/page.tsx:76-116 | an empty field only shows an error; otherwise the request is sent, and on success the toast says updated or created, the form is cleared, editing ends and the page reloads; on failure the form is kept |
| MetasPage.MetaForm.HandleEdit | src/app/metas/page.tsx:119-123 | the goal's name and target fill the form and it becomes the goal being edited |
| MetasPage.MetaForm.HandleCancelEdit | src/app/metas/page.tsx:126-129 | the form is cleared and nothing is being edited |
| Orcamento.UniqueCategoriesSpec | src/app/orcamento/page.tsx:10-14 | exactly the categories of the expenses, each once, strictly ascending |
| Orcamento.IncomeOnlyAbsent | src/app/orcamento/page.tsx:11-12 | a category used only by income never appears |
| FinancialReport.QuickRangeSpec | src/components/features/financial/FinancialReport.tsx:64-79 | this month runs from its 1st to its last day, next month likewise with December rolling over to January, this year from January 1 to December 31; `custom` selects nothing |
| FinancialReport.WholeMonth | src/components/features/financial/FinancialReport.tsx:66-71 | `new Date(y, i, 1)` and `new Date(y, i + 1, 0)` are the first and last day of month `i`, for `i` up to 12 |
| FinancialReport.PreviousMonthSpec | src/components/features/financial/FinancialReport.tsx:157-160 | the previous-month window is the whole calendar month before the start's month, January rolling back to December |
| FinancialReport.EmptyRangeSpec | src/components/features/financial/FinancialReport.tsx:90-101 | an empty start or end gives all-zero totals and empty lists |
| FinancialReport.PeriodSpec | src/components/features/financial/FinancialReport.tsx:104-116 | with both bounds, the period holds exactly the transactions dated in the range, both ends included, in order |
| FinancialReport.TotalsSpec | src/components/features/financial/FinancialReport.tsx:119-127 | income and expense are the period's totals and the balance their difference |
| FinancialReport.CategorySumsSpec | src/components/features/financial/FinancialReport.tsx:130-140 | the per-category totals add up to the income and to the expense |
| FinancialReport.PreviousSpec | src/components/features/financial/FinancialReport.tsx:162-179 | the previous month's figures are its income and expense totals, and its balance their difference |
| FinancialReport.CategoryKeysSpec | src/components/features/financial/FinancialReport.tsx:133-140 | each of the income and expense dictionaries lists every category of its kind in the period once and no other key, a missing category counting as "Sem categoria" |
| FinancialReport.UpcomingSpec | src/components/features/financial/FinancialReport.tsx:143-154 | at most five expenses dated from now to thirty days ahead, earliest first, none left out earlier than the last listed |
| FinancialReport.PercentChangeSpec | src/components/features/financial/FinancialReport.tsx:202-205 | from zero: 100 for growth, else 0; otherwise the difference as a percentage of the old value, positive from a positive value exactly for growth |
| FinancialReport.ReportCard.constructor | src/components/features/financial/FinancialReport.tsx:41-57 | after the first effect the range is the current month and "this month" is highlighted |
| FinancialReport.ReportCard.SetQuickFilter | src/components/features/financial/FinancialReport.tsx:60-86 | a button selects its range and is highlighted; `custom` changes nothing |
| FinancialReport.ReportCard.ChooseCustom | src/components/features/financial/FinancialReport.tsx:271 | the "custom" button only moves the highlight |
| FinancialReport.ReportCard.SetStart | src/components/features/financial/FinancialReport.tsx:295-296 | a typed start keeps the end and highlights "custom" |
| FinancialReport.ReportCard.SetEnd | src/components/features/financial/FinancialReport.tsx:306-307 | a typed end keeps the start and highlights "custom" |
| FinancialReport.ReportCard.Data | src/components/features/financial/FinancialReport.tsx:89-191 | the report shown is the report of the current range |
| FinancialReport.BuildReport | src/components/features/financial/FinancialReport.tsx:89-191 | the filter, totals, category loop and comparison build exactly the report |
| FinancialReport.CategoryTotals | src/components/features/financial/FinancialReport.tsx:133-140 | the `forEach` gives each kind's per-category totals, in order of first appearance |
| SpendingInsights.SpendingByCategorySpec | src/lib/financialInsights.ts:19-28 | only expenses enter the totals, and they add up to the expense total |
| SpendingInsights.PreviousAmount | src/lib/financialInsights.ts:74 | the category's total last month, or 0 when it had none |
| SpendingInsights.CategoryRule | src/lib/financialInsights.ts:76-119 | with spending last month, a warning exactly when this month is above 120% of it and a success exactly when below 80%; without, a "new spending" note exactly when there is spending now |
| SpendingInsights.ChangeBounds | src/lib/financialInsights.ts:77-94 | a change above 20% means more than 1.2 times last month, below -20% less than 0.8 times |
| SpendingInsights.Compared | src/lib/financialInsights.ts:72-120 | at most one insight per category of this month |
| SpendingInsights.ComparedCategories | src/lib/financialInsights.ts:72 | every insight names a category spent on this month |
| SpendingInsights.AnalysisStable | src/lib/financialInsights.ts:122-131 | the stable note appears, alone, exactly when no category produced an insight and there are more than five transactions this month |
| SpendingInsights.PreviousOnlySilent | src/lib/financialInsights.ts:72 | a category spent on only last month produces no insight |
| SpendingInsights.AnalyzeCategorySpending | src/lib/financialInsights.ts:33-133 | the loop then the stable check give exactly the analysis of the two months |
| SpendingInsights.CompareLoop | src/lib/financialInsights.ts:72-120 | the loop pushes, in order, each category's insight |
| PdfReport.InPeriod | src/lib/pdfReportGenerator.ts:50-57 | a transaction is kept exactly when its date lies in the configured period, both ends included |
| PdfReport.TrendOf | src/lib/pdfReportGenerator.ts:94-96 | falling exactly when the second half is below 90% of the first; rising exactly when it is above 110% and not falling |
| PdfReport.TrendNegativeBase | src/lib/pdfReportGenerator.ts:94-96 | with a negative first half, equal halves meet both rules and come out falling |
| PdfReport.HalvesNet | src/lib/pdfReportGenerator.ts:80-92 | the two halves split at `floor(n / 2)` add up to the whole period's balance |
| PdfReport.PeriodDays | src/lib/pdfReportGenerator.ts:174-181 | the day count divides by at least one day |
| PdfReport.ProjectionsSpec | src/lib/pdfReportGenerator.ts:201-225 | no transactions give zero projections; the quarter is three months and the year 365/30 months of one daily average, positive exactly when the balance is |
| PdfReport.TopPart | src/lib/pdfReportGenerator.ts:148-164 | one top-category insight exactly when there is a category, naming one of the totals |
| PdfReport.ActivityPart | src/lib/pdfReportGenerator.ts:172-188 | the activity insight appears exactly when the transactions exceed three per day of the period |
| PdfReport.InsightsSpec | src/lib/pdfReportGenerator.ts:126-191 | the balance insight comes first with the balance's sign; the top category is a largest total; the goal count appears exactly when there are goals |
| PdfReport.AnalysisSpec | src/lib/pdfReportGenerator.ts:49-121 | the balance is income minus expense and the category totals add up to the expense |
| PdfReport.InsightsPart | src/lib/pdfReportGenerator.ts:287-292 | the insights section appears exactly when switched on, one line per insight |
| PdfReport.GoalsPart | src/lib/pdfReportGenerator.ts:294-299 | the goals section appears exactly when switched on and there are goals, one line per goal |
| PdfReport.ProjectionsPart | src/lib/pdfReportGenerator.ts:301-312 | the projections section appears exactly when switched on |
| PdfReport.DetailsPart | src/lib/pdfReportGenerator.ts:314-325 | the detail section appears exactly in the detailed format, one line per transaction |
| PdfReport.CategoryPartSpec | src/lib/pdfReportGenerator.ts:278-285 | every category total is listed once, largest first |
| PdfReport.Generator.constructor | src/lib/pdfReportGenerator.ts:42-44 | the generator keeps its configuration |
| PdfReport.Generator.AnalyzeData | src/lib/pdfReportGenerator.ts:49-121 | the loops compute exactly the period's analysis |
| PdfReport.Generator.ReportContent | src/lib/pdfReportGenerator.ts:247-330 | the appended sections are exactly the layout of the analysis |
| PdfReport.Generator.GenerateReport | src/lib/pdfReportGenerator.ts:231-242 | the report is the layout of the analysis of the inputs |
| PdfReport.Tendency | src/lib/pdfReportGenerator.ts:80-96 | the step-by-step assignments give the trend rule on the two halves |
| PdfReport.AppendPart | src/lib/pdfReportGenerator.ts:287-299 | a switched-on block appends its heading and one line per element; a switched-off one appends nothing |
| PdfReport.AppendEach | src/lib/pdfReportGenerator.ts:289-291 | a `forEach` appends one line per element, in order |
| PdfReport.Templates | src/lib/pdfReportGenerator.ts:335-362 | three templates, all with insights; only the yearly one detailed; graphs, goals and projections switched together |
| UpcomingPayments.WeekStartSpec | src/components/features/financial/UpcomingPaymentsDashboard.tsx:29-35 | going back `getDay()` days lands on a Sunday, and six days later is a Saturday |
| UpcomingPayments.ThisWeekSpec | src/components/features/financial/UpcomingPaymentsDashboard.tsx:44-50 | this week runs from a Sunday to the Saturday six days later, and contains today |
| UpcomingPayments.MonthPeriodsSpec | src/components/features/financial/UpcomingPaymentsDashboard.tsx:37-41 | this month runs from its 1st to its last day, and next month likewise, December rolling over to January |
| UpcomingPayments.UnknownPeriod | src/components/features/financial/UpcomingPaymentsDashboard.tsx:43-88 | only the six keys of the table select a period |
| UpcomingPayments.UnknownPeriodEmpty | src/components/features/financial/UpcomingPaymentsDashboard.tsx:89 | an unknown period shows no payments, a zero total and no groups |
| UpcomingPayments.PaymentsSpec | src/components/features/financial/UpcomingPaymentsDashboard.tsx:92-108 | the payments are exactly the expenses dated in the period, each kept as often as listed, earliest first |
| UpcomingPayments.GroupingSpec | src/components/features/financial/UpcomingPaymentsDashboard.tsx:113-135 | each grouping partitions the payments: every payment sits in its key's group, keys are distinct, each group's count and total are those of its payments, and they add up to the number of payments and the total |
| UpcomingPayments.DayKeySame | src/components/features/financial/UpcomingPaymentsDashboard.tsx:128 | two payments share a day group exactly when they fall on the same day |
| UpcomingPayments.BucketSnoc | src/components/features/financial/UpcomingPaymentsDashboard.tsx:120-122 | pushing a payment adds its amount to the total and one to the count |
| UpcomingPayments.AccumulatedGroups | src/components/features/financial/UpcomingPaymentsDashboard.tsx:115-123 | after each step the dictionary holds every key's group of the payments so far, with its total and count |
| UpcomingPayments.GroupPayments | src/components/features/financial/UpcomingPaymentsDashboard.tsx:114-135 | the `forEach` fills the dictionary with exactly the grouping of the payments |
| UpcomingPayments.AddToBucket | src/components/features/financial/UpcomingPaymentsDashboard.tsx:116-122 | a missing key gets an empty group first, then the payment is added to its group |
| UpcomingPayments.ComputePeriodData | src/components/features/financial/UpcomingPaymentsDashboard.tsx:23-138 | the memo computes exactly the period's payments, total and both groupings |
| UpcomingPayments.UrgencySpec | src/components/features/financial/UpcomingPaymentsDashboard.tsx:161-171 | overdue exactly when the date is not after now; urgent up to three days ahead, soon up to seven, normal beyond |
| TxList.RecentSpec | src/components/features/transactions/TransactionsList.tsx:89-101 | at most ten transactions, all from the list, newest date first and higher id first on the same date, none left out newer than the last shown |
| TxList.MetaNameOf | src/components/features/transactions/TransactionsList.tsx:59-63 | no name without a goal id or for an unknown one; otherwise the name of the first goal with that id |
| TxList.ListViewSpec | src/components/features/transactions/TransactionsList.tsx:71-170 | the empty state exactly for no transactions; otherwise one row per shown transaction in order, a "+" exactly for income, and the "showing 10 of n" note exactly beyond ten |
| TxList.RowSpec | src/components/features/transactions/TransactionsList.tsx:103-128 | a row carries a goal badge exactly when its goal id names a known goal with a non-empty name |
| TxList.DeleteResult | src/components/features/transactions/TransactionsList.tsx:30-46 | a success toast and a reload exactly when the DELETE answered ok, otherwise an error toast |
| TxForm.Apply | src/components/TransactionForm.tsx:143-148 | an edit replaces the field it names and keeps every other field |
| TxForm.EditLastWins | src/components/TransactionForm.tsx:143-148 | a second edit of the same field overwrites the first |
| TxForm.EditsCommute | src/components/TransactionForm.tsx:143-148 | edits of different fields give the same form in either order |
| TxForm.OptionalEditKeepsComplete | src/components/TransactionForm.tsx:48 | editing the description, goal or installments neither completes nor spoils the required fields |
| TxForm.Count | src/components/TransactionForm.tsx:56 | the installment count is never 0; a number that parses and is not 0 is kept, while NaN and 0 become 1 |
| TxForm.CountOfOption | src/components/TransactionForm.tsx:229-236 | every option of the installments select reads back as its own number |
| TxForm.OrNull | src/components/TransactionForm.tsx:83 | an empty optional field is sent as null, any other text as itself |
| TxForm.Installments | src/components/TransactionForm.tsx:65-89 | one request per installment, in order |
| TxForm.ScheduleSpec | src/components/TransactionForm.tsx:56-98 | above one installment: exactly `n` requests of the same share, adding up to the total, all with the form's type, category and goal, the count and a monthly recurrence |
| TxForm.SharesAddUp | src/components/TransactionForm.tsx:58 | `n` equal shares of the total add up to the total |
| TxForm.ScheduleDates | src/components/TransactionForm.tsx:63-67 | the first installment falls on the chosen date and each later one strictly after the one before |
| TxForm.InstallmentsLater | src/components/TransactionForm.tsx:66-67 | moving a date forward by more months gives a strictly later date |
| TxForm.SingleSpec | src/components/TransactionForm.tsx:99-114 | one installment: a single request for the whole amount, with no count and no recurrence |
| TxForm.InstallmentForm.constructor | src/components/TransactionForm.tsx:22-30 | the form starts empty, dated today, with one installment |
| TxForm.InstallmentForm.HandleInputChange | src/components/TransactionForm.tsx:143-148 | an edit changes only the form |
| TxForm.InstallmentForm.HandleSubmit | src/components/TransactionForm.tsx:45-141 | an incomplete form only shows an error; otherwise every request is sent, and any failure keeps the form with an error, else a success toast, a reset and one reload |
| TxForm.Schedule | src/components/TransactionForm.tsx:62-89 | the `for` loop pushes exactly the installment requests |
| QuickForm.RecordSpec | src/components/features/transactions/TransactionForm.tsx:54-63 | the description is the typed one or else the category, so never empty; the count is never 0; the recurrence is monthly exactly above one installment |
| QuickForm.UnlockedSpec | src/components/features/transactions/TransactionForm.tsx:99-103 | one success toast per unlocked achievement, in order, each naming it |
| QuickForm.EntryForm.constructor | src/components/features/transactions/TransactionForm.tsx:20-28 | the form starts empty, dated today, with one installment and nothing stored or posted |
| QuickForm.EntryForm.HandleInputChange | src/components/features/transactions/TransactionForm.tsx:137-142 | an edit changes only the form |
| QuickForm.EntryForm.ResetForm | src/components/features/transactions/TransactionForm.tsx:125-135 | every field back to its default and today's date, nothing else changed |
| QuickForm.EntryForm.HandleSubmit | src/components/features/transactions/TransactionForm.tsx:44-123 | an incomplete form only shows an error; offline the record is stored and nothing posted; online it is posted and the reply decides the toasts and the reset |
| QuickForm.EntryForm.SaveOffline | src/components/features/transactions/TransactionForm.tsx:65-81 | a stored record is kept locally with a confirmation, a reset and one sync event; a failure shows an error and keeps the form |
| QuickForm.EntryForm.Send | src/components/features/transactions/TransactionForm.tsx:83-122 | the record is posted; an accepted reply shows the achievements, then the message, resets and reloads; a rejected one shows an error |
| QuickForm.ShowAchievements | src/components/features/transactions/TransactionForm.tsx:99-103 | the `forEach` shows exactly one toast per achievement |
| Sync.StripForgets | src/components/features/system/SyncManager.tsx:53-55 | the request body drops the local key and the timestamp and keeps every other field |
| Sync.FirstError | src/components/features/system/SyncManager.tsx:77-81 | the position of the first network error, or the length when there is none |
| Sync.KeptMore | src/components/features/system/SyncManager.tsx:66-68 | deleting one more key from what was kept keeps what avoids the longer list of keys |
| Sync.FoldStore | src/components/features/system/SyncManager.tsx:64-69 | handling the items deletes exactly the keys of those answered OK |
| Sync.FoldSent | src/components/features/system/SyncManager.tsx:58-62 | handling the items posts every item's body, in order |
| Sync.FoldCount | src/components/features/system/SyncManager.tsx:69 | the success count is the number of OK answers |
| Sync.AcceptedKeysSpec | src/components/features/system/SyncManager.tsx:64-69 | a deleted key is the key of an item answered OK |
| Sync.DrainSent | src/components/features/system/SyncManager.tsx:50-82 | items up to and including the first network error are posted and later ones are not; the count is the OK answers before the error |
| Sync.Survives | src/components/features/system/SyncManager.tsx:64-76 | with unique keys, an item stays queued exactly when it was not handled, was not answered OK, or has no key |
| Sync.DrainStore | src/components/features/system/SyncManager.tsx:50-82 | the queue keeps its survivors in order; an item leaves exactly when it came before the first network error, was answered OK and has a key |
| Sync.SyncManager.constructor | src/components/features/system/SyncManager.tsx:23-27 | an empty queue, a zero count and no drain running |
| Sync.SyncManager.FetchPendingCount | src/components/features/system/SyncManager.tsx:29-36 | the count becomes the queue's length and nothing else changes |
| Sync.SyncManager.AddLocal | src/components/features/system/SyncManager.tsx:100-110 | an offline save joins the end of the queue and the listener refreshes the count |
| Sync.SyncManager.SyncPending | src/components/features/system/SyncManager.tsx:38-97 | nothing while a drain runs or offline; an empty queue only resets the count; otherwise the queue, requests and toasts follow the drain, the count is refreshed, the flag cleared and the synced event fired |
| Sync.SyncManager.SendAll | src/components/features/system/SyncManager.tsx:50-82 | the `for` loop posts, deletes and counts exactly as the drain does |
| Sync.SyncManager.View | src/components/features/system/SyncManager.tsx:119-145 | hidden exactly with nothing queued and no drain running; the spinner exactly while draining; otherwise the count, online or offline |
| Sync.Session | src/components/features/system/SyncManager.tsx:99-117 | any run of refreshes, offline saves and sync attempts keeps the count equal to the queue's length with no drain running |
| IaRoute.NumberParts | src/app/api/ia-transacao/route.ts:151 | `\d+(?:[,.]?\d+)?` takes the whole digit run, then a separator and a second digit run only when both are present |
| IaRoute.Leftmost | src/app/api/ia-transacao/route.ts:63 | the leftmost index where the pattern matches: it matches there and at no earlier index |
| IaRoute.Search | src/app/api/ia-transacao/route.ts:63 | `match` succeeds exactly when the pattern matches somewhere, and returns the groups of the leftmost match |
| IaRoute.Installments | src/app/api/ia-transacao/route.ts:26-92 | a count is found only when it is in (1, 100], and exactly when some pattern yields such a count; it is the yield of one of the patterns |
| IaRoute.DetectInstallments | src/app/api/ia-transacao/route.ts:62-91 | the loop with its early return gives the first plausible count |
| IaRoute.FirstTotal | src/app/api/ia-transacao/route.ts:150-166 | a total found by an "N x de V" pattern is positive and is the product read from one of them |
| IaRoute.FirstPlain | src/app/api/ia-transacao/route.ts:169-187 | a plain amount found is positive and is the number read from one of the patterns |
| IaRoute.AmountWith | src/app/api/ia-transacao/route.ts:146-190 | never negative; positive exactly when some pattern yields an amount; the installment totals come before the plain amounts |
| IaRoute.ExtractAmount | src/app/api/ia-transacao/route.ts:146-190 | the two loops, then 0, give exactly the amount |
| IaRoute.TotalLoop | src/app/api/ia-transacao/route.ts:156-166 | the loop returns the first positive product |
| IaRoute.PlainLoop | src/app/api/ia-transacao/route.ts:179-187 | the loop returns the first positive number |
| IaRoute.KindOf | src/app/api/ia-transacao/route.ts:193-224 | income exactly when some income word occurs in the lowercased text |
| IaRoute.IncomeCategoryKnown | src/app/api/ia-transacao/route.ts:230-263 | an income category is one of the six the route knows |
| IaRoute.ExpenseCategory | src/app/api/ia-transacao/route.ts:266-398 | the category of the first mapping with a keyword in the text, else "outros" |
| IaRoute.NamedIn | src/app/api/ia-transacao/route.ts:101-106 | the first goal whose lowercased name occurs in the text, if any |
| IaRoute.NamedInFirst | src/app/api/ia-transacao/route.ts:101-106 | the scan stops at the first goal named in the text |
| IaRoute.Holding | src/app/api/ia-transacao/route.ts:132-134 | `find` gives the first goal whose lowercased name contains the word |
| IaRoute.ByNames | src/app/api/ia-transacao/route.ts:131-138 | a goal found by a group's names is one of the goals |
| IaRoute.ByGroups | src/app/api/ia-transacao/route.ts:129-140 | a goal found by the keyword groups is one of the goals |
| IaRoute.MetaFor | src/app/api/ia-transacao/route.ts:95-143 | no goal when there are none; the first goal named in the text wins; any result is the id of one of the goals |
| IaRoute.FindAssociatedMeta | src/app/api/ia-transacao/route.ts:95-143 | the loops with their early returns give exactly that goal |
| IaRoute.Description | src/app/api/ia-transacao/route.ts:429-437 | the trimmed text with the other characters removed, cut to 100 characters plus "..." when longer; at most 103 characters, all kept ones |
| IaRoute.FallbackFails | src/app/api/ia-transacao/route.ts:402-410 | the local reply fails exactly when no positive amount was found; otherwise it has that amount, today's date and a description of at most 103 characters |
| IaRoute.FallbackInstallments | src/app/api/ia-transacao/route.ts:450-480 | an installment reply has a count in (1, 100], parts that are the total divided by it and a monthly recurrence; otherwise the whole amount and no count |
| IaRoute.FallbackMeta | src/app/api/ia-transacao/route.ts:422 | the goal of a local reply is one of the goals sent |
| IaRoute.Divided | src/app/api/ia-transacao/route.ts:636 | the parts multiply back to the amount |
| IaRoute.PostRefuses | src/app/api/ia-transacao/route.ts:483-503 | an unreadable body is a 500 and a missing or empty text a 400; without a key, or when the AI call throws or replies with non-JSON text, the local fallback answers |
| IaRoute.PostAiErrors | src/app/api/ia-transacao/route.ts:583-629 | an empty AI reply is a 500; a missing field, an unknown type or an amount that is not a positive number are each a distinct 400 |
| IaRoute.PostAccepts | src/app/api/ia-transacao/route.ts:632-658 | an accepted AI transaction has type income or expense and a positive numeric amount, and an installment reply splits it into more than one part |
| Nlp.AltAt | nlp_extract.py:10 | some alternative of the group matches at the index |
| Nlp.ScanWordsSpec | nlp_extract.py:10-13 | the scan from the start succeeds exactly when `re.search` finds a word-bounded alternative |
| Nlp.KindPrecedence | nlp_extract.py:9-13 | the type is never missing; an income word wins over an expense word, an expense word alone gives expense, and with neither the type is income exactly when an income hint occurs as a substring |
| Nlp.PixIsIncome | nlp_extract.py:10-12 | "pix" is in both lists, so a word-bounded "pix" makes the sentence income |
| Nlp.FirstDigit | nlp_extract.py:17 | the search starts at the first digit of the text |
| Nlp.DigitRun | nlp_extract.py:17 | `\d{1,max}` takes digits greedily, up to the bound |
| Nlp.AmountParts | nlp_extract.py:17-19 | the matched group has one to five digits, then at most two after the separator |
| Nlp.AmountPartsShape | nlp_extract.py:17 | the group starts at the first digit; the whole part stops early only at five digits and the fraction only at two |
| Nlp.AmountSpec | nlp_extract.py:15-19 | the amount is missing exactly when the text has no digit; otherwise it is at least 0 and below 100000 |
| Nlp.LazyGroup | nlp_extract.py:23 | the lazy group stops at the first end where the stop expression matches and holds only class characters; it fails only on a character outside the class |
| Nlp.CategoryGroupSpec | nlp_extract.py:23-25 | the category group ends where the stop expression first matches, holds only class characters, and is not empty before trimming |
| Nlp.CategoryFirstTier | nlp_extract.py:23-25 | a preposition match decides the category, which holds only class characters |
| Nlp.TrimWithin | nlp_extract.py:25 | `strip()` keeps only characters of the text |
| Nlp.FirstKeyword | nlp_extract.py:34-37 | the loop finds a keyword exactly when one occurs, and it is the first such in list order |
| Nlp.CategorySecondTier | nlp_extract.py:26-37 | without a preposition match, the first keyword that occurs decides |
| Nlp.Tokens | nlp_extract.py:40 | `findall` gives non-empty words of class letters, in order |
| Nlp.Relevant | nlp_extract.py:40-44 | the kept tokens are tokens of the text outside the stop list |
| Nlp.CategoryThirdTier | nlp_extract.py:38-46 | without either, the category is the last token outside the stop list, and there is one exactly when such a token exists |
| Nlp.DateSpec | nlp_extract.py:48-73 | the date is always a valid Python date; only yesterday of the first representable day and tomorrow of the last raise; "ontem" gives the day before today and "amanhã" the day after; an explicit date, else a `dia N` of this month, else today, where a date that does not exist gives today |
| Nlp.Yesterday | nlp_extract.py:51-52 | yesterday of any day but the first representable one is valid, and today follows it |
| Nlp.Tomorrow | nlp_extract.py:53-54 | tomorrow of any day but the last representable one is valid |
| Nlp.Extract | nlp_extract.py:6-87 | the script answers exactly when the date arithmetic does not raise; the description is the lowercased text and the date has ten characters |
| OpenAiRoute.TopicIsFirstGroup | src/app/api/openai/route.ts:52-224 | the branch taken is that of the first keyword group, in the handler's order, with a word in the lowercased message; with none it is the general summary |
| OpenAiRoute.BalanceSpec | src/app/api/openai/route.ts:52-73 | a positive balance opens with the positive verdict and ends with the advice of its band (above 5000, above 1000, otherwise); a zero or negative one opens with the warning and shows the amount without a sign |
| OpenAiRoute.BalanceReply | src/app/api/openai/route.ts:52-73 | the assignments and appends build exactly the balance text |
| OpenAiRoute.RankItemSpec | src/app/api/openai/route.ts:83-85 | an item of the ranking starts with its position and names its category |
| OpenAiRoute.RankingSpec | src/app/api/openai/route.ts:80-88 | one item per category, numbered from 1, each naming its category |
| OpenAiRoute.SpendingSpec | src/app/api/openai/route.ts:74-100 | the warning closes the text exactly when expenses exceed income, after the ranking and the top category's share |
| OpenAiRoute.SpendingReply | src/app/api/openai/route.ts:74-100 | the appends, including the `forEach` over the categories, build exactly the spending text |
| OpenAiRoute.IncomeSpec | src/app/api/openai/route.ts:101-120 | exactly one of three verdicts: a surplus when income is larger, the even message when equal, a deficit when expenses are larger, the amount without a sign |
| OpenAiRoute.IncomeReply | src/app/api/openai/route.ts:101-120 | the appends build exactly the income text |
| OpenAiRoute.GoalsSpec | src/app/api/openai/route.ts:121-140 | no active goals suggests creating some and lists none; otherwise the text ends with the encouragement, after the goals by name when details came |
| OpenAiRoute.GoalItemNames | src/app/api/openai/route.ts:133 | a goal's item names it |
| OpenAiRoute.GoalsReply | src/app/api/openai/route.ts:121-140 | the appends build exactly the goals text |
| OpenAiRoute.SavingSpec | src/app/api/openai/route.ts:141-154 | with categories the tip names the first of them; without, exactly the generic advice |
| OpenAiRoute.SavingReply | src/app/api/openai/route.ts:141-154 | the assignments build exactly the saving text |
| OpenAiRoute.TrendSpec | src/app/api/openai/route.ts:155-178 | the reply is empty exactly when no trend came; otherwise its result is good or bad by the sign of its balance |
| OpenAiRoute.TrendReply | src/app/api/openai/route.ts:155-178 | the appends build exactly the trend text |
| OpenAiRoute.AppendFirstThree | src/app/api/openai/route.ts:191-202 | the `slice(0, 3).forEach` appends the first three items joined by commas |
| OpenAiRoute.MovementsSpec | src/app/api/openai/route.ts:179-205 | fewer than five transactions ask for more records; from five on at most the first three latest transactions are listed, and a later one is never named by its item |
| OpenAiRoute.MovementsReply | src/app/api/openai/route.ts:179-205 | the appends build exactly the movements text |
| OpenAiRoute.SummarySpec | src/app/api/openai/route.ts:206-224 | the verdict follows the sign of income minus expenses, the amount without a sign, and the text closes by inviting a more specific question |
| OpenAiRoute.SummaryReply | src/app/api/openai/route.ts:206-224 | the appends build exactly the summary text |
| OpenAiRoute.ReplySpec | src/app/api/openai/route.ts:21-237 | a missing message is a 500 whatever the context; a missing context gives the apology; a message matching no keyword gets the summary |
| OpenAiRoute.Post | src/app/api/openai/route.ts:21-237 | the handler answers exactly the reply of the lowercased message and the context |
| ChatRoute.LastMessageSpec | src/app/api/chat/route.ts:13-14 | the keywords are searched in the last message lowercased, or in "" when there is none |
| ChatRoute.TopicIsFirstGroup | src/app/api/chat/route.ts:17-206 | the topic is that of the first keyword group, in the handler's order, with a word in the message, else the default; without data the four data topics never answer |
| ChatRoute.FiguresSpec | src/app/api/chat/route.ts:26-42 | the situation shows the income total, the expense total and their difference; the savings rate is the difference over the income, or over 1 below 1, and is positive exactly when the difference is |
| ChatRoute.SituationAdvice | src/app/api/chat/route.ts:43-53 | the situation text suggests investing the surplus exactly when there is one |
| ChatRoute.ExpenseEntry | src/app/api/chat/route.ts:62-67 | an entry of the expense dictionary is a category with the total of its expenses |
| ChatRoute.TopCategoriesSpec | src/app/api/chat/route.ts:69-85 | at most three categories, largest first, each with its expense total; none left out spends more than the last listed; with fewer than three the advice names "undefined" |
| ChatRoute.GoalFiguresSpec | src/app/api/chat/route.ts:90-119 | counts the goals whose signed linked sum reaches the target; the rate is from 0 to 100, 100 when every goal of a non-empty list is reached and 0 for no goals |
| ChatRoute.RateBounds | src/app/api/chat/route.ts:104-106 | a share of at most 1 rounds to a rate from 0 to 100, and to 100 from 99.5% on |
| ChatRoute.MonthlySavingSpec | src/app/api/chat/route.ts:127 | up to 30 transactions the monthly estimate is the balance; beyond, the balance spread over one month per 30 transactions; positive exactly when the balance is |
| ChatRoute.AnswerSpec | src/app/api/chat/route.ts:5-207 | without data only the general answers are given; each data answer shows figures computed from the request's data |
| ChatRoute.Post | src/app/api/chat/route.ts:209-237 | an unreadable body is a 500, a missing or non-array `messages` a 400; otherwise the assistant answers the messages |
| NumFmt.Decimals | src/app/api/chat/route.ts:36 | the scaled value is written with digits and a point only, starting with a digit |
| NumFmt.DecimalsDenote | src/app/api/chat/route.ts:36 | the text is digits, a point and exactly `f` digits (no point for `f` = 0), the two digit runs reading back as the scaled value |
| NumFmt.RoundedSpec | src/app/api/chat/route.ts:36 | the magnitude times 10^f rounded to the whole number within half of it, a tie going up |
| NumFmt.Fixed | src/app/api/chat/route.ts:36 | `toFixed` writes only digits, a point and a leading minus, the minus exactly for a negative value |
| NumFmt.FixedDenotes | src/app/api/chat/route.ts:36 | after the sign, `toFixed` writes the magnitude rounded to `f` decimals, a tie going away from zero: the digits read back as the rounded scaled magnitude |
| NumFmt.Quotient | src/lib/exportManager.ts:218 | a finite quotient exactly for a non-zero divisor, and it multiplies back to the numerator; otherwise an infinity or NaN |
| NumFmt.Percent | src/lib/pdfReportGenerator.ts:281 | `(num / den) * 100`, carrying the division by zero through |
| NumFmt.PercentText | src/lib/pdfReportGenerator.ts:281 | the one-decimal percentage of a non-zero divisor; "Infinity", "-Infinity" or "NaN" for a zero one |
| NumFmt.JsRound | src/app/api/chat/route.ts:104-106 | `Math.round` gives the whole number within half of the value, halves going up, and keeps infinities and NaN |
| NumFmt.MinWith | src/components/features/analytics/Charts/MetasProgressChart.tsx:26 | `Math.min` with a bound: NaN stays NaN, +Infinity becomes the bound |
| NumFmt.MaxWith | src/components/features/analytics/Charts/MetasProgressChartAdvanced.tsx:23 | `Math.max` with a bound: NaN stays NaN, -Infinity becomes the bound |
| NumFmt.IntText | src/lib/exportManager.ts:47-48 | `String(n)` writes only digits and a minus |

## Left out

- **Storage, auth and network.**
  - Prisma queries, next-auth sessions and `fetch` calls are replaced by parameters: the stored rows, a boolean for the session or token, and the reply's status and body.
  - The IndexedDB store of the sync queue is a sequence of pending items.
- **The OpenAI call in the `ia-transacao` route** (src/app/api/ia-transacao/route.ts:505-596, 655-680).
  - This is a foreign service. Its outcome is the parameter `IaRoute.AiOutcome`, and only the validation of the reply is modelled.
  - The commented-out OpenAI code of src/app/api/openai/route.ts (from line 239) is not modelled.
- **Browser effects.**
  - Not modelled: Blob/anchor downloads, DOM rendering, JSX, recharts drawing, CSS classes and colours (except the pie slice colour, which is data), and console logging.
  - `ExportControls`: the `handleExport` dispatch and the URL built by `handleServerExport` (src/components/features/system/ExportControls.tsx:99-150) only choose a download.
  - `ExportManager`: `exportToJSON` (src/lib/exportManager.ts:266-281) is JSON serialisation with a timestamp.
- **Clocks and randomness.**
  - `Date.now()`, `new Date()` and Python's `datetime.now()` are parameters.
  - Ids built from the clock or `Math.random()` are parameters.
  - The time-window analysis (`smartAnalysis`) and the 10-minute tip timer of src/hooks/useNotifications.tsx:73-369, 400-454 are not modelled; the merge takes the new notifications as input.
  - The 30-second analysis interval of AlertsManager (src/components/features/notifications/AlertsManager.tsx:286-304) is not modelled; `Alerts.Board.RunAnalysis` is one tick.
- **Time zones.**
  - Local time is taken to be UTC, and dates are whole days.
  - Times of day are modelled only where the source compares instants (the financial report's upcoming payments and the PDF report's period, in milliseconds).
- **Floating point and locale formatting.**
  - Amounts are exact reals, not IEEE doubles: rounding error and `parseFloat` of unusual texts are not modelled.
  - Form number inputs hold the number they denote, or `None` when empty, except the custom period length of the upcoming-payments dashboard (see `UpcomingPayments.ComputePeriodData` below).
  - `toFixed` is modelled on exact decimals (`NumFmt`).
  - `toLocaleString`, `Intl.NumberFormat` and `toLocaleDateString` beyond the pt-BR `DD/MM/YYYY` form and the weekday names are not modelled.
- **Unicode.**
  - Lower-casing covers ASCII and the Latin-1 capitals.
  - White space is the seven characters of `Strs.IsSpace`.
  - Python's `\w` is ASCII letters, digits, `_` and the Latin letters up to U+024F. Other scripts are not modelled.
- **OpenAiRoute.SpendingSpec**: states the category ranking and the closing warning, but not the text of the top category's share (a `toFixed(1)` of a quotient).
- **ExportUtils.AdvancedRowFields**: requires that category, description and goal name hold no double quote. The advanced CSV writes these fields between quotes without doubling inner quotes, so a quote inside them breaks the row.
- **Dictionary order.** Integer-like keys of plain objects are not listed first in ascending order, as JavaScript does: `FinanceChart.DataSpec`, the `CategoryChart` totals, `Ledger.ExpenseMap`, `ExportManager.ProblemCategory`, `SpendingInsights.Compared`, and `Alerts.SurgeAlerts` and `Alerts.SurgeAlertsSpec` (which iterate the week's category totals) keep insertion order for every key. Category names and month labels that are integer-like are the only inputs this changes.
- **UTF-16 lengths.** JavaScript counts string length in UTF-16 code units, the model in characters: `MetasProgressAdvanced.ShortNameSpec` and the 103 bound of `IaRoute.Description` differ from the source for text outside the Basic Multilingual Plane (emoji).
- **UpcomingPayments.ComputePeriodData**: the custom period length is a whole number of days. The source stores `Number(e.target.value)` (src/components/features/financial/UpcomingPaymentsDashboard.tsx:303), so a fractional length such as 2.5 (its end then depends on the time of day, and its name reads "Próximos 2.5 Dias"), a NaN length from unparsable input (name "Próximos NaN Dias", no payments) are not modelled; `UpcomingPayments.PeriodOf` takes an `int`. An emptied field gives the length 0 (a period of today alone), not `None`.
- **Calendar.MakeDate**: does not map years 0 to 99 to 1900 to 1999 as `new Date(y, m, d)` does; the app only builds dates from the years of stored dates and of the clock.
- **PdfReport.Generator.GenerateReport**: the report is a list of `Section` values (heading, lines) rather than the final text; the fonts, positions and page breaks of the PDF document are not modelled.
- **ChatRoute.Post**: every message carries a string `content`; a last message without one makes `toLowerCase` throw in the source, which answers 500.
- **ExportRoute.Get**: has no 500 answer. The source answers 500 when the database query or the serialisation throws (src/app/api/export/route.ts:321-324), including when an unparsable custom date makes the query fail; the model's custom dates are days or absent.
- **Older copies** are not modelled, since they only repeat logic modelled in the `features/` versions:
  - src/components/FinancialReport.tsx and src/components/UpcomingPaymentsDashboard.tsx;
  - the ReportsManager statistics;
  - the pages that recompute the same income and expense totals.
- **Flags and frames.** Rendering flags such as `isSubmitting` and loading spinners are not modelled.
- **Out of scope.** The remaining routes (categories, budgets, metas, transactions, achievements, insights, auth) and the achievement, e-mail, PWA, theme, audio and speech code are outside the modelled core.

## Findings

| source | as written | input that shows it | evidently intended | confidence | as-written member | corrected member |
|---|---|---|---|---|---|---|
| src/components/features/analytics/Charts/FinanceFilters.tsx:27-28 | the date tests compare the timestamp text the client holds for `t.date` (`YYYY-MM-DDT00:00:00.000Z`) with the `YYYY-MM-DD` bounds as strings | a transaction dated on the last day of the current month, under the starting bounds, fails `t.date <= dateTo`: the timestamp is longer than the equal day text | compare the day part, so the end day is included and the starting bounds cover the whole month | medium (not executed) | FinanceFilters.LastDayDropped | FinanceFilters.InitialDaySpec |
| src/lib/exportManager.ts:43-50 | the CSV transaction line puts the description and the goal name between double quotes without doubling quotes inside them | a description `x",y` makes the line read back with one field too many | double inner quotes, as RFC 4180, section 2, rule 7 requires and as the server export does | high (not executed) | ExportManager.VerbatimQuoteSplitsField | ExportManager.TransactionLineFields |
