# iPurseLight in Dafny

iPurseLight is a SwiftUI/SwiftData bookkeeping app. It records income and
expense bills, keeps assets whose value grows with simple interest, groups
assets into portfolios, imports bank CSV exports, backs everything up as JSON,
and asks an AI provider (DeepSeek, OpenAI or Gemini) to parse a sentence into a
bill or to comment on a month's spending. This project models the logic under
the views and proves what it promises.

- `common.dfy` (module `Common`) holds the shared vocabulary:
  - `Option` and `Result`;
  - the Foundation string operations the app uses: substring search, `replacingOccurrences(of:with:)`, `trimmingCharacters(in:)`, `components(separatedBy:)` and `joined(separator:)`;
  - the decimal rendering of `Int`.
- `models.dfy` (module `Models`) holds the persisted entities `BillItem`, `AssetItem` and `AssetPortfolio` as classes whose fields other screens update in place.
  - The store (SwiftData's `ModelContext`) is the class `Store`, with one sequence per entity kind. `UUID()` is the store's id counter.
  - The local calendar is an explicit value: date → components, and components → date.
- `valuation.dfy` (module `Valuation`) holds the asset arithmetic: lazy simple interest over a 365-day year, total gain, current value, and daily income.
- `localization.dfy` (module `Localization`) covers the two languages, their persisted raw values, the key-to-English dictionary, and the month, year and report-title formatting.
- `analysis.dfy` (module `Analysis`) covers the analysis screen:
  - the totals, the per-channel charts sorted by amount, and the per-category digest;
  - the text sent to the advisor, and the advice panel;
  - the chart's rule for labelling a slice.
- `bill_view.dfy` (module `BillView`) covers the bill list:
  - the year picker, the month and year views, select-all, bulk delete, and money and channel styling;
  - CSV import: the file-name pattern, row parsing, and insertion.
- `asset_view.dfy` (module `AssetView`) covers the asset screen:
  - the shown assets and their total, and the row badges;
  - the asset form (load, enable rule, save);
  - the portfolio sheet (toggle, create), and deleting a portfolio.
- `transaction_form.dfy` (module `TransactionForm`) is the bill form. It loads a bill, merges the AI's parse result, and saves with the sign taken from the type.
- `backup.dfy` (module `Backup`) holds the transfer objects, export, and restore in its merge and clear forms. It proves the export/restore round trip.
- `quick_action.dfy` (module `QuickAction`) is the hand-off of a dictated sentence from the Shortcuts intent to the add-bill sheet.
- `ai_service.dfy` (module `AIService`) covers both copies of the AI service:
  - the prompts, and routing to a provider with its key, endpoint and model;
  - the key check before any request, the status and reply-shape checks, and the code-fence cleaning of a reply.

  The network, the settings store and the JSON decoder are fields of an `Env` value. Every call returns the requests it sent together with its result.

Throughout the model:
- `Double` is modelled as `real`.
- The Swift field `type` is called `kind`, because `type` is a Dafny keyword.
- `Date()` is an explicit `now`.
- Date parsing, `NumberFormatter` and number rendering are function parameters.
- `parseText` returns whatever the decoder yields. It neither rejects an invalid amount or type nor normalises the type.
- With no bills, the year picker offers the selected year.
- Incomes are summed as they are, without `abs`.

## Model

| member | source | states |
|---|---|---|
| Models.BillItem.constructor | com.lightchan.money20251227/Models.swift:15-23 | A new bill holds exactly the six given fields, under the id it is given |
| Models.BillMonthInRange | com.lightchan.money20251227/Models.swift:25-26 | The derived month of a bill is in 1..12 whenever the calendar's months are |
| Models.BillItem.Year | com.lightchan.money20251227/Models.swift:25 | The year is read from the calendar on every access, so it follows the stored date; the year filter built on it is pinned by `BillView.Yearly` and `BillView.MonthlyWithinYearly` |
| Models.BillItem.Month | com.lightchan.money20251227/Models.swift:26 | The month is read from the calendar on every access and lies in 1..12 under a calendar whose months do |
| Models.AssetItem.constructor | com.lightchan.money20251227/Models.swift:46-55 | A new asset stores name, type, amount, income, rate and note as given (income, rate and note default to 0, 0 and ""), and its principal is dated now |
| Models.FreshAssetWorthPrincipal | com.lightchan.money20251227/Models.swift:46-75 | With the initializer's defaults, an asset has no interest and no gain at creation and is worth its principal |
| Models.AssetItem.DynamicInterest | com.lightchan.money20251227/Models.swift:60-65 | No interest without a positive rate or before the principal's date; never negative on a non-negative principal; once time has passed, exactly the daily income times the elapsed days |
| Models.AssetItem.TotalGain | com.lightchan.money20251227/Models.swift:68-70 | The gain is the recorded income plus the accrued interest, and never below the recorded income on a non-negative principal |
| Models.AssetItem.CurrentValue | com.lightchan.money20251227/Models.swift:73-75 | The value is the principal plus the total gain, never below principal plus recorded income on a non-negative principal, and with no floor otherwise |
| Models.AssetItem.DailyIncome | com.lightchan.money20251227/Models.swift:78-81 | No daily income without a positive rate, and never negative on a non-negative principal |
| Models.AssetPortfolio.constructor | com.lightchan.money20251227/Models.swift:99-104 | A new portfolio stores its name and the given asset list, and is dated now |
| Models.Store.NewId | com.lightchan.money20251227/Models.swift:16 | `UUID()` yields an id that no stored object holds |
| Models.Store.InsertBill | com.moneyapp.ipurse/Bill/BillView.swift:159 | Inserting a bill appends it and changes nothing else; ids stay unique |
| Models.Store.InsertAsset | com.moneyapp.ipurse/AssetView.swift:313-314 | Inserting an asset appends it; ids stay unique |
| Models.Store.InsertPortfolio | com.moneyapp.ipurse/AssetView.swift:354-355 | Inserting a portfolio appends it; ids stay unique |
| Models.Store.DeleteBill | com.moneyapp.ipurse/Bill/BillView.swift:178 | Deleting a bill removes that object and keeps every other bill in order |
| Models.Store.DeletePortfolio | com.moneyapp.ipurse/AssetView.swift:67 | Deleting a portfolio removes only that portfolio; no asset is removed |
| Models.Store.DeleteAllAssets | com.moneyapp.ipurse/Services/BackupService.swift:49 | Deleting every asset leaves none |
| Models.Store.DeleteAllBills | com.moneyapp.ipurse/Services/BackupService.swift:50 | Deleting every bill leaves none |
| Models.InsertRecords | com.moneyapp.ipurse/Services/BackupService.swift:68-78 | One new bill per record is appended after the existing bills, in record order, holding that record's six fields |
| Valuation.Interest | com.lightchan.money20251227/Models.swift:60-65 | Interest is 0 for a rate ≤ 0 or no elapsed time (a future-dated principal included), and never negative for a non-negative principal |
| Valuation.DailyIncome | com.lightchan.money20251227/Models.swift:78-81 | Daily income is 0 for a rate ≤ 0, never negative for a non-negative principal, and at a positive rate 0 exactly for a zero principal |
| Valuation.TotalGain | com.lightchan.money20251227/Models.swift:68-70 | Without a positive rate or elapsed time the gain is just the recorded income; on a non-negative principal it is never below it |
| Valuation.CurrentValue | com.lightchan.money20251227/Models.swift:73-75 | On a non-negative principal the value is never below principal plus recorded income; `CurrentValueWithoutAccrual` pins it when nothing accrues |
| Valuation.InterestIsDailyIncomeTimesDays | com.lightchan.money20251227/Models.swift:60-81 | Once time has passed, accrued interest is the daily income times the elapsed days |
| Valuation.InterestMonotoneInTime | com.lightchan.money20251227/Models.swift:62-64 | For a non-negative principal, interest never decreases as time passes |
| Valuation.InterestMonotoneInRate | com.lightchan.money20251227/Models.swift:61-64 | For a non-negative principal, a higher rate never accrues less |
| Valuation.CurrentValueWithoutAccrual | com.lightchan.money20251227/Models.swift:68-75 | Without accrual, the current value is principal plus recorded income, with no floor (a negative income lowers it) |
| Valuation.CurrentValueMonotoneInTime | com.lightchan.money20251227/Models.swift:68-75 | For a non-negative principal, the current value never decreases over time, whatever the recorded income |
| Valuation.InterestExample | com.lightchan.money20251227/Models.swift:64 | A single-input sanity check of the formula, not a property: 1000 at 3.65 % for 100 days accrues exactly 10. The all-inputs statement is `InterestIsDailyIncomeTimesDays` |
| Localization.FromRawValue | com.lightchan.money20251227/LocalizationManager.swift:4-7 | Only the two raw values "zh-Hans" and "en" name a language |
| Localization.RawValueRoundTrip | com.lightchan.money20251227/LocalizationManager.swift:4-7 | Parsing a language's raw value gives that language back |
| Localization.InitialLanguage | com.lightchan.money20251227/LocalizationManager.swift:14-21 | Start-up picks the saved language only when the saved text is exactly its raw value; otherwise, and with nothing saved, Simplified Chinese |
| Localization.PersistedLanguageRestored | com.lightchan.money20251227/LocalizationManager.swift:10-21 | Choosing a language, which saves its raw value, and relaunching restores that language |
| Localization.T | com.lightchan.money20251227/LocalizationManager.swift:23-25 | Lookup returns the key itself in Chinese; in English it returns the dictionary entry, or the key when there is none |
| Localization.EnMonthsDistinct | com.lightchan.money20251227/LocalizationManager.swift:32 | The twelve English abbreviations are pairwise distinct and none looks like a number |
| Localization.FormatMonth | com.lightchan.money20251227/LocalizationManager.swift:30-35 | "<m>月" in Chinese; in English the abbreviation for 1..12 and the bare number otherwise. `FormatMonthInjective` proves no two months share a label |
| Localization.FormatYear | com.lightchan.money20251227/LocalizationManager.swift:38-40 | "<y>年" in Chinese, the bare number in English. `FormatYearInjective` proves no two years share a label |
| Localization.MonthlyReportTitle | com.lightchan.money20251227/LocalizationManager.swift:43-49 | "<y>年<m>月 报表" or "<y> <month label> Report". `MonthlyReportTitleInjective` proves the title names one (year, month) |
| Localization.YearlyReportTitle | com.lightchan.money20251227/LocalizationManager.swift:52-58 | "<y>全年 汇总报表" or "<y> Annual Report". `YearlyReportTitleInjective` proves the title names one year |
| Localization.FormatMonthInjective | com.lightchan.money20251227/LocalizationManager.swift:30-35 | Different month numbers never get the same label in either language, including numbers outside 1..12, which are rendered bare |
| Localization.FormatYearInjective | com.lightchan.money20251227/LocalizationManager.swift:38-40 | Different years never get the same label |
| Localization.ZhMonthlyTitleInjective | com.lightchan.money20251227/LocalizationManager.swift:44-45 | The Chinese monthly title names exactly one (year, month) |
| Localization.EnMonthlyTitleInjective | com.lightchan.money20251227/LocalizationManager.swift:46-47 | The English monthly title names exactly one (year, month) |
| Localization.MonthlyReportTitleInjective | com.lightchan.money20251227/LocalizationManager.swift:43-49 | A monthly report title identifies its year and month in either language |
| Localization.YearlyReportTitleInjective | com.lightchan.money20251227/LocalizationManager.swift:52-58 | A yearly report title identifies its year in either language |
| Analysis.TotalExpense | com.lightchan.money20251227/AnalysisView.swift:13 | The expense total is never negative |
| Analysis.TotalIncome | com.lightchan.money20251227/AnalysisView.swift:14 | The income total, a sum of the positive amounts only, is never negative; `SumSplitsBySign` and `NetBalance` relate it to the other totals |
| Analysis.TotalsBySign | com.lightchan.money20251227/AnalysisView.swift:13-14 | The expense total is the negated sum of the negative amounts; the income total is never negative |
| Analysis.SumSplitsBySign | com.lightchan.money20251227/AnalysisView.swift:13-14 | The sum of all amounts is the income sum plus the expense sum |
| Analysis.NetBalance | com.lightchan.money20251227/AnalysisView.swift:13-14 | Income total minus expense total is the net of all amounts |
| Analysis.ZeroAmountCountsNowhere | com.lightchan.money20251227/AnalysisView.swift:13-14 | A zero-amount bill changes neither total |
| Analysis.Keys | com.lightchan.money20251227/AnalysisView.swift:18 | The group keys are distinct, and a key is present exactly when some record has it |
| Analysis.Groups | com.lightchan.money20251227/AnalysisView.swift:19 | One entry per key, holding that key's sum (or its magnitude for expenses) |
| Analysis.GroupsSumToTotal | com.lightchan.money20251227/AnalysisView.swift:18-19 | The group sums add up to the sum of all amounts: grouping loses and duplicates nothing |
| Analysis.AbsoluteGroupsOfExpenses | com.lightchan.money20251227/AnalysisView.swift:19 | Over expenses, the magnitudes of the group sums add up to the negated total |
| Analysis.InsertSpec | com.lightchan.money20251227/AnalysisView.swift:19 | Inserting an entry adds exactly that entry, keeps the order non-increasing, and adds its amount to the sum |
| Analysis.SortDescSpec | com.lightchan.money20251227/AnalysisView.swift:19 | Sorting by amount, largest first, permutes the entries into non-increasing order and keeps their sum |
| Analysis.ChannelEntries | com.lightchan.money20251227/AnalysisView.swift:16-26 | A channel has a chart entry exactly when some kept bill uses it |
| Analysis.ExpensesByChannelSpec | com.lightchan.money20251227/AnalysisView.swift:16-20 | The expense chart has one entry per channel used by an expense, each the magnitude of that channel's sum; it is sorted non-increasingly and adds up to the expense total |
| Analysis.ExpensesByChannel | com.lightchan.money20251227/AnalysisView.swift:16-20 | Filter the expenses, group them by channel, take each group's magnitude, sort largest first. `ExpensesByChannelSpec` proves the result is one distinct entry per channel, sorted, summing to the expense total |
| Analysis.IncomeByChannelSpec | com.lightchan.money20251227/AnalysisView.swift:22-26 | The income chart has one entry per channel used by an income, each that channel's sum; it is sorted non-increasingly and adds up to the income total |
| Analysis.IncomeByChannel | com.lightchan.money20251227/AnalysisView.swift:22-26 | Filter the incomes, group them by channel, sum each group, sort largest first. `IncomeByChannelSpec` proves the result is one distinct entry per channel, sorted, summing to the income total |
| Analysis.ExpenseChartNonNegative | com.lightchan.money20251227/AnalysisView.swift:19 | Every expense chart slice is non-negative |
| Analysis.IncomeChartNonNegative | com.lightchan.money20251227/AnalysisView.swift:25 | Every income chart slice is non-negative |
| Analysis.CategoryEntries | com.lightchan.money20251227/AnalysisView.swift:31 | Each digest entry is "category:" followed by the rendered magnitude of that category's expense sum |
| Analysis.ExpensesByCategorySpec | com.lightchan.money20251227/AnalysisView.swift:28-33 | Without expenses the digest is the translated "无支出"; otherwise it is the ", "-join of one entry per distinct expense category |
| Analysis.ExpensesByCategory | com.lightchan.money20251227/AnalysisView.swift:28-33 | The ", "-joined "category:amount" entries of the expenses, or the translated "无支出" when they join to nothing. `ExpensesByCategorySpec` proves which of the two occurs and that each expense category has one entry |
| Analysis.SummaryLines | com.lightchan.money20251227/AnalysisView.swift:109 | Any summary built from four newline-free fields splits on newlines into exactly those four fields behind their labels |
| Analysis.SummaryText | com.lightchan.money20251227/AnalysisView.swift:109 | The four labelled lines joined by line breaks. `SummaryLines` proves they split back into those four lines |
| Analysis.Digest | com.lightchan.money20251227/AnalysisView.swift:109 | The summary of a period: its title, the income total, the expense total and the category digest. `DigestLines` proves it splits back into those four figures |
| Analysis.DigestLines | com.lightchan.money20251227/AnalysisView.swift:109 | The advisor's summary splits back into exactly its four labelled lines: period, income, expense, categories |
| Analysis.AdvicePanel.constructor | com.lightchan.money20251227/AnalysisView.swift:9-10 | The panel starts empty and idle |
| Analysis.AdvicePanel.StartAIAnalysis | com.lightchan.money20251227/AnalysisView.swift:108-126 | The summary goes to the advisor in the interface language; the advice, or on failure the localized "分析失败：" and the error text, fills the panel, which stops analyzing |
| Analysis.LabelledShare | com.lightchan.money20251227/AnalysisView.swift:145 | Every labelled slice holds more than a tenth of a positive total |
| Analysis.NoneLabelledAtZero | com.lightchan.money20251227/AnalysisView.swift:145 | A chart whose slices are all zero labels none of them |
| Analysis.FewerThanTenLabels | com.lightchan.money20251227/AnalysisView.swift:145 | A chart of non-negative slices labels at most nine of them |
| BillView.YearsDesc | com.moneyapp.ipurse/Bill/BillView.swift:23-24 | The distinct years of the bills, strictly descending, each one a bill's year |
| BillView.AvailableYears | com.moneyapp.ipurse/Bill/BillView.swift:22-25 | The picker's years are non-empty and strictly descending: the selected year when there are no bills, otherwise exactly the bills' years |
| BillView.AvailableYearsSingleton | com.moneyapp.ipurse/Bill/BillView.swift:22-25 | The picker offers only the selected year exactly when every bill (possibly none) falls in the selected year |
| BillView.Yearly | com.moneyapp.ipurse/Bill/BillView.swift:31-33 | The year view keeps, in order, exactly the bills of that year |
| BillView.Monthly | com.moneyapp.ipurse/Bill/BillView.swift:27-29 | The month view keeps, in order, exactly the bills of that year and month |
| BillView.MonthlyWithinYearly | com.moneyapp.ipurse/Bill/BillView.swift:27-33 | The month view is the year view narrowed to the month, so it lies within the year view |
| BillView.Selected | com.moneyapp.ipurse/Bill/BillView.swift:177 | The bills to delete are exactly those whose id is selected |
| BillView.WithoutSelection | com.moneyapp.ipurse/Bill/BillView.swift:177-178 | Deleting the selected bills one by one leaves exactly the unselected bills, in order |
| BillView.DeleteBills | com.moneyapp.ipurse/Bill/BillView.swift:178 | The deletion loop removes the given bills and keeps the rest in order |
| BillView.BillViewState.DeleteSelectedItems | com.moneyapp.ipurse/Bill/BillView.swift:176-181 | Every bill whose id is selected is deleted and the rest keep their order; the selection is then empty and edit mode is off |
| BillView.BillViewState.constructor | com.moneyapp.ipurse/Bill/BillView.swift:11-19 | The screen opens on the current year and month, with nothing selected and edit mode off |
| BillView.SelectAllClearsUnrelatedSelection | com.moneyapp.ipurse/Bill/BillView.swift:110 | As written, select-all clears a selection of two other bills when two rows are shown (see Findings) |
| BillView.SelectAll | com.moneyapp.ipurse/Bill/BillView.swift:110 | As written: the result is either empty or exactly the shown ids, and it is the shown ids whenever the selection's size differs from the number of rows. `SelectAllClearsUnrelatedSelection` shows it can clear ids of other rows |
| BillView.SelectAllIntended | com.moneyapp.ipurse/Bill/BillView.swift:110 | The corrected toggle yields either nothing or exactly the shown ids |
| BillView.SelectAllIntendedSpec | com.moneyapp.ipurse/Bill/BillView.swift:110 | The corrected toggle clears exactly when every shown row is already selected, and otherwise selects every shown row |
| BillView.SelectAllAgreesWithinMonth | com.moneyapp.ipurse/Bill/BillView.swift:110 | When the selection holds only ids of shown rows, the size test as written is the corrected test |
| BillView.BillViewState.ToggleSelectAll | com.moneyapp.ipurse/Bill/BillView.swift:110 | The select-all button as written: the new selection is `SelectAll` of the old one over the ids of the month's rows, so a selection as large as the month is cleared whatever ids it holds |
| BillView.BillViewState.ToggleSelectAllIntended | com.moneyapp.ipurse/Bill/BillView.swift:110 | The corrected button: the new selection is `SelectAllIntended` of the old one over the ids of the month's rows |
| BillView.BillViewState.Done | com.moneyapp.ipurse/Bill/BillView.swift:118 | "完成" leaves edit mode and empties the selection |
| BillView.FormatMoneySign | com.moneyapp.ipurse/Bill/BillView.swift:183-186 | The money text starts with "+" exactly for a positive amount |
| BillView.FormatMoney | com.moneyapp.ipurse/Bill/BillView.swift:183-186 | A positive amount's text starts with "+"; `FormatMoneySign` gives the converse when the number text has no "+" of its own |
| BillView.ChannelColorSpec | com.moneyapp.ipurse/Bill/BillView.swift:188-192 | Green exactly when the channel mentions "微信"; blue exactly when it mentions "支付宝" but not "微信"; red otherwise |
| BillView.ChannelColor | com.moneyapp.ipurse/Bill/BillView.swift:188-192 | Green for a channel mentioning "微信", else blue for one mentioning "支付宝", else red. `ChannelColorSpec` proves each colour's exact condition |
| BillView.FormChannelColors | com.moneyapp.ipurse/Bill/BillView.swift:188-192 | Of the form's five channels, WeChat is green, Alipay blue, and the other three red |
| BillView.FirstParse | com.moneyapp.ipurse/Bill/BillView.swift:252 | The date is absent exactly when no format parses; otherwise it comes from the first format that parses |
| BillView.ParseFirstDate | com.moneyapp.ipurse/Bill/BillView.swift:252 | The format loop returns the first format's successful parse, in the listed order |
| BillView.OverrideSpec | com.moneyapp.ipurse/Bill/BillView.swift:254-258 | Without both a fixed year and month the date is kept; with both, a date the calendar can rebuild moves to that year and month and keeps its day, hour and minute |
| BillView.Override | com.moneyapp.ipurse/Bill/BillView.swift:254-258 | The parsed date moved to the fixed year and month when both are given and the calendar can rebuild the date, otherwise kept. `OverrideSpec` proves both cases |
| BillView.ParseRows | com.moneyapp.ipurse/Bill/BillView.swift:247-264 | At most one record per data row |
| BillView.ParsedCSVBound | com.moneyapp.ipurse/Bill/BillView.swift:242-249 | The import yields at most one record per line after the header |
| BillView.ParsedCSV | com.moneyapp.ipurse/Bill/BillView.swift:240-266 | The rows after the first line, each parsed in order. `ParsedCSVBound` and `HeaderDropped` prove its bound and that the first line never yields a record |
| BillView.HeaderDropped | com.moneyapp.ipurse/Bill/BillView.swift:242-243 | The first line is dropped whatever it holds |
| BillView.ParseRowSpec | com.moneyapp.ipurse/Bill/BillView.swift:248-261 | A row gives a record only with at least six columns and a parseable date. The record has the (possibly overridden) parsed date, type, category and channel verbatim, the note column with its quotes removed, and the parsed cleaned amount, or 0 when it does not parse |
| BillView.ParseRow | com.moneyapp.ipurse/Bill/BillView.swift:248-261 | One CSV row as `parseCSV`'s loop body reads it. `ParseRowSpec` proves when it gives a record and what the record holds |
| BillView.AmountCommaRemovalIsNoop | com.moneyapp.ipurse/Bill/BillView.swift:259 | Removing commas from the amount column changes nothing, because the row was already cut at every comma |
| BillView.ParseCSVRow | com.moneyapp.ipurse/Bill/BillView.swift:248-261 | The loop body turns one row into exactly the record (or nothing) that the row specification ParseRow gives, whose properties ParseRowSpec states |
| BillView.ParseCSV | com.moneyapp.ipurse/Bill/BillView.swift:240-266 | The parsing loop returns exactly the records of the data rows, in row order |
| BillView.LetterRun | com.moneyapp.ipurse/Bill/BillView.swift:205 | The leading run of ASCII letters is maximal |
| BillView.MatchHere | com.moneyapp.ipurse/Bill/BillView.swift:205 | A match yields a non-empty month name and four digits |
| BillView.FirstMatch | com.moneyapp.ipurse/Bill/BillView.swift:207-208 | The leftmost match, if any, yields a non-empty month name and four digits |
| BillView.FileNameRoundTrip | com.moneyapp.ipurse/Bill/BillView.swift:205-215 | A file name that starts with "PersonalBill-", a month name, "." and four digits yields exactly that month name and those digits |
| BillView.FileOverrides | com.moneyapp.ipurse/Bill/BillView.swift:205-228 | The year and month a "PersonalBill-<month name>.<year>" file name fixes. `FileNameRoundTrip` proves such a name yields exactly its letters and four digits |
| BillView.BillViewState.ImportCSV | com.moneyapp.ipurse/Bill/BillView.swift:195-238 | Without access or readable text nothing changes. Otherwise one new bill per parsed row is appended, and the screen moves to the file's period when the name fixes both year and month |
| AssetView.TotalConcat | com.moneyapp.ipurse/AssetView.swift:117 | The total of two lists is the sum of their totals |
| AssetView.Total | com.moneyapp.ipurse/AssetView.swift:117 | The sum of the current values, 0 for no assets. `TotalConcat`, `TotalMonotoneInTime` and `TotalWithoutRates` state its properties |
| AssetView.TotalMonotoneInTime | com.moneyapp.ipurse/AssetView.swift:117 | With non-negative principals, the shown total never decreases over time |
| AssetView.TotalWithoutRates | com.moneyapp.ipurse/AssetView.swift:117 | Without positive rates, the total is principal plus recorded income at any time |
| AssetView.RowBadges | com.moneyapp.ipurse/AssetView.swift:179-200 | A hidden daily-income badge hides no income, and a positive principal at a positive rate shows one. An asset with non-negative recorded income shows its gain once anything has accrued |
| AssetView.ShowsDailyIncome | com.moneyapp.ipurse/AssetView.swift:179 | The daily-income badge rule: a positive rate. `RowBadges` relates it to the daily income |
| AssetView.ShowsGain | com.moneyapp.ipurse/AssetView.swift:200 | The gain line rule: a positive total gain. `RowBadges` relates it to recorded and accrued income |
| AssetView.Shown | com.moneyapp.ipurse/AssetView.swift:293-294 | A stored rate or income is shown as an empty field exactly when it is 0 |
| AssetView.Stored | com.moneyapp.ipurse/AssetView.swift:301-303 | An empty field is stored as 0, and a filled one as its value |
| AssetView.ShownStoredRoundTrip | com.moneyapp.ipurse/AssetView.swift:288-303 | Showing a stored value and saving it again gives the value back |
| AssetView.AssetForm.constructor | com.moneyapp.ipurse/AssetView.swift:218-225 | A fresh form has an empty name, type "银行存款", and every number field empty |
| AssetView.AssetForm.OnAppear | com.moneyapp.ipurse/AssetView.swift:287-296 | An edited asset's name, type and amount are loaded, with a zero rate or income shown as empty. Save is then enabled exactly when the name is non-empty |
| AssetView.AssetForm.SaveDisabled | com.moneyapp.ipurse/AssetView.swift:284 | Save is disabled without a name or an amount. `AssetForm.OnAppear` proves it is enabled after loading exactly when the loaded name is non-empty |
| AssetView.AssetForm.Save | com.moneyapp.ipurse/AssetView.swift:300-317 | Empty fields count as 0. Editing overwrites the edited asset's fields and restarts its accrual now; a new asset with note "" is appended to the store |
| AssetView.LoadThenSave | com.moneyapp.ipurse/AssetView.swift:287-317 | Opening an asset and saving without edits keeps every stored field except the update date, and the asset is then worth principal plus income |
| AssetView.ToggleId | com.moneyapp.ipurse/AssetView.swift:343-346 | A tap adds the id when absent and removes it when present; other ids are unaffected |
| AssetView.ToggleTwice | com.moneyapp.ipurse/AssetView.swift:343-346 | Tapping the same row twice restores the selection |
| AssetView.SelectedAssets | com.moneyapp.ipurse/AssetView.swift:353 | The ticked assets are exactly those whose id is ticked, in list order |
| AssetView.PortfolioForm.constructor | com.moneyapp.ipurse/AssetView.swift:326-328 | The sheet starts with an empty name and nothing ticked |
| AssetView.PortfolioForm.Toggle | com.moneyapp.ipurse/AssetView.swift:343-346 | A tap toggles that asset's id in the ticked set |
| AssetView.PortfolioForm.Create | com.moneyapp.ipurse/AssetView.swift:352-356 | "创建" appends a new portfolio holding exactly the ticked assets, in list order, dated now; no asset changes |
| AssetView.PortfolioForm.CreateDisabled | com.moneyapp.ipurse/AssetView.swift:357 | Create is disabled without a name or without a ticked asset |
| AssetView.ShowsCreatedPortfolio | com.moneyapp.ipurse/AssetView.swift:17-23 | With a new portfolio selected, the screen shows exactly its ticked assets, in list order |
| AssetView.CurrentAssets | com.moneyapp.ipurse/AssetView.swift:17-23 | The selected portfolio's assets, none when it has no list, or every asset without a selection. `ShowsCreatedPortfolio` proves a new portfolio shows exactly its ticked assets |
| AssetView.AssetScreen.constructor | com.moneyapp.ipurse/AssetView.swift:14 | The screen starts on the all-assets card |
| AssetView.AssetScreen.DeleteSelectedPortfolio | com.moneyapp.ipurse/AssetView.swift:65-68 | "删除该汇总" removes only the selected portfolio, keeps every asset, and returns to the all-assets card |
| TransactionForm.SignedAmount | com.moneyapp.ipurse/TransactionFormView.swift:135 | The saved amount has the typed magnitude: ≤ 0 for "支出" and ≥ 0 for any other type |
| TransactionForm.EditKeepsAmount | com.moneyapp.ipurse/TransactionFormView.swift:102-135 | Loading the magnitude and saving it unchanged gives back the stored amount exactly when the stored sign agrees with the type |
| TransactionForm.MergeChannel | com.moneyapp.ipurse/TransactionFormView.swift:122 | The proposed channel is taken when it is one of the five choices; otherwise the current one is kept |
| TransactionForm.MergeChannelStaysChoice | com.moneyapp.ipurse/TransactionFormView.swift:24-122 | Whatever the AI proposes, the channel remains one of the five choices |
| TransactionForm.TransactionForm.constructor | com.moneyapp.ipurse/TransactionFormView.swift:12-21 | A new form holds an expense paid with WeChat, dated now, with every other field empty and no analysis running |
| TransactionForm.TransactionForm.OnAppear | com.moneyapp.ipurse/TransactionFormView.swift:98-107 | An edited bill's fields are loaded, its amount as a magnitude; a new form is untouched |
| TransactionForm.TransactionForm.SaveDisabled | com.moneyapp.ipurse/TransactionFormView.swift:95 | Save is disabled without a category or with a zero amount |
| TransactionForm.TransactionForm.AnalyzeDisabled | com.moneyapp.ipurse/TransactionFormView.swift:43 | The magic-wand button is disabled without input or while a request runs; `AnalyzeText` proves an empty input sends nothing |
| TransactionForm.TransactionForm.AnalyzeText | com.moneyapp.ipurse/TransactionFormView.swift:111-132 | Empty input sends nothing and changes nothing. Otherwise success overwrites amount, category, type and note, and takes the channel only from the five choices; failure changes only the note, to "识别失败：" and the error. The form then stops analyzing |
| TransactionForm.TransactionForm.Complete | com.moneyapp.ipurse/TransactionFormView.swift:117-129 | The completion handler applies the success merge or the failure note, and clears the analyzing flag |
| TransactionForm.TransactionForm.Save | com.moneyapp.ipurse/TransactionFormView.swift:134-149 | The saved bill holds the form's fields with the type-signed amount. An edit writes into the same object and leaves the store alone; a new bill gets a new id and is appended |
| TransactionForm.LoadThenSave | com.moneyapp.ipurse/TransactionFormView.swift:98-149 | Opening a bill and saving at once keeps every field, except that the amount takes the sign its type calls for |
| Backup.BillDTOAgreement | com.moneyapp.ipurse/Models/BackupModels.swift:41-48 | A bill and its transfer object agree exactly on the six stored fields |
| Backup.BillDTOFrom | com.moneyapp.ipurse/Models/BackupModels.swift:41-48 | The transfer object copies the bill's six stored fields. `BillDTOAgreement` proves a bill and a transfer object agree exactly when they hold the same six fields |
| Backup.AssetDTOValuation | com.moneyapp.ipurse/Models/BackupModels.swift:21-29 | The transfer object's fields value the asset (current value and total gain) exactly as the asset does at any moment |
| Backup.AssetDTOFrom | com.moneyapp.ipurse/Models/BackupModels.swift:21-29 | The transfer object copies the asset's seven stored fields. `AssetDTOValuation` proves it values the asset as the asset does |
| Backup.AssetDTOs | com.moneyapp.ipurse/Services/BackupService.swift:21 | One transfer object per asset, in order |
| Backup.BillDTOs | com.moneyapp.ipurse/Services/BackupService.swift:22 | One transfer object per bill, in order |
| Backup.Records | com.moneyapp.ipurse/Services/BackupService.swift:69-76 | One bill record per transfer object, in order |
| Backup.Export | com.moneyapp.ipurse/Services/BackupService.swift:15-23 | The backup has version "1.0", is dated now, and maps every stored asset and bill 1:1, in fetch order |
| Backup.InsertAssets | com.moneyapp.ipurse/Services/BackupService.swift:54-65 | One new asset per transfer object is appended, in order, holding the object's fields, including its update date |
| Backup.Restore | com.moneyapp.ipurse/Services/BackupService.swift:39-81 | A decode failure changes nothing. Otherwise restore clears the store when asked and then appends one new asset and one new bill per transfer object; portfolios stay |
| Backup.RestoredExport | com.moneyapp.ipurse/Services/BackupService.swift:48-78 | After a clearing restore, exporting gives back exactly the restored transfer objects |
| Backup.SameDTOsSameValue | com.moneyapp.ipurse/Models/BackupModels.swift:21-29 | Assets with equal transfer objects have equal current value at every moment |
| Backup.ExportRestoreRoundTrip | com.moneyapp.ipurse/Services/BackupService.swift:11-81 | A store restored, with clearing, from another store's backup exports the same backup, and every asset keeps its current value |
| Backup.RestoreTwice | com.moneyapp.ipurse/Services/BackupService.swift:54-78 | Merging the same backup twice appends every asset and bill twice, as distinct objects with equal fields |
| QuickAction.QuickActionManager.constructor | com.moneyapp.ipurse/App/QuickActionManager.swift:10-15 | Nothing is pending and no sheet is requested |
| QuickAction.QuickActionManager.HandleIncomingText | com.moneyapp.ipurse/App/QuickActionManager.swift:19-23 | The newest sentence becomes the pending one, and the sheet is requested |
| QuickAction.QuickActionManager.ConsumePendingText | com.moneyapp.ipurse/App/QuickActionManager.swift:26-30 | Consuming returns the pending sentence and clears it; the sheet flag is untouched |
| QuickAction.ConsumeOnce | com.moneyapp.ipurse/App/QuickActionManager.swift:19-30 | A handed-in sentence is returned by the first consume and not by the second, and the sheet request survives both |
| QuickAction.LastWriteWins | com.moneyapp.ipurse/App/QuickActionManager.swift:19-30 | Of two sentences handed in before a consume, the later one is taken |
| AIService.AnalysisPromptSpec | com.moneyapp.ipurse/Services/AIService.swift:56-67 | The advisor prompt quotes the summary verbatim, and the prompt determines both the language and the summary |
| AIService.AnalysisPrompt | com.moneyapp.ipurse/Services/AIService.swift:56-67 | The summary occurs verbatim in the prompt of either language. `AnalysisPromptSpec` adds that the prompt determines the language and the summary |
| AIService.ParsePrompt | com.moneyapp.ipurse/Services/AIService.swift:19-50 | The task header, the sentence, then the extraction rules. `ParsePromptsSpec` proves the sentence occurs verbatim and the rules name "微信" as the default channel |
| AIService.ParsePromptsSpec | com.moneyapp.ipurse/AIService.swift:17-24 | Both versions of the parse prompt (the older one and Services/AIService.swift:19-50) quote the sentence verbatim and name "微信" as the default channel |
| AIService.RouteFor | com.moneyapp.ipurse/Services/AIService.swift:71-76 | Exactly "Gemini" routes to Gemini; every other name routes to the OpenAI-compatible call |
| AIService.ConfigurationConsistent | com.moneyapp.ipurse/Services/AIService.swift:95-103 | Key, endpoint and model are DeepSeek's exactly for "DeepSeek", and OpenAI's for every other name; the Gemini key is never used there |
| AIService.GeminiUrl | com.moneyapp.ipurse/Services/AIService.swift:143 | The Gemini URL is the fixed base followed by the key verbatim |
| AIService.Exchange | com.moneyapp.ipurse/Services/AIService.swift:119-133 | One request is sent. A transport failure propagates; a status other than 200 fails with badServerResponse; otherwise the extracted text, or the given shape error |
| AIService.OpenAICallSpec | com.moneyapp.ipurse/Services/AIService.swift:94-134 | At most one request, none with an empty key. It goes to the provider's endpoint with the key as bearer token, the model and the prompt |
| AIService.GeminiCallSpec | com.moneyapp.ipurse/Services/AIService.swift:137-170 | At most one request, none with an empty key. It goes to the URL that carries the key, with the prompt as the single part |
| AIService.CallOpenAICompatible | com.moneyapp.ipurse/Services/AIService.swift:94-134 | Check the key, build the request, send it and read choices[0].message.content. `OpenAICallSpec`, `KeyCheckedBeforeRequest` and `StatusChecked` state its contract |
| AIService.CallGemini | com.moneyapp.ipurse/Services/AIService.swift:137-170 | Check the key, build the URL and body, send them and read candidates[0].content.parts[0].text. `GeminiCallSpec`, `KeyCheckedBeforeRequest` and `StatusChecked` state its contract |
| AIService.Call | com.moneyapp.ipurse/Services/AIService.swift:71-76 | Gemini for exactly "Gemini", the OpenAI-style call otherwise. `RequestRouted` proves the request goes where the provider says |
| AIService.OpenAIBodySpec | com.moneyapp.ipurse/Services/AIService.swift:112-116 | The request body names the model and carries the prompt as the user message |
| AIService.KeyCheckedBeforeRequest | com.moneyapp.ipurse/Services/AIService.swift:95-100 | A key that is empty after trimming fails with userAuthenticationRequired before any request; a request is sent only with a key |
| AIService.RequestRouted | com.moneyapp.ipurse/AIService.swift:42-53 | The one request goes where the provider says: the Gemini URL with the key, or the provider's endpoint with bearer key and model |
| AIService.StatusChecked | com.moneyapp.ipurse/Services/AIService.swift:122-133 | Any status other than 200 fails. With 200, a call succeeds exactly when the reply has the expected shape, and it returns the extracted text |
| AIService.OpenAIShapeExamples | com.moneyapp.ipurse/Services/AIService.swift:128-133 | Single-input sanity checks of the reply walk, not properties: choices[0].message.content is accepted, and an empty choices list or a list holding a non-object is refused. The all-inputs statement is `StatusChecked` |
| AIService.GeminiShapeExample | com.moneyapp.ipurse/Services/AIService.swift:163-169 | A single-input sanity check of the reply walk, not a property: candidates[0].content.parts[0].text is accepted. The all-inputs statement is `StatusChecked` |
| AIService.FenceRemovalLeavesNone | com.moneyapp.ipurse/AIService.swift:54-55 | After every "```" is removed, no "```" remains |
| AIService.CleanSpec | com.moneyapp.ipurse/Services/AIService.swift:83-85 | The cleaned reply has no code fence and no surrounding whitespace or newline, and cleaning is idempotent |
| AIService.Clean | com.moneyapp.ipurse/Services/AIService.swift:83-85 | The cleaned reply contains no "```"; `CleanSpec` adds that its ends are trimmed and that cleaning is idempotent |
| AIService.FailureNote | com.moneyapp.ipurse/TransactionFormView.swift:127 | The failure text is the localized headline, a full-width colon, and exactly the error's description |
| AIService.ParseAndClean | com.moneyapp.ipurse/Services/AIService.swift:81-91 | Call errors propagate unchanged. Otherwise the result is whatever the decoder makes of the cleaned reply, and the requests are the call's |
| AIService.ParseText | com.moneyapp.ipurse/Services/AIService.swift:17-52 | The current parse prompt sent through `ParseAndClean`, whose contract gives the outcome |
| AIService.LegacyParseText | com.moneyapp.ipurse/AIService.swift:17-24 | The older parse prompt sent through `ParseAndClean`, whose contract gives the outcome |
| AIService.AnalyzeFinancialData | com.moneyapp.ipurse/Services/AIService.swift:55-77 | The analysis is one call with the language's prompt to the provider's service |
| AIService.AnalysisRequestCarriesPrompt | com.moneyapp.ipurse/AIService.swift:26-48 | The advice request carries the chosen language's prompt, in the body format of the chosen service |

## Left out

- SwiftUI bodies, layout, charts, sheets, navigation and the settings, backup and debug screens are not modelled. Neither is the Shortcuts intent, which only calls `handleIncomingText`.
- Async work (`Task`, `MainActor.run`, `DispatchQueue.asyncAfter`) is modelled as completed within the call.
  - `AnalyzeText` and `StartAIAnalysis` ensure the state after the completion handler.
  - `ImportCSV` moves to the file's period at once, not 0.5 s later.
  - `refreshSelection` after a save is not modelled.
- The HTTP traffic, `JSONSerialization` and `JSONDecoder` are parts of `Env`:
  - `send` returns a failure, or a status and the body as a JSON tree;
  - `decode` is an uninterpreted partial function;
  - `urlValid` stands for `URL(string:)`.

  What the model providers answer is not modelled. The UTF-8 conversion of the cleaned reply, which cannot fail for a Swift string, is not modelled. Neither are the debug `print`s.
- `UserDefaults` and `@AppStorage` are not modelled. The selected provider and the stored keys are inputs, and the language's `didSet` persistence is represented by its raw value (`PersistedLanguageRestored`).
- SwiftData is modelled by `Store`, with one sequence per kind in fetch order:
  - `@Query` sorting is taken as the given order;
  - `context.save()` and the inverse portfolio/asset relationship maintenance are not modelled;
  - `UUID()` is a counter.
- `DateFormatter`, `Calendar.current`, the "MMM" month-name formatter, `Double(_:)` and `NumberFormatter` are function parameters.
  - The regular expression `PersonalBill-([A-Za-z]+)\.(\d{4})` is written out by hand. `\d` is taken as ASCII digits, whereas ICU also accepts other Unicode digits.
- Floating point is not modelled: amounts are reals, and rounding, `%.2f` formatting, infinities and NaN are left out, except that the label rule treats a zero total as giving an infinite share for a positive amount.
- `Dictionary(grouping:)` order is not modelled as unspecified. Groups are listed in first-occurrence order, which is one order the app may produce. Sorting is stable, so ties keep that order.
- `AssetItem.color` is not modelled: it depends on the per-process `hashValue`.
- `localizedType` is not modelled separately: it is `Localization.T` applied to the type.
- The contents of the English dictionary are data, used only through `T`.
- The asset form's delete button (com.moneyapp.ipurse/AssetView.swift:272-276) is not modelled, and neither is `AssetAIAnalysisView.startAnalysis` (com.moneyapp.ipurse/AssetView.swift:395-414). Both are outside the modelled screens' logic.
- The backup's JSON encoding, ISO 8601 dates, file reading, security-scoped access and temp-file naming are not modelled. `Restore` receives the decoded container, or None when decoding fails.
  - Backup.ExportRestoreRoundTrip is a statement about the decoded container. The `.iso8601` strategy (com.moneyapp.ipurse/Services/BackupService.swift:26, 45) keeps whole seconds only. A round trip through a file therefore restores `date` and `updateDate` only to the second, and an asset's accrued value can change by that fraction of a day.
- `parseCSV` returns the six fields of each row as records. The bills are created with new ids when they are inserted (`InsertRecords`), which is where the app hands them to the store.
- AIService.LegacyParseText: the older `parseText` differs from the current one only in its prompt. It shares `ParseAndClean`, so it has no lemma of its own beyond `ParsePromptsSpec`.
- The enable rules of the forms' buttons (`SaveDisabled`, `AnalyzeDisabled`, `CreateDisabled`) are predicates whose bodies are the rules. The asset and bill forms' `OnAppear` contracts say when save is enabled after loading.

## Findings

| source | as written | input that shows it | evidently intended | confidence | as-written member | corrected member |
|---|---|---|---|---|---|---|
| com.moneyapp.ipurse/Bill/BillView.swift:110 | Select-all clears the selection whenever the number of selected ids equals the number of rows shown, without checking which ids they are | Bills 1 and 2 of March are selected and the month is switched to April, which shows bills 3 and 4; tapping "全选" then clears the selection instead of selecting 3 and 4 | Clear only when every shown row is already selected; otherwise select every shown row | medium, not executed | BillView.SelectAllClearsUnrelatedSelection | BillView.SelectAllIntended |
