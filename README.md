# Finance Manager, modelled in Dafny

Finance Manager is a personal-finance application. A FastAPI backend keeps transactions, credit
cards, savings investments and salaries in a database. On startup it posts the month's salaries and
applies recurring investments. It computes monthly and yearly analytics, insights, credit-card
utilisation and a savings-versus-investments comparison. A React client holds the lists in hooks,
renders tables, tiles and charts, and collects new records through forms.

This project models both halves and proves what each promises.

- The backend's store is a `Crud.Table` class per table. Its rows are a `seq` the methods
  reassign. Create, update and delete are proved against `Records.ReplaceById`,
  `Records.RemoveById` and `Records.FindById`.
- The startup passes in `auto_increment.py` and `process_recurring_investments` are loops. They are
  methods proved against pass functions (`AutoIncrement.SalaryPass`, `AutoIncrement.AutoPass`,
  `Crud.CrudPass`). The daily pass stores its result only when it counted a row, as its conditional
  commit does. Lemmas about those functions state idempotence, the counts and how the two
  recurring rules differ.
- The analytics (`calculate_monthly_summary`, the yearly summary, the category distribution,
  insights, card utilisation, savings comparison) are methods over loops or pure functions, with
  lemmas about category maps, sorting and sums.
- Each client hook is a class whose fields are the hook's state. The server's reply is a
  parameter (`Reply<T>`), and a rethrow is a returned `Rejected` outcome.
- The forms and the salary page are classes whose `formData` field is reassigned by their handlers.
  A submit does anything only while every `required` field is filled in, as the browser's
  constraint check enforces.
- The views, the dashboard and the API configuration are pure functions.

Money is `real`, so there is no rounding. Dates are `Dates.Date` values, and only valid calendar
dates (`CalendarDate`) are stored. The clock ("today"), the server's replies and the confirm
dialog's answer are parameters. JavaScript numbers that can become `NaN` or infinite are
`JsValues.JsNumber`.

## Model

| member | source | states |
|---|---|---|
| Dates.DaysInMonth | backend/app/crud.py:30-34 | a month has 28..31 days, and February has 29 exactly in leap years (the calendar `date` checks against) |
| Dates.MakeDate | backend/app/utils/analytics.py:250 | `date(y, m, d)` succeeds exactly for a year in 1..9999 (`MINYEAR`..`MAXYEAR`), a month in 1..12 and a day within that month, and then gives that date |
| Dates.PreviousMonth | backend/app/utils/analytics.py:252 | the month before, with January going to December of the year before: one step down the month index |
| Dates.NextMonth | backend/app/crud.py:31-34 | the month after, with December rolling to January of year + 1: one step up the month index |
| Dates.MonthStepsUndo | frontend/src/pages/TransactionsPage.tsx:12-28 | next after previous, and previous after next, give back the original (year, month) |
| Dates.AddMonths | backend/app/crud.py:181 | `+ relativedelta(months=n)` gives a valid date n months on, with the day kept or clipped to the month's last day |
| Dates.AddYears | backend/app/crud.py:184 | `+ relativedelta(years=n)` keeps month and day, except that 29 February becomes 28 February in a common year |
| Dates.AddOneMonthIsLater | backend/app/crud.py:181-182 | a month after any valid date is strictly later |
| Dates.AddOneYearIsLater | backend/app/crud.py:184-185 | a year after any valid date is strictly later |
| Records.CountId | backend/app/crud.py:18-20 | the number of records with an id is 0 exactly when no record has it |
| Records.FindById | backend/app/crud.py:18-20 | `.filter(id == x).first()` finds a record iff one has that id, and it is a stored record with that id |
| Records.ReplaceById | frontend/src/hooks/useTransactions.ts:43 | `map(t => t.id === id ? new : t)`: same length, matching ids replaced, every other entry kept in place |
| Records.RemoveById | frontend/src/hooks/useTransactions.ts:55 | `filter(t => t.id !== id)`: exactly the records without that id remain, the id is gone, the length drops by the count of matches |
| Records.RemoveByIdAppend | frontend/src/hooks/useTransactions.ts:55 | filtering distributes over concatenation, so relative order is kept |
| Records.RemoveAbsentId | backend/app/crud.py:61-68 | deleting an absent id leaves the list as it was |
| Records.ReplaceAbsentId | backend/app/crud.py:50-58 | replacing an absent id leaves the list as it was |
| Records.ReplaceKeepsUniqueIds | frontend/src/hooks/useTransactions.ts:43 | replacing by a record with the same id keeps ids unique, and the id then finds the new record |
| Records.FindInUnique | backend/app/crud.py:20 | with unique ids, the first match is the record at that id's position |
| Records.RemoveKeepsUniqueIds | frontend/src/hooks/useTransactions.ts:55 | removing the records with an id keeps the remaining ids unique |
| Records.CountIdUnique | backend/app/crud.py:61-68 | with unique ids, a present id occurs exactly once |
| Records.Filter | backend/app/crud.py:36-39 | a query filter keeps exactly the records satisfying the predicate |
| Records.FilterAppend | backend/app/crud.py:36-39 | filtering distributes over concatenation, so the records keep their order and repetitions |
| Sums.SumAppend | backend/app/utils/analytics.py:9-10 | a sum over a concatenation is the sum of the parts' sums |
| Sums.SumDifference | backend/app/utils/analytics.py:316 | the sum of pointwise differences is the difference of the sums |
| Sums.SumAddition | backend/app/utils/analytics.py:136-138 | the sum of pointwise sums is the sum of the sums |
| Sums.SumOfZeros | backend/app/utils/analytics.py:13 | a sum of zeros is zero |
| Sums.SumPermutation | backend/app/utils/analytics.py:184 | reordering the items does not change the sum |
| Sums.SumPointwise | frontend/src/components/CategoryPieChart.tsx:25-31 | two sequences that agree item by item have the same sum |
| Categories.AddTo | backend/app/utils/analytics.py:45 | `map[k] = map.get(k, 0) + v` raises the map's total by v |
| Categories.AddToMeaning | backend/app/utils/analytics.py:45 | after adding, keys stay distinct, k is a key, and k's amount rises by v while the other amounts are unchanged |
| Categories.Put | backend/app/utils/analytics.py:49 | `map[k] = v` adds an entry only when k is new |
| Categories.PutMeaning | backend/app/utils/analytics.py:48-49 | after `map[k] = v`, k's amount is v, the other amounts are unchanged, and the total changes by v minus the old amount |
| Categories.AbsentGetsZero | backend/app/utils/analytics.py:45 | `.get(k, 0)` of an absent key is 0 |
| Categories.InsertDesc | backend/app/utils/analytics.py:52 | inserting into a descending list keeps it descending and adds exactly that entry |
| Categories.SortDesc | backend/app/utils/analytics.py:52 | `sorted(items, key=amount, reverse=True)` is non-increasing by amount and a permutation of its input |
| Categories.InsertKeys | backend/app/utils/analytics.py:52 | inserting an entry adds exactly its name to the keys |
| Categories.InsertKeepsDistinct | backend/app/utils/analytics.py:52 | inserting an entry with a new name into a map with distinct keys keeps them distinct |
| Categories.SortKeepsDistinct | backend/app/utils/analytics.py:52 | sorting a dict's items keeps its keys distinct |
| Categories.GetIsSumOfOnly | backend/app/utils/analytics.py:45 | with distinct keys, `.get(k, 0)` is the total of the entries named k |
| Categories.SortKeepsAmounts | backend/app/utils/analytics.py:52 | sorting keeps every key's amount |
| Categories.InsertIsStable | backend/app/utils/analytics.py:52 | an inserted entry goes after every entry of equal amount |
| Categories.SortIsStable | backend/app/utils/analytics.py:52 | `sorted` is stable: for every amount, the entries with that amount keep their input order |
| Categories.SortKeepsKeys | backend/app/utils/analytics.py:52 | sorting keeps exactly the same category names |
| Categories.SortKeepsTotal | backend/app/utils/analytics.py:52 | sorting keeps the total |
| Categories.PermutationKeepsTotal | backend/app/utils/analytics.py:179 | any permutation keeps the total |
| Categories.TotalIsSum | backend/app/utils/analytics.py:184 | the map's total is the sum of its amounts |
| Categories.TotalExceptMeaning | backend/app/utils/analytics.py:184 | the total over names other than k is the total less k's amount |
| Categories.PutKeepsTotalExcept | backend/app/utils/analytics.py:48-49 | setting k does not change the total over the other names |
| Categories.PermutationKeepsTotalExcept | backend/app/utils/analytics.py:179-184 | a permutation keeps the total over the names other than k |
| Analytics.CalculateMonthlySummary | backend/app/utils/analytics.py:7-63 | the loops compute the summary: income and expense sums, the month's investments, and the sorted category list with "Investments" |
| Analytics.AddUpInvestments | backend/app/utils/analytics.py:13-39 | the loop adds each investment's contribution for (year, month): monthly plans from their purchase month, one-off purchases in their month, yearly plans one twelfth under the nested conditions |
| Analytics.ExpenseCategoryMap | backend/app/utils/analytics.py:42-45 | the loop builds the category map of the expense transactions |
| Analytics.CategoryTotalsMeaning | backend/app/utils/analytics.py:42-45 | the map's keys are exactly the categories of expense transactions, each amount is that category's expense sum, and the total is the expense total |
| Analytics.TopCategories | backend/app/utils/analytics.py:42-55 | `top_categories` is sorted non-increasing and is a permutation of the category map; "Investments" is a key iff an expense has it or investments > 0, and when investments > 0 its entry is the investments total, replacing an expense category of that name |
| Analytics.NoContextNoInvestments | backend/app/utils/analytics.py:14 | without a database, year and month, investments are 0 and savings are income minus expense |
| Analytics.OneOffCountedOnce | backend/app/utils/analytics.py:37-39 | over months 1..n of a year, a one-off purchase is counted once, in its purchase month |
| Analytics.MonthlyPlanEveryMonth | backend/app/utils/analytics.py:22-25 | a monthly plan bought in an earlier year adds its amount (0 if null) in each of months 1..n |
| Analytics.MonthlyPlanFromPurchase | backend/app/utils/analytics.py:22-25 | in its purchase year, a monthly plan adds its amount from its purchase month on |
| Analytics.GetYearlySummary | backend/app/utils/analytics.py:123-155 | the breakdown has 12 entries for months 1..12 in order; yearly income, expense and investments are sums of the monthly values; savings = income − expense − investments |
| Analytics.SummaryOfMonth | backend/app/utils/analytics.py:133-146 | one month's breakdown entry is the monthly summary of that month's transactions |
| Analytics.BreakdownSavingsAddUp | backend/app/utils/analytics.py:145-153 | when each month's savings are its income − expense − investments, so are the year's |
| Analytics.SummarySavings | backend/app/utils/analytics.py:61 | savings = income − expense − investments |
| Insights.Percent | backend/app/utils/analytics.py:76 | `part / whole * 100` for a positive whole, stated as percent × whole = part × 100 |
| Insights.PercentVersus | backend/app/utils/analytics.py:76-77 | a percentage exceeds (reaches) a threshold iff part × 100 exceeds (reaches) threshold × whole |
| Insights.GenerateInsights | backend/app/utils/analytics.py:66-120 | the insight list is the four rules' outputs in order |
| Insights.ExpenseRatioRule | backend/app/utils/analytics.py:75-86 | only for positive income: ratio > 90 gives one alert, else ratio > 80 one warning, else nothing |
| Insights.SavingsRateRule | backend/app/utils/analytics.py:96-107 | only for positive income: a savings rate in [0, 10) gives a warning, ≥ 20 an info, else nothing |
| Insights.CategoryRule | backend/app/utils/analytics.py:110-118 | at most one category insight, present iff there is a top category, the expense is positive and the top category exceeds 40% of it; it names that category |
| Insights.InsightThresholds | backend/app/utils/analytics.py:66-120 | each insight appears iff its threshold holds: the two expense-ratio rules exclude each other, negative savings always alert, and [10, 20) gives no savings-rate insight |
| Insights.InsightOrder | backend/app/utils/analytics.py:66-120 | at most four insights, in the fixed rule order, each with its rule's severity |
| Crud.MaxId | backend/app/crud.py:12-14 | a bound of every stored id |
| Crud.NextId | backend/app/crud.py:12-14 | a positive id that no stored row has |
| Crud.Table.constructor | backend/app/database.py:9-18 | a table starts empty |
| Crud.Table.Create | backend/app/crud.py:9-15 | the new row holds the payload under a fresh id and is appended |
| Crud.Table.Update | backend/app/crud.py:50-58 | an unknown id gives None and leaves the table unchanged; a known id overwrites every payload field, returns the row and replaces it in place |
| Crud.Table.Delete | backend/app/crud.py:61-68 | returns true and removes the row iff the id exists, otherwise false with the table unchanged |
| Crud.CreateSavingsInvestment | backend/app/crud.py:113-126 | the new investment's `last_recurring_date` is today iff it is recurring, otherwise null |
| Crud.UpdateSavingsInvestment | backend/app/crud.py:139-148 | overwrites the payload's fields and keeps `last_recurring_date`; an unknown id gives None and no change |
| Crud.GetAllTransactions | backend/app/crud.py:23-25 | at most `limit` rows, taken in order from offset `skip`, and as many as remain when fewer |
| Crud.FirstOfNextMonth | backend/app/crud.py:31-34 | the first day of the next month, with December rolling to January of year + 1 |
| Crud.TransactionsByMonth | backend/app/crud.py:28-39 | a valid month gives exactly the transactions dated in that month; an invalid month raises (None) |
| Crud.MonthWindow | backend/app/crud.py:36-39 | `first of month ≤ d < first of next month` holds iff d is in that month |
| Crud.TransactionsByDateRange | backend/app/crud.py:42-47 | exactly the transactions with start ≤ date ≤ end, both ends inclusive |
| Crud.CrudPass | backend/app/crud.py:173-191 | the pass keeps the number of rows and their ids |
| Crud.ProcessRecurringInvestments | backend/app/crud.py:161-196 | the count is the pass's count; the stored table becomes the pass over the old one when the count is positive, and otherwise stays as it was, because the session is committed only then |
| Crud.CrudPassFrame | backend/app/crud.py:169-171 | non-recurring rows are untouched, and no row changes anything but value and date |
| Crud.CrudFirstSighting | backend/app/crud.py:174-176 | in the open session, a recurring row without a date gets today's date, gains nothing and is not counted |
| Crud.CrudCountIsChanged | backend/app/crud.py:187-191 | the count is the number of rows whose value the pass changed |
| Crud.CrudPassIdempotent | backend/app/crud.py:178-191 | a second pass on the same day changes nothing and counts 0 |
| Crud.StepTwice | backend/app/crud.py:178-191 | a processed investment is not due again the same day |
| Crud.NoCountWhenFixed | backend/app/crud.py:193-196 | when no row is processed, the count is 0 |
| Crud.LoneDatelessRowStaysNull | backend/app/crud.py:173-194 | a dateless recurring row with no other recurring row is stamped in the session but counted 0, so the stamp is never committed and every daily call finds it dateless again |
| AutoIncrement.SalaryTransaction | backend/app/utils/auto_increment.py:33-41 | the posted transaction is income dated today, for the salary's amount, category "Salary", paid by "bank", with no card |
| AutoIncrement.SalaryPass | backend/app/utils/auto_increment.py:29-46 | the pass keeps the number of rows and their ids |
| AutoIncrement.ProcessAutoSalaryEntries | backend/app/utils/auto_increment.py:12-55 | the loop updates the salaries as the pass does, appends one transaction per posted salary in order after the old ones, and counts posted and skipped salaries |
| AutoIncrement.SalaryStatusAsWritten | backend/app/utils/auto_increment.py:24-61 | as the code stands: the salary query fails exactly when the schema declares no `Salary` class, and the `except` branch then reports 0 posted; otherwise posted + skipped is the number of active salaries |
| AutoIncrement.DueSalaryNotPosted | backend/app/utils/auto_increment.py:24-61 | against the declared schema, an active salary never posted is due but reported as 0 posted |
| AutoIncrement.SalaryCountsCover | backend/app/utils/auto_increment.py:29-46 | processed + skipped = the number of active salaries |
| AutoIncrement.SalaryPassRows | backend/app/utils/auto_increment.py:31-43 | an active salary with no date or a date in another (month, year) gets today's date; inactive and already-posted salaries are untouched; only `last_added_date` changes |
| AutoIncrement.SalaryPassIdempotent | backend/app/utils/auto_increment.py:31-43 | a second pass on the same day posts nothing and changes nothing |
| AutoIncrement.NothingPosts | backend/app/utils/auto_increment.py:44 | when no salary is due, nothing is posted |
| AutoIncrement.AutoPass | backend/app/utils/auto_increment.py:81-104 | the pass keeps the number of rows and their ids |
| AutoIncrement.ProcessAutoRecurringInvestments | backend/app/utils/auto_increment.py:64-113 | the loop's new table is the pass over the old one, and processed and skipped are the pass's counts |
| AutoIncrement.AutoCountsCover | backend/app/utils/auto_increment.py:77-104 | processed + skipped = the number of recurring investments; non-recurring ones are never read |
| AutoIncrement.AutoStepEffect | backend/app/utils/auto_increment.py:85-104 | a processed investment gains its amount (0 if null) and today's date; any other is unchanged; it is unread iff not recurring |
| AutoIncrement.AutoAgreesWithCrudOnDatedRows | backend/app/utils/auto_increment.py:91-102 | on a row with a date, the startup rule and the daily rule give the same row and the same processed flag |
| AutoIncrement.FirstSightingDiffers | backend/app/utils/auto_increment.py:85-89 | on a row without a date, startup adds the amount while the daily pass does not |
| AutoIncrement.AutoPassIdempotent | backend/app/utils/auto_increment.py:99-102 | a second startup pass on the same day changes nothing and processes nothing |
| AutoIncrement.AutoStepTwice | backend/app/utils/auto_increment.py:99-102 | a processed investment is not processed again the same day |
| AutoIncrement.NoneProcessed | backend/app/utils/auto_increment.py:106 | when no row is processed, the processed count is 0 |
| AutoIncrement.RunStartupChecks | backend/app/utils/auto_increment.py:122-136 | runs both passes, and `all_processed` is the salary count plus the investment count |
| AutoIncrement.StartupTotalAsWritten | backend/app/utils/auto_increment.py:122-136 | as written, the salary status adds 0, so `all_processed` is the investments' count alone and falls short of the postings due whenever a salary is due |
| CardUtilization.CycleAsWritten | backend/app/utils/analytics.py:250-264 | the cycle bounds as written; when defined, they fall on the card's start and end days |
| CardUtilization.JanuaryCycleRaises | backend/app/utils/analytics.py:252 | on 5 January with start day 10 the code passes the year as a month and raises, where the cycle 10 Dec – 5 Jan was meant |
| CardUtilization.DecemberCycleRaises | backend/app/utils/analytics.py:259 | on 20 December with a cycle 15–10 the code passes the year as a month and raises, where 15 Dec – 10 Jan was meant |
| CardUtilization.CycleAgreesMidYear | backend/app/utils/analytics.py:250-264 | in February..November the corrected cycle equals the written one |
| CardUtilization.CycleBoundsMeaning | backend/app/utils/analytics.py:250-264 | the corrected cycle starts on the start day this month, or last month when today is before it; it ends on the end day this month, or next month when it wraps; it starts no later than today |
| CardUtilization.CycleDefined | backend/app/utils/analytics.py:250-264 | away from years 1 and 9999, days 1..28 always give a cycle; a day outside 1..31 never does |
| CardUtilization.CardTransactions | backend/app/utils/analytics.py:267-272 | exactly the card's expense transactions dated within the cycle, both ends inclusive |
| CardUtilization.UtilizationPercent | backend/app/utils/analytics.py:275 | spent / limit × 100 for a positive limit, else 0 |
| CardUtilization.PercentBounds | backend/app/utils/analytics.py:275 | a spend within the limit gives 0..100; one over the limit gives more than 100 |
| CardUtilization.DaysToDue | backend/app/utils/analytics.py:283 | `(due − today) % 30` (Python's non-negative remainder) lies in 0..29 |
| CardUtilization.CalculateCreditCardUtilization | backend/app/utils/analytics.py:238-284 | no card gives None; a card whose cycle dates do not exist gives the cycle error, and every other card a report: it names the card and its limit, the spend is the sum over the cycle's card expenses, the percentage × limit is spend × 100 (0 for a non-positive limit), and days to due is the value in 0..29 congruent to due − today modulo 30 |
| CategoryDistribution.YearMonths | backend/app/utils/analytics.py:163-165 | twelve monthly summaries |
| CategoryDistribution.GetYearlyCategoryDistribution | backend/app/utils/analytics.py:158-192 | the loops compute the distribution of the year's twelve monthly summaries: sorted with distinct names, each category other than "Investments" holding what the year's transactions spent in it, and `total_expense` the year's expense outside "Investments" |
| CategoryDistribution.AreYearMonths | backend/app/utils/analytics.py:163-165 | a list whose k-th entry is month k+1's summary is the year's months |
| CategoryDistribution.SummaryForMonth | backend/app/utils/analytics.py:164-165 | one month's summary is that of its transactions |
| CategoryDistribution.MergeMonthCategories | backend/app/utils/analytics.py:168-170 | the loop merges one month's categories other than "Investments" |
| CategoryDistribution.MergeCategoriesMeaning | backend/app/utils/analytics.py:168-170 | merging keeps keys distinct, adds exactly the names other than "Investments", raises each such name's amount by the month's amounts under it and leaves "Investments" alone, and raises the total by their amounts |
| CategoryDistribution.MergeMonthsMeaning | backend/app/utils/analytics.py:163-172 | the merged keys are the names other than "Investments" seen in some month, each name's amount is the sum over the months of its monthly amount ("Investments" gets 0), and the total is the sum of the months' non-investment spending |
| CategoryDistribution.DistributionKeys | backend/app/utils/analytics.py:175-191 | sorted non-increasing with distinct names; "Investments" is present iff included and positive, and then holds the year's investments; other names are present iff seen in a month, each with the sum of its monthly amounts; total investments is the months' sum |
| CategoryDistribution.DistributionTotal | backend/app/utils/analytics.py:184 | `total_expense` is the sum of the months' non-investment spending |
| CategoryDistribution.MonthNonInvestmentSpending | backend/app/utils/analytics.py:48-49 | a month's non-investment spending is its expense less what it spent in a category named "Investments" |
| CategoryDistribution.YearlyExpenseOutsideInvestments | backend/app/utils/analytics.py:158-192 | `total_expense` is the year's expense outside any category named "Investments" |
| CategoryDistribution.MonthsSpending | backend/app/utils/analytics.py:163-170 | the first n months' non-investment spending, month by month |
| CategoryDistribution.MonthCategoryAmount | backend/app/utils/analytics.py:42-55 | a month lists under each category other than "Investments" what its transactions spent in it |
| CategoryDistribution.MonthsCategoryAmount | backend/app/utils/analytics.py:163-170 | over the first n months, a category's monthly amounts add up to what those months' transactions spent in it |
| CategoryDistribution.YearlyCategoryAmounts | backend/app/utils/analytics.py:158-182 | in the yearly distribution each category other than "Investments" holds what the year's transactions spent in it, month by month |
| SavingsComparison.CalculateSavingsComparison | backend/app/utils/analytics.py:287-331 | cash savings = difference = balance − invested; profit/loss = current value − invested |
| SavingsComparison.BalanceIsMonthSavings | backend/app/utils/analytics.py:292-308 | the window is the current month, and the balance is its income − expense |
| SavingsComparison.ProfitLossAddsUp | backend/app/utils/analytics.py:314-316 | the profit/loss is the sum of the investments' own profit/loss |
| JsValues.Divide | frontend/src/components/SavingsInvestmentTable.tsx:77 | JavaScript division: a finite quotient for a non-zero divisor, and for 0 an infinity of the dividend's sign, or NaN for 0/0 |
| JsValues.Scale | frontend/src/components/SavingsInvestmentTable.tsx:77 | multiplying keeps NaN and infinities and scales a finite value |
| JsValues.NatToString | frontend/src/components/AddPaymentForm.tsx:24 | decimal digits without a leading zero |
| JsValues.IntToString | frontend/src/components/AddPaymentForm.tsx:24 | `toString()`: a leading '-' iff negative |
| JsValues.ParseInt | frontend/src/components/AddPaymentForm.tsx:44 | `parseInt`: "" gives NaN, and a string of digits gives its value |
| JsValues.ParseFloat | frontend/src/components/AddSavingsForm.tsx:45-47 | `parseFloat`: "" gives NaN, and a string of digits gives its value |
| JsValues.NatToStringValue | frontend/src/components/AddPaymentForm.tsx:24 | reading the digits back gives the number |
| JsValues.ParseIntOfIntToString | frontend/src/components/AddPaymentForm.tsx:24-44 | `parseInt(n.toString())` is n |
| JsValues.ParseFloatOfIntToString | frontend/src/components/SalaryManagement.tsx:33-57 | `parseFloat(n.toString())` is n |
| JsValues.ParseFieldText | frontend/src/components/SalaryManagement.tsx:33-57 | a salary's amount written into the field is read back as that number; typed text goes through `parseFloat` |
| ClientTypes.ErrorText | frontend/src/hooks/usePayments.ts:17 | an Error's message, else the operation's default text |
| ClientTypes.ConfirmedDelete | frontend/src/components/TransactionTable.tsx:19-27 | the id is deleted iff the dialog is confirmed |
| Hooks.TransactionsHook.constructor | frontend/src/hooks/useTransactions.ts:10-26 | the mount fetch lists the reply, or an empty list with "Failed to fetch transactions" |
| Hooks.TransactionsHook.Fetch | frontend/src/hooks/useTransactions.ts:12-19 | success replaces the list and clears the error; failure keeps the list and sets the message |
| Hooks.TransactionsHook.Rerender | frontend/src/hooks/useTransactions.ts:26 | the list is fetched again exactly when year or month changed |
| Hooks.TransactionsHook.AddTransaction | frontend/src/hooks/useTransactions.ts:28-38 | success appends the server's record; failure keeps the list, sets its message and rethrows |
| Hooks.TransactionsHook.UpdateTransaction | frontend/src/hooks/useTransactions.ts:40-50 | success replaces the matching entries by the server's record; failure keeps the list, sets its message and rethrows |
| Hooks.TransactionsHook.DeleteTransaction | frontend/src/hooks/useTransactions.ts:52-61 | success removes the id's entries, keeping order; failure keeps the list, sets its message and rethrows |
| Hooks.CreditCardsHook.constructor | frontend/src/hooks/useCreditCards.ts:10-26 | the mount fetch lists the reply, or an empty list with "Failed to fetch credit cards" |
| Hooks.CreditCardsHook.AddCard | frontend/src/hooks/useCreditCards.ts:28-38 | success appends; failure keeps the cards, sets its message and rethrows |
| Hooks.CreditCardsHook.UpdateCard | frontend/src/hooks/useCreditCards.ts:40-50 | success replaces the matching cards only; failure keeps the cards and rethrows |
| Hooks.CreditCardsHook.DeleteCard | frontend/src/hooks/useCreditCards.ts:52-61 | the id is removed only after the server succeeds; failure keeps the cards and rethrows |
| Hooks.Merge | frontend/src/hooks/useSavings.ts:54 | `{ ...existing, ...patch }`: each field the patch sets wins, every other field is the existing one |
| Hooks.SavingsHook.constructor | frontend/src/hooks/useSavings.ts:11-31 | both requests succeed and both lists are set, or neither is set and the error is "Failed to fetch savings data" |
| Hooks.SavingsHook.Refresh | frontend/src/hooks/useSavings.ts:37-39 | the comparison is re-fetched; a failure sets the operation's message and rethrows |
| Hooks.SavingsHook.AddInvestment | frontend/src/hooks/useSavings.ts:33-46 | success appends and then refreshes; a failed refresh keeps the appended record, sets "Failed to add investment" and rethrows |
| Hooks.SavingsHook.UpdateInvestment | frontend/src/hooks/useSavings.ts:48-66 | an id not in the list rejects with "Investment not found" without calling the server; otherwise the merged record is sent and the server's record replaces the entry |
| Hooks.SavingsHook.DeleteInvestment | frontend/src/hooks/useSavings.ts:68-80 | entries with the id are removed after the server confirms, then the comparison is refreshed |
| Hooks.SalariesHook.constructor | frontend/src/hooks/useSalaries.ts:35-37 | the fetch runs once on mount |
| Hooks.SalariesHook.FetchSalaries | frontend/src/hooks/useSalaries.ts:21-33 | success replaces the list and clears the error; failure only records "Failed to fetch salaries"; loading ends false |
| Hooks.SalariesHook.AddSalary | frontend/src/hooks/useSalaries.ts:39-53 | success appends and clears the error; failure keeps the list, sets the message and rethrows; loading ends false |
| Hooks.SalariesHook.UpdateSalary | frontend/src/hooks/useSalaries.ts:55-69 | success replaces the matching entries; failure keeps the list and rethrows; loading ends false |
| Hooks.SalariesHook.DeleteSalary | frontend/src/hooks/useSalaries.ts:71-84 | success removes the entries; failure keeps the list and rethrows; loading ends false |
| Hooks.PaymentsHook.constructor | frontend/src/hooks/usePayments.ts:6-8 | an empty list, no error, not loading |
| Hooks.PaymentsHook.FetchPayments | frontend/src/hooks/usePayments.ts:10-34 | success replaces the list with the server's; failure records the error text and does not rethrow |
| Hooks.PaymentsHook.AddPayment | frontend/src/hooks/usePayments.ts:36-50 | success appends to the previous list; failure records the error text and rethrows |
| Hooks.PaymentsHook.DeletePayment | frontend/src/hooks/usePayments.ts:52-65 | success removes the id's entries; failure records the error text and rethrows |
| Hooks.PaymentsHook.UpdatePayment | frontend/src/hooks/usePayments.ts:67-81 | success replaces only the matching entries; failure records the error text and rethrows |
| Hooks.CreateThenDeleteRestores | frontend/src/hooks/useTransactions.ts:31-55 | deleting a record just appended with a new id restores the list |
| Hooks.CreateKeepsUniqueIds | frontend/src/hooks/useTransactions.ts:31 | appending keeps ids unique iff the new id is new |
| Hooks.UpdateKeepsUniqueIds | frontend/src/hooks/useTransactions.ts:43 | an update keeps ids unique and the length, and the id then finds the new record |
| Hooks.DeleteRemovesOne | frontend/src/hooks/useTransactions.ts:55 | with unique ids, deleting a present id removes one entry, an absent id changes nothing, and ids stay unique |
| SavingsViews.SignPrefix | frontend/src/components/SavingsInvestmentTable.tsx:54-56 | '+' iff the value is ≥ 0, so zero shows as a gain |
| SavingsViews.TableTotals | frontend/src/components/SavingsInvestmentTable.tsx:30-40 | no totals for an empty list; otherwise the sums of purchase and current values and their difference |
| SavingsViews.TotalIsSumOfRows | frontend/src/components/SavingsInvestmentTable.tsx:38-76 | the total profit/loss is the sum of the rows' profit/loss |
| SavingsViews.PercentAsWritten | frontend/src/components/SavingsInvestmentTable.tsx:77 | the unguarded percentage: finite for a non-zero purchase value, infinite or NaN for a zero one |
| SavingsViews.ProfitLossPercent | frontend/src/components/SavingsInvestmentTable.tsx:77 | the guarded percentage: defined iff the purchase value is non-zero, and then equal to the written one |
| SavingsViews.ZeroPurchasePercent | frontend/src/components/SavingsInvestmentTable.tsx:77 | a zero-cost investment worth 500 shows Infinity%, and one worth 0 shows NaN% |
| SavingsViews.PercentHasProfitSign | frontend/src/components/SavingsInvestmentTable.tsx:76-77 | for a positive purchase value the percentage has the profit's sign, and a total loss is −100% |
| SavingsViews.EvenRow | frontend/src/components/SavingsInvestmentTable.tsx:76-91 | an investment worth what it cost shows a profit/loss of 0 with the '+' prefix, and 0% when it cost something |
| SavingsViews.Row | frontend/src/components/SavingsInvestmentTable.tsx:76-91 | a row's profit/loss is current − purchase, its prefix is '+' iff that is ≥ 0, and its percentage is the corrected, guarded one |
| SavingsViews.Rows | frontend/src/components/SavingsInvestmentTable.tsx:74-95 | one row per investment, in order |
| SavingsViews.ComparisonCard | frontend/src/components/SavingsComparisonCard.tsx:8-68 | ahead iff cash savings ≥ 0; '+' prefixes for a non-negative profit/loss, balance and cash; the status message matches ahead and shows the absolute cash savings |
| SavingsViews.CardReadsComparison | frontend/src/components/SavingsComparisonCard.tsx:8 | on the server's comparison, the card is ahead iff the month's balance covers the amount invested |
| CardViews.Min | frontend/src/components/CreditCardSummary.tsx:49 | `Math.min`: no larger than either and equal to one |
| CardViews.EntryFor | frontend/src/components/CreditCardSummary.tsx:20-21 | a card without an entry reads as 0% and 0 spent |
| CardViews.Tile | frontend/src/components/CreditCardSummary.tsx:19-49 | the usage bar shows iff the percentage is positive; its width is the percentage clamped to 100; it is high iff > 70 |
| CardViews.CardSummary | frontend/src/components/CreditCardSummary.tsx:9-21 | an empty list shows no tiles; otherwise one tile per card, in order |
| CardViews.TileOfReport | frontend/src/components/CreditCardSummary.tsx:38-49 | fed with the server's percentage, the bar is full iff the limit is reached and high iff over 70% of the limit is spent |
| CardViews.PercentVersus | frontend/src/components/CreditCardSummary.tsx:46-48 | the percentage passes a threshold iff the spend passes that share of the limit |
| CardViews.CardMap | frontend/src/components/TransactionTable.tsx:11 | `new Map(cards.map(...))`: keys are exactly the cards' ids, each mapped to a card with that id |
| CardViews.CardMapLastWins | frontend/src/components/TransactionTable.tsx:11 | a later card with the same id replaces an earlier one: the last card with each id is the one stored |
| CardViews.CardMapOfUniqueCards | frontend/src/components/TransactionTable.tsx:11 | with unique ids, the map holds the list's card for each id |
| CardViews.GetCardName | frontend/src/components/TransactionTable.tsx:13-17 | '-' for a missing or zero id or an unknown card, else the card's name |
| CardViews.CardNameOfTransaction | frontend/src/components/TransactionTable.tsx:11-17 | a non-zero known id shows its card's name, an unknown id '-', and id 0 always '-' |
| CardViews.TableRow | frontend/src/components/TransactionTable.tsx:64-76 | a badge iff paid by card; the prefix is '+' for income and '-' otherwise |
| CardViews.TransactionTable | frontend/src/components/TransactionTable.tsx:29-35 | an empty list shows no rows; otherwise one row per transaction, in order |
| ChartViews.SliceValue | frontend/src/components/CategoryPieChart.tsx:26-30 | a pair keeps its value; an object takes `amount`, else `value`, else 0, so an amount of 0 falls back |
| ChartViews.ChartData | frontend/src/components/CategoryPieChart.tsx:14-50 | no chart for empty data; otherwise same length and order, each slice named and valued from its item and coloured `COLORS[i % 8]` |
| ChartViews.SliceColors | frontend/src/components/CategoryPieChart.tsx:14-50 | neighbouring slices differ in colour, and colours repeat every eight |
| ChartViews.AsPairs | backend/app/schemas.py:55 | categories typed `List[tuple]` arrive as `[name, amount]` arrays: each is charted as a pair at its amount, in order |
| ChartViews.ChartOfTopCategories | frontend/src/components/CategoryPieChart.tsx:25-31 | charting category totals sent as pairs keeps names and amounts, so the slices add up to the categories' total |
| Pages.Received | backend/app/routers/analytics.py:94-118 | a month with any top category fails at the undefined `schemas.CategoryExpense`, so the hook keeps null; otherwise income, expense and savings arrive, the response model drops `investments`, and the category list is empty |
| Pages.DashboardOfMonth | backend/app/routers/analytics.py:98-111 | for a month's transactions the dashboard stays on "Loading..." exactly when the month has an expense or positive investments; otherwise it shows the month's income and savings and an investments tile of 0 |
| Pages.SavingsRate | frontend/src/pages/Dashboard.tsx:59-63 | savings / income × 100 for positive income, else 0, never a division by zero |
| Pages.Dashboard | frontend/src/pages/Dashboard.tsx:25-63 | only the loading view until analytics arrives; missing investments shown as 0; the savings tile is blue iff savings ≥ 0 |
| Pages.DashboardRateOfServerSummary | frontend/src/pages/Dashboard.tsx:59-63 | whenever the dashboard shows the server's summary, the rate is the insights' savings rate, and at most 100 for non-negative expense and investments |
| Pages.TrendSummaryOf | frontend/src/pages/AnalyticsPage.tsx:55-80 | no summary for an empty list; otherwise the sums of income, expense and savings, and average × months = total savings |
| Pages.TrendTotalsAgree | frontend/src/pages/AnalyticsPage.tsx:62-74 | when each month's savings are income − expense, so are the totals' |
| Pages.AverageWithinMonths | frontend/src/pages/AnalyticsPage.tsx:80 | the average lies between the smallest and the largest month's savings |
| Pages.SumBounds | frontend/src/pages/AnalyticsPage.tsx:74 | n months with savings in [low, high] sum to within [n × low, n × high] |
| Pages.MonthNavigator.constructor | frontend/src/pages/TransactionsPage.tsx:6-8 | the current year and `getMonth() + 1` |
| Pages.MonthNavigator.HandlePrevMonth | frontend/src/pages/TransactionsPage.tsx:12-19 | January goes to December of year − 1, otherwise month − 1; the month stays in 1..12 |
| Pages.MonthNavigator.HandleNextMonth | frontend/src/pages/TransactionsPage.tsx:21-28 | December goes to January of year + 1, otherwise month + 1; the month stays in 1..12 |
| Pages.TransactionsPage.constructor | frontend/src/pages/TransactionsPage.tsx:6-9 | the hook lists the navigator's month |
| Pages.TransactionsPage.PreviousMonthClicked | frontend/src/pages/TransactionsPage.tsx:9-19 | the month steps back, and the hook re-fetches that month |
| Pages.TransactionsPage.NextMonthClicked | frontend/src/pages/TransactionsPage.tsx:9-28 | the month steps on, and the hook re-fetches that month |
| Forms.NonEmpty | frontend/src/components/AddSavingsForm.tsx:52 | `text or undefined`: absent iff empty |
| Forms.EmptySavingsForm | frontend/src/components/AddSavingsForm.tsx:10-20 | empty fields, type "mutual_fund", "monthly", not recurring, today's date |
| Forms.InvestmentPayloadOf | frontend/src/components/AddSavingsForm.tsx:45-59 | amounts parsed; an empty current value defaults to the purchase amount; the recurring fields only when recurring, with an empty amount defaulting to the purchase amount |
| Forms.SameValueShowsNoProfit | frontend/src/components/AddSavingsForm.tsx:42-146 | on a submitted form the current value sent is the typed one, since the field is required and the fallback to the purchase amount never applies; with the same text in both amounts the row shows zero profit, a '+' and 0% |
| Forms.AddSavingsForm.constructor | frontend/src/components/AddSavingsForm.tsx:10-20 | the empty form |
| Forms.AddSavingsForm.HandleChange | frontend/src/components/AddSavingsForm.tsx:31-40 | the checkbox stores `checked`; every other input stores its text |
| Forms.AddSavingsForm.HandleSubmit | frontend/src/components/AddSavingsForm.tsx:42-146 | nothing is sent while the name, purchase date, initial amount or current value is empty (`required`); otherwise the form's payload, with the typed current value; the form is reset only when `onAdd` resolves |
| Forms.EmptyTransactionForm | frontend/src/components/AddTransactionForm.tsx:10-18 | today's date, no amount, "expense", "cash", empty text, no card |
| Forms.AmountInput | frontend/src/components/AddTransactionForm.tsx:29 | `parseFloat(v)` or `''`: an amount iff the parse is truthy, so "0" and "" clear the field |
| Forms.ZeroAmountClears | frontend/src/components/AddTransactionForm.tsx:29 | "0" and "" give no amount, and "12" gives 12 |
| Forms.ZeroAmountBlocksSubmit | frontend/src/components/AddTransactionForm.tsx:29-82 | a typed 0 empties the required amount, so the form cannot be submitted |
| Forms.TransactionPayloadOf | frontend/src/components/AddTransactionForm.tsx:36-40 | the form's fields, with a card id only for card payments |
| Forms.CategoryOptions | frontend/src/components/AddTransactionForm.tsx:20-23 | distinct options, including "Other"; "Salary" iff income; "Food" iff expense |
| Forms.FormCardPaymentShowsNoCard | frontend/src/components/AddTransactionForm.tsx:17-39 | a card payment from the form carries no card, so the table shows '-' in its badge |
| Forms.AddTransactionForm.constructor | frontend/src/components/AddTransactionForm.tsx:10-18 | the empty form |
| Forms.AddTransactionForm.Categories | frontend/src/components/AddTransactionForm.tsx:109 | the options for the form's current type |
| Forms.AddTransactionForm.HandleChange | frontend/src/components/AddTransactionForm.tsx:25-31 | the amount goes through the truthy-parse rule; every other input stores its text; no input sets a card |
| Forms.AddTransactionForm.HandleSubmit | frontend/src/components/AddTransactionForm.tsx:33-106 | nothing is sent while the date, amount or category is empty (`required`); otherwise the form's payload, which has an amount and never a card id; resets only when `onAdd` resolves |
| Forms.EmptyPaymentForm | frontend/src/components/AddPaymentForm.tsx:51-58 | the first card's id as text (empty without cards), today's date, empty amount, "bank" |
| Forms.PaymentAmountInput | frontend/src/components/AddPaymentForm.tsx:32-34 | "" stays text; anything else becomes `parseFloat` of it |
| Forms.PaymentPayloadOf | frontend/src/components/AddPaymentForm.tsx:43-50 | the card id is `parseInt` of the selection (NaN when none); a text amount is parsed and a number sent as-is |
| Forms.SelectedCardIsSent | frontend/src/components/AddPaymentForm.tsx:24-44 | selecting a card sends exactly its id |
| Forms.AddPaymentForm.constructor | frontend/src/components/AddPaymentForm.tsx:11-18 | no card selected, today's date, empty amount, "bank" |
| Forms.AddPaymentForm.SyncDefaultCard | frontend/src/components/AddPaymentForm.tsx:20-27 | with cards and no selection, the first card is selected; otherwise nothing changes |
| Forms.AddPaymentForm.HandleChange | frontend/src/components/AddPaymentForm.tsx:29-38 | the amount goes through the amount rule; every other input stores its text |
| Forms.AddPaymentForm.HandleSubmit | frontend/src/components/AddPaymentForm.tsx:40-113 | nothing is sent while the card, date or amount is empty (`required`); otherwise the form's payload, never linking a transaction; resets to the empty form only when `onAdd` resolves |
| Forms.FirstCardIsDefault | frontend/src/components/AddPaymentForm.tsx:11-113 | mounting with cards and submitting at once sends nothing, since the amount is required and empty; once an amount is typed, the submit sends the first card's id, that amount and "bank" |
| SalaryManagement.EmptySalaryForm | frontend/src/components/SalaryManagement.tsx:6-14 | empty name and amount, today's start date, active, no description |
| SalaryManagement.Request | frontend/src/components/SalaryManagement.tsx:27-45 | an update iff `editingId` is truthy (present and not 0), without a start date; otherwise an add with one |
| SalaryManagement.EditForm | frontend/src/components/SalaryManagement.tsx:54-64 | the salary's values, with the amount written out and a missing start date replaced by today |
| SalaryManagement.EditThenSubmit | frontend/src/components/SalaryManagement.tsx:27-142 | an edited salary passes the `required` check iff it has a name; submitting it unchanged sends its own values as an update of it, unless its id is 0 |
| SalaryManagement.SalaryManagement.constructor | frontend/src/components/SalaryManagement.tsx:6-14 | closed form, no editing, the empty form, and the hook's mount fetch |
| SalaryManagement.SalaryManagement.HandleChange | frontend/src/components/SalaryManagement.tsx:16-25 | the checkbox stores `checked`; every other input stores its text |
| SalaryManagement.SalaryManagement.HandleSubmit | frontend/src/components/SalaryManagement.tsx:27-142 | nothing happens while the name, amount or start date is empty (`required`); otherwise success resets and hides the form, and clears `editingId` only after an update; failure changes nothing |
| SalaryManagement.SalaryManagement.HandleEdit | frontend/src/components/SalaryManagement.tsx:54-64 | fills the form from the salary and opens it in edit mode |
| SalaryManagement.SalaryManagement.HandleCancel | frontend/src/components/SalaryManagement.tsx:66-70 | resets the form, leaves edit mode and closes it |
| SalaryManagement.SalaryManagement.ToggleForm | frontend/src/components/SalaryManagement.tsx:91 | only opens or closes the form |
| SalaryManagement.SalaryManagement.HandleDelete | frontend/src/components/SalaryManagement.tsx:72-80 | deletes only after confirmation; a failure leaves the list |
| SalaryManagement.EditAndSave | frontend/src/components/SalaryManagement.tsx:27-142 | edit then save replaces the salary and leaves edit mode; for id 0 it appends a copy and stays in edit mode; a salary without a name is not saved and the form stays open |
| ApiConfig.GetApiBaseUrl | frontend/src/config/api.ts:2-9 | the default for a missing or empty variable; one trailing "/api" removed; anything else unchanged |
| ApiConfig.GetAuthUrl | frontend/src/config/api.ts:11-14 | the auth URL is the base URL followed by "/api/auth" |
| ApiConfig.SuffixIsOptional | frontend/src/config/api.ts:2-14 | a base URL with or without "/api" gives the same auth URL |
| ApiConfig.OneSuffixRemoved | frontend/src/config/api.ts:6 | only one "/api" is removed: "http://h/api/api" gives "http://h/api" |

## Left out

- HTTP, the database engine, SQLAlchemy sessions and commits (apart from the conditional commit of `Crud.ProcessRecurringInvestments`), React rendering and scheduling, and console logging are not modelled. Server replies and the clock are parameters.
- Rounding (`round(x, 2)`, `toFixed`, `toLocaleString`) is left out: money is an exact `real`.
- `get_spending_trends` and `get_spending_trends_by_year` are left out. They read the clock and step back in 30-day strides, which the model does not represent. The analytics page's computations on the trend list are modelled.
- The `except` branches of `auto_increment.py`, which turn a database error into a zero count, are left out, except for the salary query's failure on the undeclared `Salary` class (see Findings). No other database operation fails in the model.
- New rows take the largest stored id plus one (`Crud.NextId`). This is SQLite's rowid rule; the model does not cover deleted ids being reused after the maximum is removed.
- Crud.Table.Update, Crud.Table.Create and Crud.Table.Delete model the transaction and credit-card CRUD of `crud.py` through one generic table. The `get_*` functions are `Records.FindById` and `Records.Filter`.
- AutoIncrement.RunStartupChecks: runs the corrected salary pass, so `all_processed` is the salary count plus the investment count. As written the salary pass always fails and `all_processed` is the investment count alone; `AutoIncrement.StartupTotalAsWritten` states that.
- CardUtilization.CalculateCreditCardUtilization: uses the corrected cycle `CardUtilization.Cycle` rather than the raising one (see Findings). It states the exact percentage, not the one `round(x, 2)` returns.
- JsValues.ParseFloat: reads only an optional sign, digits and one decimal point. Whitespace, exponents and "Infinity" are not parsed.
- JsValues.ParseInt: reads only an optional sign and digits. Leading whitespace and radix prefixes are not parsed.
- Pages.Dashboard: the `investments` fallback to 0 is stated as "missing or zero shows 0". The tile layout and colours other than the savings tile's are not modelled.
- Pages.Received: follows the code, so every month with a top category gets a server error and the dashboard stays on "Loading...". The same undefined `schemas.CategoryExpense` is called at backend/app/routers/analytics.py:33 for the monthly endpoint. The category chart that the summary was evidently meant to feed is stated for pairs (`ChartViews.ChartOfTopCategories`), but the dashboard never reaches it.
- Forms.AddPaymentForm.HandleChange: accepts any text for the amount. A browser hands a `type="number"` input's handler only "" or valid number text; the model does not restrict it. The same holds for the amount fields of the other forms and of the salary page.
- The client hooks complete each operation in one step. The moment in which `loading` is true is not modelled; the hooks state only that it ends false where the source resets it.
- SavingsViews.Row: shows the corrected percentage, none for a zero purchase amount, where the table as written shows "Infinity%" or "NaN%". `SavingsViews.PercentAsWritten` models that case (see Findings).
- Dates.CalendarDate: the year is not bounded. `Dates.AddMonths` and `Dates.AddYears` return a date in year 10000 where `date + relativedelta` raises. They are applied only to `last_recurring_date`, which is only ever set to today.
- Crud.TransactionsByMonth: fails (`None`) only for a month outside 1..12. It does not model the `ValueError` for a year outside 1..9999, which the analytics routes never pass, since they accept only 1900..2100.
- SalaryManagement.SalaryManagement.HandleSubmit: follows the code, so a successful add keeps `editingId` as it was. Only an update clears it.
- SalaryManagement.EditForm: after an edit the field holds the salary's amount written out by `toString()`. The model keeps the number and reads it back unchanged. `JsValues.ParseFloatOfIntToString` proves that read-back for whole amounts; decimal `toString` output is not modelled. A typed amount is sent as `parseFloat` of the text; the `required` check keeps an empty one from being sent.
- The loading view of the salary page, and the purely presentational pages (`SavingsPage`, `CreditCardsPage`, `SalaryPage`, `Navbar`, `MonthlyChart`, `InsightPanel`), are not modelled.
- Authentication (`AuthContext.tsx`, `routers/auth.py`) and the routers' HTTP wiring are not part of this model.

## Findings

| source | as written | input that shows it | evidently intended | confidence | as-written member | corrected member |
|---|---|---|---|---|---|---|
| backend/app/utils/analytics.py:252-260 | the previous (next) month is written `month - 1 if month > 1 else year - 1` (`month + 1 if month < 12 else year + 1`), which passes a year as the month | today 5 January 2024 with `billing_cycle_start` 10, or 20 December 2024 with a 15–10 cycle: `date()` raises | December of the previous year, or January of the next year | not executed | CardUtilization.CycleAsWritten | CardUtilization.CycleBoundsMeaning |
| frontend/src/components/SavingsInvestmentTable.tsx:77 | the row percentage divides by `initial_amount` with no zero guard | an investment with `initial_amount` 0 and `current_value` 500 shows "Infinity%"; with both 0 it shows "NaN%" | no percentage for a zero purchase value | not executed | SavingsViews.ZeroPurchasePercent | SavingsViews.ProfitLossPercent |
| backend/app/utils/auto_increment.py:25 | the salary pass queries `models.Salary`, but `models.py` declares only `Transaction`, `CreditCard` and `SavingsInvestment`; nothing else in the backend defines it | any call, whatever the data: the attribute lookup `models.Salary` raises `AttributeError` before the query runs, and the `except` branch reports 0 salaries posted. `main.py` never calls `run_startup_checks`, so the failure shows only where it is called | a declared salary table, on which the pass posts each due active salary once a month | not executed | AutoIncrement.DueSalaryNotPosted | AutoIncrement.ProcessAutoSalaryEntries |
