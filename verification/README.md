# Farm accounting core, modelled in Dafny

This project models the bookkeeping part of the farm-ai-compass web application:
the record stores behind the accounting pages and the figures derived from them,
together with the overall health score of the soil analysis page.

- **Unified ledger**: transactions with a type, a signed amount and a stored running balance. The view filters
  them by a case-insensitive search over description, category and reference, by transaction type, and by an
  inclusive date range. The totals add up absolute amounts of inflows and outflows.
- **Income and expense trackers**: record lists searched by text. Each has an add form that puts a new record,
  id `length + 1`, at the head, and a grand total; the income tracker also totals its pending incomes.
- **Budget planner**: budgets carrying a stored percentage, a three-band status with an alert icon, and overall
  totals, remaining amount and progress. The unguarded JavaScript division is modelled as a finite value, an
  infinity or NaN.
- **Reminder system**: reminders that can be added, marked completed and deleted. Also modelled: the number of days
  to a due date, the upcoming/overdue/completed partitions, and the amount due.
- **Loan management**: loans with EMI and outstanding totals, the overdue count and the EMI alert.
- **Accounting settings**: the income and expense category lists (add without duplicates, remove), the currency
  choice with its symbol lookup, and the financial-year start written as `MM-DD`.
- **Soil analysis**: the score per parameter status, the rounded average and its label.

Each page that keeps state is a class. Its fields are that state: the records, the add-form draft and the
"show form" flag. Its methods are the page's handlers. The figures the page derives are functions over the record
sequences, and the properties are lemmas about those functions. Shared pieces live in small modules:

- `Seqs`: the `filter`/`reduce` of the source as `Filter`/`SumOf`, plus order-preserving subsequences;
- `Text`: ASCII lower-casing and substring search;
- `Calendar`: dates and day numbers;
- `Store`: `Option` and the `length + 1` id convention.

Where the page's labels and its code differ, the model follows the code:

- The budget page reads as if overall progress were always a percentage. The code divides unguarded, so with no
  budgets the model gives NaN, as the code does.
- The seeded ledger balances run in display order, newest first, the way the code lists them. They do not follow
  chronological order.

## Model

| member | source | states |
|---|---|---|
| Seqs.Filter | src/components/accounting/IncomeTracker.tsx:46-49 | `filter` keeps no more elements than it is given, and only elements of the input that pass the test |
| Seqs.SumOf | src/components/accounting/IncomeTracker.tsx:51 | the `reduce` sum of non-negative contributions is non-negative |
| Seqs.FilterCounts | src/components/accounting/IncomeTracker.tsx:46-49 | `filter` keeps every copy of an element that passes the test and none of one that fails it |
| Seqs.FilterEmptyIff | src/components/accounting/LoanManagement.tsx:112 | a filtered view is empty exactly when no element passes the test |
| Seqs.FilterExact | src/components/accounting/ReminderSystem.tsx:149-151 | `filter` keeps exactly the elements that pass the test, each as often as in the input |
| Seqs.SumOfFilterAtMost | src/components/accounting/IncomeTracker.tsx:51-52 | with non-negative contributions, the sum over a filtered view lies between 0 and the full sum |
| Text.ContainsIffOccurs | src/components/accounting/UnifiedLedger.tsx:56-58 | `includes` holds exactly when the term occurs at some position of the text |
| Text.EmptyTermMatches | src/components/accounting/IncomeTracker.tsx:46-49 | an empty search term matches every text |
| Text.SearchIgnoresCase | src/components/accounting/UnifiedLedger.tsx:56-58 | lower-casing the text or the term before the search changes no answer |
| Calendar.DayNumberCountsDays | src/components/accounting/ReminderSystem.tsx:123-129 | the day number of 1970-01-01 is 0, and the day after any valid date has the next day number |
| Calendar.YearLength | src/components/accounting/ReminderSystem.tsx:123-129 | the year that ends in the February of y has 366 days exactly when y is a leap year, 365 otherwise |
| Calendar.NextDay | src/components/accounting/ReminderSystem.tsx:123-129 | the day after a valid date is a valid date |
| Calendar.DaysInMonth | src/components/accounting/ReminderSystem.tsx:123-129 | a month has 28 to 31 days, and February has 29 exactly in leap years |
| Store.NextIdIsFresh | src/components/accounting/IncomeTracker.tsx:57 | when ids are exactly 1..n, the id `length + 1` is used by no record |
| Store.PrependKeepsDense | src/components/accounting/IncomeTracker.tsx:57-64 | adding the record with id `length + 1` at the head keeps the ids distinct and within 1..length |
| Store.AppendKeepsDense | src/components/accounting/BudgetPlanner.tsx:41-47 | appending the record with id `length + 1` at the tail keeps the ids distinct and within 1..length |
| Ledger.FilteredTransactions | src/components/accounting/UnifiedLedger.tsx:55-68 | the view is no longer than the ledger and shows only ledger transactions that pass all three tests |
| Ledger.FilteredIsMatchingSubsequence | src/components/accounting/UnifiedLedger.tsx:55-68 | the filtered view keeps the order of the list and holds exactly the transactions that pass the search, type and date tests, each as often as in the ledger |
| Ledger.UnrestrictedQueryIsIdentity | src/components/accounting/UnifiedLedger.tsx:55-68 | an empty search, type "all" and a range covering every date show the whole list |
| Ledger.SelectedTypeOnly | src/components/accounting/UnifiedLedger.tsx:60 | choosing a type shows only transactions of that type |
| Ledger.EmptyRangeShowsNothing | src/components/accounting/UnifiedLedger.tsx:62-65 | a start date after the end date, or a blank bound, shows no transaction |
| Ledger.RangeBoundsInclusive | src/components/accounting/UnifiedLedger.tsx:62-65 | a transaction dated on either bound passes the date test |
| Ledger.NoReferenceSearch | src/components/accounting/UnifiedLedger.tsx:56-58 | without a reference, the search matches through the description or the category only |
| Ledger.Abs | src/components/accounting/UnifiedLedger.tsx:70-71 | `Math.abs` is non-negative and equals the value or its negation |
| Ledger.TotalIncome | src/components/accounting/UnifiedLedger.tsx:70 | the sum of absolute amounts of income and loan disbursements is never negative |
| Ledger.TotalExpenses | src/components/accounting/UnifiedLedger.tsx:71 | the sum of absolute amounts of expenses and loan payments is never negative |
| Ledger.NetBalance | src/components/accounting/UnifiedLedger.tsx:72 | the net balance is at most total income and at least minus total expenses |
| Ledger.NetBalanceIsSignedSum | src/components/accounting/UnifiedLedger.tsx:70-72 | when inflows are positive and outflows negative, the net balance is the plain sum of the amounts |
| Ledger.BalanceIsPrefixSum | src/components/accounting/UnifiedLedger.tsx:44-53 | in a consistent ledger, each stored balance is the sum of the amounts up to and including its row |
| Ledger.SeedLedgerConsistent | src/components/accounting/UnifiedLedger.tsx:44-53 | the seeded rows follow the sign convention and the running balance, and the last balance, 96000, is the net balance |
| Ledger.SeedDefaultViewShowsAll | src/components/accounting/UnifiedLedger.tsx:36-53 | the initial search, type and January 2024 range show all seeded transactions |
| Incomes.TotalIncome | src/components/accounting/IncomeTracker.tsx:51 | with non-negative amounts, the total income is non-negative |
| Incomes.PendingIncome | src/components/accounting/IncomeTracker.tsx:52 | with non-negative amounts, the pending income is non-negative |
| Incomes.FilteredIncomes | src/components/accounting/IncomeTracker.tsx:46-49 | the search result is no longer than the list and holds only listed incomes whose description or source contains the term |
| Incomes.FilteredIncomesAreMatches | src/components/accounting/IncomeTracker.tsx:46-49 | the search keeps order and holds exactly the incomes whose description or source contains the term, each as often as in the list |
| Incomes.EmptySearchShowsAll | src/components/accounting/IncomeTracker.tsx:46-49 | an empty search shows every income |
| Incomes.PendingAtMostTotal | src/components/accounting/IncomeTracker.tsx:51-52 | with non-negative amounts, 0 <= pending income <= total income |
| Incomes.IncomeTracker.constructor | src/components/accounting/IncomeTracker.tsx:26-42 | the seeded incomes have distinct ids 1..n, and the form starts blank with status Received |
| Incomes.IncomeTracker.EditForm | src/components/accounting/IncomeTracker.tsx:156-189 | typing changes only the draft |
| Incomes.IncomeTracker.AddIncome | src/components/accounting/IncomeTracker.tsx:54-68 | adds exactly when all four fields are filled in. The new record, with a fresh id, goes at the head and the total grows by its amount; the form is reset and closed. Otherwise nothing changes |
| Expenses.TotalExpenses | src/components/accounting/ExpenseTracker.tsx:51 | with non-negative amounts, the total expenses are non-negative |
| Expenses.FilteredExpenses | src/components/accounting/ExpenseTracker.tsx:46-49 | the search result is no longer than the list and holds only listed expenses whose description or category contains the term |
| Expenses.FilteredExpensesAreMatches | src/components/accounting/ExpenseTracker.tsx:46-49 | the search keeps order and holds exactly the expenses whose description or category contains the term, each as often as in the list |
| Expenses.EmptySearchShowsAll | src/components/accounting/ExpenseTracker.tsx:46-49 | an empty search shows every expense |
| Expenses.ExpenseTracker.constructor | src/components/accounting/ExpenseTracker.tsx:26-42 | the seeded expenses have distinct ids 1..n, and the form starts blank with status Paid |
| Expenses.ExpenseTracker.EditForm | src/components/accounting/ExpenseTracker.tsx:155-188 | typing changes only the draft |
| Expenses.ExpenseTracker.AddExpense | src/components/accounting/ExpenseTracker.tsx:53-67 | adds exactly when all four fields are filled in. The new record, with a fresh id, goes at the head and the total grows by its amount; the form is reset. Otherwise nothing changes |
| Budgets.Percent | src/components/accounting/BudgetPlanner.tsx:36 | a non-zero whole gives the exact percentage. A positive whole with a non-negative part gives at least 100 exactly when part >= whole. A zero whole gives NaN for a zero part, +Infinity for a positive one and -Infinity for a negative one |
| Budgets.StatusOf | src/components/accounting/BudgetPlanner.tsx:53-57 | below 70 on track, 70 up to 90 a warning, 90 or more over budget; NaN and +Infinity are over budget |
| Budgets.StatusMonotone | src/components/accounting/BudgetPlanner.tsx:53-57 | a higher percentage never gives a less severe status |
| Budgets.AlertOnlyWhenOverBudget | src/components/accounting/BudgetPlanner.tsx:203-205 | the alert icon appears only on over-budget rows; exactly 90 and NaN are over budget without it |
| Budgets.TotalBudgeted | src/components/accounting/BudgetPlanner.tsx:34 | with non-negative budgets, the total budgeted is non-negative |
| Budgets.TotalSpent | src/components/accounting/BudgetPlanner.tsx:35 | with non-negative spending, the total spent is non-negative |
| Budgets.OverallProgress | src/components/accounting/BudgetPlanner.tsx:36 | a non-zero total budgeted gives the finite percentage with progress * budgeted = spent * 100; a zero total gives no finite value |
| Budgets.Remaining | src/components/accounting/BudgetPlanner.tsx:90 | the remaining figure is negative exactly when total spent exceeds total budgeted |
| Budgets.OverallProgressDefined | src/components/accounting/BudgetPlanner.tsx:34-36 | positive budgets give a positive total and a finite progress; no budgets give NaN |
| Budgets.AppendAddsToTotals | src/components/accounting/BudgetPlanner.tsx:34-35 | appending a budget adds its amounts to both totals |
| Budgets.SeedBudgetsStatuses | src/components/accounting/BudgetPlanner.tsx:19-25 | each seeded percentage is its exact ratio rounded down and falls in the same band. Equipment is over budget with the icon; the others are warnings |
| Budgets.BudgetPlanner.constructor | src/components/accounting/BudgetPlanner.tsx:19-32 | the seeded budgets have distinct ids 1..n, and the form starts blank with spent 0 |
| Budgets.BudgetPlanner.EditForm | src/components/accounting/BudgetPlanner.tsx:149-169 | typing changes only the draft |
| Budgets.BudgetPlanner.AddBudget | src/components/accounting/BudgetPlanner.tsx:38-51 | adds exactly when category and amount are filled in. The new budget, with a fresh id and its percentage, goes at the tail and both totals grow; the form is reset. Otherwise nothing changes |
| Reminders.RecordFrom | src/components/accounting/ReminderSystem.tsx:96-105 | a new reminder is pending, carries the given id, and has no amount exactly when the amount field was blank |
| Reminders.MarkedCompleted | src/components/accounting/ReminderSystem.tsx:113-117 | same length, and each reminder is completed when its id matches and unchanged otherwise |
| Reminders.MarkedCompletedSpec | src/components/accounting/ReminderSystem.tsx:113-117 | other reminders are untouched, matching ones become completed, and marking twice is marking once |
| Reminders.Deleted | src/components/accounting/ReminderSystem.tsx:119-121 | the list after a delete is no longer and holds only reminders of the list whose id differs |
| Reminders.DeletedSpec | src/components/accounting/ReminderSystem.tsx:119-121 | deletion keeps order and removes exactly the reminders with that id, keeping every copy of the others; an absent id changes nothing |
| Reminders.DeletedUniqueShortens | src/components/accounting/ReminderSystem.tsx:119-121 | deleting a reminder whose id is unique removes just that position |
| Reminders.DeleteThenAddDuplicatesId | src/components/accounting/ReminderSystem.tsx:94-121 | after a delete, the `length + 1` id of the next add can equal an existing id |
| Reminders.SeedDeleteTwoThenAdd | src/components/accounting/ReminderSystem.tsx:31-121 | on the seeded list, deleting reminder 2 and adding one gives two reminders with id 5 |
| Reminders.DaysUntilDue | src/components/accounting/ReminderSystem.tsx:123-129 | the ceiling of the millisecond difference is the due day number minus today's UTC day number: 0 on the due day, -1 the day after |
| Reminders.LabelFor | src/components/accounting/ReminderSystem.tsx:351-355 | zero or more days gives "days left" with that count; otherwise "days overdue" with the positive count |
| Reminders.Upcoming | src/components/accounting/ReminderSystem.tsx:149 | a reminder is upcoming exactly when it is listed, pending and due within 7 days (or already past due), and it appears as often as in the list |
| Reminders.OverdueList | src/components/accounting/ReminderSystem.tsx:150 | a reminder is in the overdue list exactly when it is listed with status overdue, and it appears as often as in the list |
| Reminders.CompletedList | src/components/accounting/ReminderSystem.tsx:151 | a reminder is in the completed list exactly when it is listed with status completed, and it appears as often as in the list |
| Reminders.TotalDue | src/components/accounting/ReminderSystem.tsx:199 | with non-negative amounts, the amount due is non-negative |
| Reminders.PastDuePendingIsUpcoming | src/components/accounting/ReminderSystem.tsx:149-151 | a pending reminder already past due counts as upcoming, not overdue or completed |
| Reminders.MarkCompletedNeverRaisesDue | src/components/accounting/ReminderSystem.tsx:199 | with non-negative amounts, marking a reminder completed never raises the total amount due |
| Reminders.ReminderSystem.constructor | src/components/accounting/ReminderSystem.tsx:31-92 | the seeded reminders and a blank form |
| Reminders.ReminderSystem.EditForm | src/components/accounting/ReminderSystem.tsx:85-92 | typing changes only the draft |
| Reminders.ReminderSystem.AddReminder | src/components/accounting/ReminderSystem.tsx:94-111 | adds exactly when a title and a due date are given. The new pending reminder, id `length + 1`, goes at the head; the form is reset. Otherwise nothing changes |
| Reminders.ReminderSystem.MarkCompleted | src/components/accounting/ReminderSystem.tsx:113-117 | the list becomes its marked-completed form; nothing else changes |
| Reminders.ReminderSystem.DeleteReminder | src/components/accounting/ReminderSystem.tsx:119-121 | the list loses the reminders with that id; nothing else changes |
| Loans.RecordFrom | src/components/accounting/LoanManagement.tsx:91-102 | a new loan is active, carries the given id, and its outstanding amount is its principal |
| Loans.InactiveLoanAddsNoEmi | src/components/accounting/LoanManagement.tsx:110-111 | a closed or overdue loan adds its outstanding amount to the total but nothing to the monthly EMI |
| Loans.ActiveLoanAddsToTotals | src/components/accounting/LoanManagement.tsx:110-112 | an active loan at the head adds its amount and its EMI, leaves the overdue count alone, and turns the EMI alert on |
| Loans.TotalLoanAmount | src/components/accounting/LoanManagement.tsx:110 | with non-negative outstanding amounts, the total outstanding is non-negative |
| Loans.TotalEmi | src/components/accounting/LoanManagement.tsx:111 | with non-negative EMIs, the monthly EMI total is non-negative |
| Loans.OverdueCount | src/components/accounting/LoanManagement.tsx:112 | the overdue count is at most the number of loans, and 0 exactly when no loan is overdue |
| Loans.OverdueCountStep | src/components/accounting/LoanManagement.tsx:112 | a loan adds one to the overdue count exactly when it is overdue, and nothing otherwise |
| Loans.TotalsBounded | src/components/accounting/LoanManagement.tsx:111 | with non-negative EMIs, the EMI total of the active loans is at most the sum of all EMIs |
| Loans.ShowsEmiAlert | src/components/accounting/LoanManagement.tsx:168 | the alert shows exactly when some loan is active, that is, exactly when the active-loan filter of the EMI total is non-empty |
| Loans.EmiAlertIffActiveLoan | src/components/accounting/LoanManagement.tsx:167-174 | the EMI alert shows exactly when the active-loan filter is non-empty; without the alert the EMI total is 0 |
| Loans.LoanManagement.constructor | src/components/accounting/LoanManagement.tsx:40-74 | the seeded loans have distinct ids 1..n, and the form starts blank |
| Loans.LoanManagement.EditForm | src/components/accounting/LoanManagement.tsx:204-244 | typing changes only the draft |
| Loans.LoanManagement.AddLoan | src/components/accounting/LoanManagement.tsx:83-108 | adds exactly when all five fields are filled in. The new active loan, with a fresh id, goes at the head and both totals grow; the overdue count is unchanged, the alert is shown and the form is reset. Otherwise nothing changes |
| Settings.WithCategory | src/components/accounting/AccountingSettings.tsx:92-116 | adding keeps the old list as a prefix and grows it by at most one; the result holds the old categories plus the new one when it is non-empty, and no others; a duplicate-free list stays duplicate-free |
| Settings.WithCategoryKeepsListASet | src/components/accounting/AccountingSettings.tsx:92-116 | adding keeps the list free of duplicates, adding twice is adding once, and a non-empty category is then present |
| Settings.WithoutCategory | src/components/accounting/AccountingSettings.tsx:118-136 | removal never lengthens the list, leaves no copy of the category, and adds no category |
| Settings.WithoutCategorySpec | src/components/accounting/AccountingSettings.tsx:118-136 | removal keeps order, drops exactly that category and keeps every other one; an absent category changes nothing |
| Settings.AddThenRemoveRestores | src/components/accounting/AccountingSettings.tsx:92-136 | adding a new category and then removing it restores the list |
| Settings.WithoutCategoryKeepsNoDuplicates | src/components/accounting/AccountingSettings.tsx:118-136 | removing a category keeps the list free of duplicates |
| Settings.Find | src/components/accounting/AccountingSettings.tsx:168 | `find` returns a currency of the table with that code, or nothing exactly when no code matches |
| Settings.FindsFirstWithCode | src/components/accounting/AccountingSettings.tsx:168 | `find` returns the first entry with the code |
| Settings.SymbolFor | src/components/accounting/AccountingSettings.tsx:168-173 | the symbol is never empty, and an unknown code falls back to the rupee sign |
| Settings.KnownCodesSelectTheirSymbol | src/components/accounting/AccountingSettings.tsx:168-173 | each listed currency code selects its own symbol |
| Settings.Pad2 | src/components/accounting/AccountingSettings.tsx:206 | `padStart(2, '0')` of a number below 100 is two decimal digits, tens then units, that read back as the number |
| Settings.MonthDay | src/components/accounting/AccountingSettings.tsx:204-207 | a picked date is written as five characters: two decimal digits, a dash, two decimal digits |
| Settings.MonthDayRoundTrip | src/components/accounting/AccountingSettings.tsx:204-207 | reading the digits back gives the picked month and day |
| Settings.AccountingSettings.constructor | src/components/accounting/AccountingSettings.tsx:21-40 | the initial settings: INR and the rupee sign, year start 04-01, and the seeded category lists free of duplicates |
| Settings.AccountingSettings.EditNewIncomeCategory | src/components/accounting/AccountingSettings.tsx:307 | typing changes only the income-category draft |
| Settings.AccountingSettings.EditNewExpenseCategory | src/components/accounting/AccountingSettings.tsx:338 | typing changes only the expense-category draft |
| Settings.AccountingSettings.AddIncomeCategory | src/components/accounting/AccountingSettings.tsx:92-103 | adds exactly when the draft is non-empty and not listed; the draft is then cleared and the list stays duplicate-free |
| Settings.AccountingSettings.AddExpenseCategory | src/components/accounting/AccountingSettings.tsx:105-116 | adds exactly when the draft is non-empty and not listed; the draft is then cleared and the list stays duplicate-free |
| Settings.AccountingSettings.RemoveIncomeCategory | src/components/accounting/AccountingSettings.tsx:118-126 | the income list loses that category and nothing else changes |
| Settings.AccountingSettings.RemoveExpenseCategory | src/components/accounting/AccountingSettings.tsx:128-136 | the expense list loses that category and nothing else changes |
| Settings.AccountingSettings.SelectCurrency | src/components/accounting/AccountingSettings.tsx:167-173 | the currency becomes the chosen code and the symbol its looked-up symbol |
| Settings.AccountingSettings.PickFinancialYearStart | src/components/accounting/AccountingSettings.tsx:204-207 | the year start becomes the picked date's `MM-DD`, or "NaN-NaN" when the date is blank |
| Soil.Score | src/pages/SoilAnalysis.tsx:79 | a status scores 45, 65 or 85, and 85 exactly when it is "good" |
| Soil.RoundedQuotient | src/pages/SoilAnalysis.tsx:78-80 | `Math.round(n / d)` is the integer r with r - 1/2 <= n/d < r + 1/2 |
| Soil.RoundedQuotientMonotone | src/pages/SoilAnalysis.tsx:78-80 | a larger sum never gives a smaller rounded average |
| Soil.RoundedQuotientBetween | src/pages/SoilAnalysis.tsx:78-80 | rounding keeps the average within any integer bounds of the exact average |
| Soil.OverallHealth | src/pages/SoilAnalysis.tsx:78-80 | the overall health of a non-empty list lies between 45 and 85 |
| Soil.ScoreSumBounds | src/pages/SoilAnalysis.tsx:78-80 | n scores sum to between 45n and 85n |
| Soil.ImprovingToGoodNeverLowers | src/pages/SoilAnalysis.tsx:78-80 | turning any parameter's status to good never lowers the overall health |
| Soil.LabelFor | src/pages/SoilAnalysis.tsx:191 | 80 and above excellent, 65 up to 80 good, below 65 needs attention |
| Soil.CountStatus | src/pages/SoilAnalysis.tsx:316-326 | the count of parameters with a status is at most their number; it is 0 exactly when no parameter has the status and the full number exactly when all have it |
| Soil.ScoreSumByStatus | src/pages/SoilAnalysis.tsx:78-80 | the score sum is 85 per good parameter, 65 per medium one and 45 per other one |
| Soil.StatusCountsDisjoint | src/pages/SoilAnalysis.tsx:78-80 | the good, medium and low counts together never exceed the number of parameters |
| Soil.SeedSummary | src/pages/SoilAnalysis.tsx:316-326 | the summary card's figures hold for the seeded list: 12 parameters, 9 good and 3 low, which together are all of them |
| Soil.SeedScoreSum | src/pages/SoilAnalysis.tsx:24-80 | the seeded scores sum to 900, derived from the 9 good and 3 low counts with no medium parameter |
| Soil.SeedHealthIsGood | src/pages/SoilAnalysis.tsx:24-80 | the seeded overall health is 75, labelled good |

## Left out

- Loans.LoanManagement.AddLoan: the amortised EMI formula (`Math.pow` on floating point) and the one-month step to
  the next due date are inputs to the method, not computed. The formula has no branch for a zero interest rate, where
  it divides 0 by 0 and gives a NaN EMI that then makes the EMI total NaN; the model's whole-number EMI cannot
  express that.
- Budgets.Percent: a finite quotient is the exact rational `part * 100 / whole`, not the nearest double that
  JavaScript computes. The double can differ from the exact value in its last bits, and that rounding, with any
  effect it has at the 70 and 90 band boundaries, is not modelled.
- Amounts are whole numbers (`int`); `parseFloat` of fractional or non-numeric text, and the NaN it can give, are not
  modelled. The loan interest rate is a `real`.
- Budgets.BudgetPlanner.AddBudget: a blank "spent" field, which `parseFloat` turns into NaN, is not modelled; the draft
  holds a number.
- Lower-casing is ASCII only; the Unicode case mapping of `toLowerCase` is not modelled.
- The wall clock is a parameter (milliseconds since the epoch). Dates are taken as UTC, so time-zone effects on day
  counts and on the `MM-DD` formatting are not modelled.
- Date strings that do not parse (Invalid Date) are not modelled, except a blank range bound or a blank picked date.
- Soil.OverallHealth requires a non-empty list; the page's list is a constant with twelve entries, and an empty list
  (NaN) cannot occur there.
- The soil image upload, its file reader and the 3-second analysis delay are I/O and timers, and are left out.
- Export of the ledger and of settings, the settings import, the save button and its alert timer are file and timer
  I/O, and are left out.
- Settings setters for language, date format, backup frequency and the notification switches are plain field
  assignments, and are not modelled as methods.
- The "this month" cards (total income times 0.7, total expenses times 0.6) and the expense tracker's fixed
  "Pending Payments" figure of 2,800 are constants on the page, not derived from the records, and are left out.
- The colour, badge and icon helpers and the overall-progress badge thresholds are presentation, and are left out.
- The dashboard, reports and financial overview pages are not part of this model.
