# Save-it: a verified model of the personal-finance core

Save-it is a browser application that keeps one financial document per user. It holds
transactions, budgets, debts, savings goals, accounts, assets, liabilities, loans given, bills,
habits and a wishlist, and stores it as JSON in the browser's local storage. The pages read the
document, change one array through the storage helpers, and write the whole document back. A
signed-in user can sync it with a cloud copy: a strictly newer cloud copy replaces the local
document, keeping the local currency; otherwise the arrays of both are merged by id, with local
records winning.

This project models that core in Dafny:

- `Storage`: the local store.
  - `Store` is a class whose `storage` field is the key-value storage.
  - Reading seeds the sample document when nothing is stored.
  - Every add, update, delete and toggle operation is a read, a change to one array and a save.
- `Calculations`: net worth, the monthly figures, the currency table and the debt payoff estimate.
- `Sync`: `mergeArrays` as a method over a map with its insertion order, proved against a
  value-level merge. The sync decision is a function, and the local part of `syncData` is a
  method on the store.
- `TransactionsPage`, `BudgetsPage`, `BillsPage`, `HabitsPage`, `SavingsPage`, `DebtsPage` and
  `AnalyticsPage`: each page's form handling, validation, derived figures, badges and orderings.
- `SpendingChart` and `IncomeExpenseChart`: the two charts.
- `Wrappers`, `Numbers`, `Seqs`, `Ids` and `Types`: shared vocabulary.
  - `Numbers` holds JavaScript division with Infinity and NaN, plus `Math.ceil` and `Math.round`.
  - `Seqs` holds filter, sum, `findIndex` and a sort.
  - `Ids` holds id lookup and deletion.

Conventions:

- Time values are milliseconds since the epoch.
- A habit's completed days are day numbers.
- "Now", "today" and the local calendar are parameters.
- A number typed into a form is `Option<real>`, where None stands for `NaN`.
- An empty date field is None.
- A record's `type` field is called `kind`.

## Model

| member | source | states |
|---|---|---|
| Storage.CurrencyIn | src/lib/storage.ts:20-24 | The currency preference is the stored text when it is non-empty, and "KES" otherwise or without a window; it is never empty. |
| Storage.DefaultData | src/lib/storage.ts:339-548 | The sample document carries the given currency in the document and every account, with 3 transactions, 3 budgets, 2 debts, 2 goals, 3 accounts, 2 assets, 1 liability, 1 loan, 2 bills, 2 habits and 2 wishlist items. |
| Storage.LoadFrom | src/lib/storage.ts:31-52 | The document read always has a non-empty currency. |
| Storage.LoadWhenNothingStored | src/lib/storage.ts:31-41 | Without a window, the read gives the sample in "KES" and writes nothing. With an empty storage, it gives the sample in the stored preference and persists exactly that. |
| Storage.SaveThenLoad | src/lib/storage.ts:43-57 | Save-then-load round trip: reading after saving `d` returns `d`, with a missing currency filled from the preference. Saving never changes the preference. |
| Storage.SaveAfterSeed | src/lib/storage.ts:36-57 | Whatever a read persisted is overwritten by the next save, and the preference is untouched. |
| Storage.ReadBack | src/lib/storage.ts:31-57 | A saved document with a currency reads back unchanged and seeds nothing; a second save overwrites the first; without a window a save changes no read. |
| Storage.LoadAfterSeed | src/lib/storage.ts:31-52 | Reading twice gives the same document, and the second read persists nothing more. |
| Storage.Toggled | src/lib/storage.ts:304-309 | An absent date is pushed at the end. A present date has its first occurrence (the `indexOf` index) spliced out, with the dates before and after it kept in order, so exactly one copy is removed. |
| Storage.ToggleTwice | src/lib/storage.ts:300-312 | Toggling twice restores an absent date's list exactly; for a date present at most once it restores membership and the multiset. |
| Storage.Store.constructor | src/lib/storage.ts:17-18 | The store starts on the given storage (keyed by the two storage keys), with the sample document as its seed. |
| Storage.Store.SetCurrency | src/lib/storage.ts:26-29 | Writes the preference key only when a window exists; a non-empty code then reads back. |
| Storage.Store.GetFinancialData | src/lib/storage.ts:31-52 | Returns `LoadFrom` of the old storage and leaves the storage seeded; the preference is unchanged. |
| Storage.Store.SaveFinancialData | src/lib/storage.ts:54-57 | The document key is overwritten when a window exists, and nothing changes otherwise. |
| Storage.Store.AddTransaction | src/lib/storage.ts:209-217 | Saves the read document with the transaction, stamped with the new id, in front (`unshift`). |
| Storage.Store.DeleteTransaction | src/lib/storage.ts:219-223 | Saves the read document without every transaction carrying the id. |
| Storage.Store.AddBudget | src/lib/storage.ts:59-67 | Saves the read document with the budget, stamped with the new id, appended. |
| Storage.Store.UpdateBudget | src/lib/storage.ts:69-76 | Merges the updates into the first budget with the id and saves; an unknown id saves nothing beyond the read's seeding. |
| Storage.Store.DeleteBudget | src/lib/storage.ts:78-82 | Saves the read document without every budget carrying the id. |
| Storage.Store.AddDebt | src/lib/storage.ts:84-92 | Appends the debt with the new id and saves. |
| Storage.Store.UpdateDebt | src/lib/storage.ts:94-101 | Merges the updates into the first debt with the id and saves; an unknown id saves nothing. |
| Storage.Store.DeleteDebt | src/lib/storage.ts:103-107 | Removes every debt with the id and saves. |
| Storage.Store.AddSavingsGoal | src/lib/storage.ts:109-117 | Appends the goal with the new id and saves. |
| Storage.Store.UpdateSavingsGoal | src/lib/storage.ts:119-126 | Merges the updates into the first goal with the id and saves; an unknown id saves nothing. |
| Storage.Store.DeleteSavingsGoal | src/lib/storage.ts:128-132 | Removes every goal with the id and saves. |
| Storage.Store.AddAccount | src/lib/storage.ts:134-142 | Appends the account with the new id and saves. |
| Storage.Store.UpdateAccount | src/lib/storage.ts:144-151 | Merges the updates into the first account with the id and saves; an unknown id saves nothing. |
| Storage.Store.DeleteAccount | src/lib/storage.ts:153-157 | Removes every account with the id and saves. |
| Storage.Store.AddAsset | src/lib/storage.ts:159-167 | Appends the asset with the new id and saves. |
| Storage.Store.UpdateAsset | src/lib/storage.ts:169-176 | Merges the updates into the first asset with the id and saves; an unknown id saves nothing. |
| Storage.Store.DeleteAsset | src/lib/storage.ts:178-182 | Removes every asset with the id and saves. |
| Storage.Store.AddLiability | src/lib/storage.ts:184-192 | Appends the liability with the new id and saves. |
| Storage.Store.UpdateLiability | src/lib/storage.ts:194-201 | Merges the updates into the first liability with the id and saves; an unknown id saves nothing. |
| Storage.Store.DeleteLiability | src/lib/storage.ts:203-207 | Removes every liability with the id and saves. |
| Storage.Store.AddLoanGiven | src/lib/storage.ts:225-233 | Appends the loan with the new id and saves. |
| Storage.Store.UpdateLoanGiven | src/lib/storage.ts:235-242 | Merges the updates into the first loan with the id and saves; an unknown id saves nothing. |
| Storage.Store.DeleteLoanGiven | src/lib/storage.ts:244-248 | Removes every loan with the id and saves. |
| Storage.Store.AddBill | src/lib/storage.ts:250-258 | Appends the bill with the new id and saves. |
| Storage.Store.UpdateBill | src/lib/storage.ts:260-267 | Merges the updates into the first bill with the id and saves; an unknown id saves nothing. |
| Storage.Store.DeleteBill | src/lib/storage.ts:269-273 | Removes every bill with the id and saves. |
| Storage.Store.AddHabit | src/lib/storage.ts:275-283 | Appends the habit with the new id and saves. |
| Storage.Store.UpdateHabit | src/lib/storage.ts:285-292 | Merges the updates into the first habit with the id and saves; an unknown id saves nothing. |
| Storage.Store.DeleteHabit | src/lib/storage.ts:294-298 | Removes every habit with the id and saves. |
| Storage.Store.ToggleHabitCompletion | src/lib/storage.ts:300-312 | Toggles the date in the first habit with the id and saves; an unknown id saves nothing. |
| Storage.Store.AddWishlistItem | src/lib/storage.ts:314-322 | Appends the item with the new id and saves. |
| Storage.Store.UpdateWishlistItem | src/lib/storage.ts:324-331 | Merges the updates into the first item with the id and saves; an unknown id saves nothing. |
| Storage.Store.DeleteWishlistItem | src/lib/storage.ts:333-337 | Removes every item with the id and saves. |
| Ids.DeleteById | src/lib/storage.ts:219-223 | Filtering by id keeps exactly the records whose id differs, leaves an array without the id unchanged, and distributes over concatenation. |
| Ids.FindById | src/lib/storage.ts:69-76 | `findIndex` by id gives -1 exactly when the id is absent; otherwise it gives the first index carrying the id. |
| Numbers.Div | src/app/budgets/page.tsx:187 | JavaScript division: finite with quotient times divisor equal to the dividend exactly for a non-zero divisor; otherwise +Infinity, -Infinity or NaN by the dividend's sign. |
| Numbers.Ceil | src/lib/calculations.ts:49 | `Math.ceil`: the least integer not below x. |
| Numbers.Round | src/app/habits/page.tsx:130 | `Math.round`: the nearest integer, with halves rounded up. |
| Numbers.DaysUntil | src/app/bills/page.tsx:126-132 | Whole days to a time, rounded up: (r-1) days < difference <= r days. |
| Calculations.NetWorthScope | src/lib/calculations.ts:3-7 | Net worth depends on goals and debts only; a new goal raises it by the goal's saved amount, and a new debt lowers it by the debt's remaining amount. |
| Calculations.NetWorth | src/lib/calculations.ts:3-7 | Goals' saved amounts minus debts' remaining amounts; `NetWorthScope` states its contract. |
| Calculations.MonthlyExpenses | src/lib/calculations.ts:9-16 | This month's expenses, summed as absolute amounts, are never negative. |
| Calculations.MonthlyIncome | src/lib/calculations.ts:18-25 | This month's income summed as stored; `MonthlyAfterPrepend` states how one transaction moves it. |
| Calculations.MonthlyAfterPrepend | src/lib/calculations.ts:9-25 | A new transaction moves only its own kind's monthly figure, and only when dated this month: expenses by the absolute amount, income by the signed amount. |
| Calculations.CurrencyConfig | src/lib/calculations.ts:27-39 | Exactly "KES", "USD" and "EUR" have a format entry carrying that code; an absent code means "KES" with locale "en-KE". |
| Calculations.DebtPayoffMonths | src/lib/calculations.ts:41-53 | Never (Infinity) exactly when the payment is not positive, or covers only the monthly interest at a positive rate (the logarithm of p/0). With zero interest it is the fewest months whose payments cover the balance. Otherwise it is the logarithmic formula on the monthly rate. |
| Calculations.PayoffExamples | src/lib/calculations.ts:46-52 | 1000 at 100 a month without interest takes 10 months. A payment of 0 never ends, and neither does 10 a month on 1000 at 12% a year; 20 a month there takes the logarithmic branch. |
| Sync.DedupMembers | src/contexts/auth-context.tsx:171-177 | A Map's keys after a series of `set` calls are exactly the keys set, each once. |
| Sync.LastWithIdPresent | src/contexts/auth-context.tsx:174-177 | The map holds an entry for exactly the ids that were set. |
| Sync.LastAppend | src/contexts/auth-context.tsx:174-177 | Setting local records after cloud records: a local id takes the local record; any other id keeps the cloud record. |
| Sync.SetEach | src/contexts/auth-context.tsx:174-177 | The `forEach`/`set` loop keeps the map in step with every record set so far: keys in first-insertion order, and the last record per id. |
| Sync.ValuesInOrder | src/contexts/auth-context.tsx:179 | `Array.from(values())` lists each key's entry in insertion order. |
| Sync.MergeArrays | src/contexts/auth-context.tsx:170-180 | The method computes exactly the value-level merge `Merge`. |
| Sync.Merge | src/contexts/auth-context.tsx:170-180 | The value-level merge; `MergeIds`, `MergeValues` and `MergeSelf` state its contract, and `MergeArrays` computes it. |
| Sync.MergeIds | src/contexts/auth-context.tsx:170-180 | The merged ids are the union of both sides' ids, each once: cloud ids in cloud order, then local-only ids in local order. |
| Sync.MergeValues | src/contexts/auth-context.tsx:176-177 | On an id collision the merged record is the (last) local one; a cloud-only id keeps the (last) cloud record. |
| Sync.MergeSelf | src/contexts/auth-context.tsx:170-180 | Merging an array with unique ids with itself gives it back. |
| Sync.DedupAppend | src/contexts/auth-context.tsx:171-179 | Deduplicating a concatenation gives the first part's keys, then the second part's new keys. |
| Sync.Plan | src/contexts/auth-context.tsx:105-161 | A local document is saved exactly when the fetch error is absent or "not found" and a cloud document came back; otherwise the local document is uploaded unchanged. |
| Sync.PlanDecision | src/contexts/auth-context.tsx:113-144 | A strictly newer cloud document replaces the local one except for the local currency. Otherwise every array is merged and the local income and currency survive. |
| Sync.NewerRule | src/contexts/auth-context.tsx:115-122 | A tie is not newer; a NaN time is never newer or older; a missing time compares as 0. |
| Sync.MergeDocumentsSelf | src/contexts/auth-context.tsx:129-143 | Merging a document with unique ids with itself changes nothing. |
| Sync.MergeDocuments | src/contexts/auth-context.tsx:129-143 | The local document with every array merged; `MergeAll`, `MergeDocumentsSelf` and `PlanDecision` state its contract. |
| Sync.SyncData | src/contexts/auth-context.tsx:91-167 | Returns `Plan` of the local document read; the storage ends saved with the planned document, or only seeded when the local document is uploaded as is. |
| Sync.MergeAll | src/contexts/auth-context.tsx:130-143 | The merging branch's object is the local document with all eleven arrays merged. |
| TransactionsPage.StoredAmount | src/app/transactions/page.tsx:65 | The stored amount keeps the typed amount's magnitude and is non-positive for an expense and non-negative for income. |
| TransactionsPage.BumpBudget | src/app/transactions/page.tsx:76-84 | Bumping a budget changes the budgets array only and keeps its length. |
| TransactionsPage.Submitted | src/app/transactions/page.tsx:57-84 | The document an accepted submit saves; `SubmitEffect` and `TotalsAfterSubmit` state its contract. |
| TransactionsPage.SubmitEffect | src/app/transactions/page.tsx:57-84 | With unique budget ids (ids come from `Date.now()`, see "## Left out"): the new transaction goes first with the new id and signed amount. An expense raises only the first budget of its category, by the absolute amount. Income, or a category with no budget, changes no budget, and nothing else changes. |
| TransactionsPage.HandleSubmit | src/app/transactions/page.tsx:57-95 | A rejected form changes nothing; an accepted one saves `Submitted` of the read document. |
| TransactionsPage.BumpExpenseBudget | src/app/transactions/page.tsx:76-84 | Reads, finds the category's budget, and saves the bumped document; without a budget it only seeds. |
| TransactionsPage.BumpFound | src/app/transactions/page.tsx:78-82 | The found budget's id leads back to a budget whose update is exactly `BumpBudget`. |
| TransactionsPage.HandleDelete | src/app/transactions/page.tsx:97-102 | Deleting a transaction saves the document without it and never changes a budget. |
| TransactionsPage.Filtered | src/app/transactions/page.tsx:43-55 | The type and category filters; `FilteredIsSelection` states its contract. |
| TransactionsPage.FilteredIsSelection | src/app/transactions/page.tsx:43-55 | A transaction is listed exactly when stored and passing both filters; the list keeps stored order; "all"/"all" lists everything. |
| TransactionsPage.TotalIncome | src/app/transactions/page.tsx:104 | Total income, in absolute amounts, is never negative. |
| TransactionsPage.TotalExpenses | src/app/transactions/page.tsx:106 | Total expenses, in absolute amounts, are never negative. |
| TransactionsPage.TotalsAfterSubmit | src/app/transactions/page.tsx:104-108 | A submitted transaction raises its own kind's total by the absolute amount and moves the net cash flow by exactly the stored signed amount. |
| BudgetsPage.SubmitEffect | src/app/budgets/page.tsx:37-58 | A new budget is appended with nothing spent. An edit replaces category, limit and period of the first budget with the id, keeping its id and `spent`. Nothing else changes, and a vanished id saves nothing. |
| BudgetsPage.Submitted | src/app/budgets/page.tsx:37-58 | The document an accepted submit saves; `SubmitEffect` states its contract. |
| BudgetsPage.HandleSubmit | src/app/budgets/page.tsx:37-64 | A form without a category or without a positive limit changes nothing; otherwise the store update or add runs. |
| BudgetsPage.TotalBudget | src/app/budgets/page.tsx:89 | The sum of the limits; `RemainingTotal` states its contract. |
| BudgetsPage.TotalSpent | src/app/budgets/page.tsx:90 | The sum of the amounts spent; `RemainingTotal` states its contract. |
| BudgetsPage.Progress | src/app/budgets/page.tsx:187 | Spent over limit in percent under JavaScript division; `OverBudgetRule` and `ShownProgressRule` state its contract. |
| BudgetsPage.StatusOf | src/app/budgets/page.tsx:228 | "Over budget!" or the amount left; `ShownProgressRule` states its contract. |
| BudgetsPage.RemainingTotal | src/app/budgets/page.tsx:89-90 | Total budget minus total spent is the sum of what each budget has left, and it is non-negative when none is overspent. |
| BudgetsPage.OverBudgetRule | src/app/budgets/page.tsx:187-189 | With a positive limit the budget is over exactly when spent > limit. With a negative limit it is over exactly when spent < limit. With a zero limit (Infinity or NaN) it is over exactly when anything was spent. |
| BudgetsPage.ShownProgressRule | src/app/budgets/page.tsx:187-228 | The bar is at most 100 for a non-zero limit and 100 when over; below that it shows the progress; "left" is non-negative with a positive limit. |
| BillsPage.BillData | src/app/bills/page.tsx:47-56 | An empty reminder or empty notes become absent; every other field is the dialog's. |
| BillsPage.EditReplacesAll | src/app/bills/page.tsx:58-59 | An edit replaces every field of the bill except its id. |
| BillsPage.SubmitEffect | src/app/bills/page.tsx:45-62 | A new bill is appended with the new id. An edit rewrites the first bill with the id and keeps that id. Nothing else changes, and a vanished id saves nothing. |
| BillsPage.Submitted | src/app/bills/page.tsx:45-62 | The document a submit saves; `SubmitEffect` states its contract. |
| BillsPage.HandleSubmit | src/app/bills/page.tsx:45-66 | Without validation, the bill is updated or added through the store. |
| BillsPage.MonthlyAmount | src/app/bills/page.tsx:106-121 | The monthly amount times the months per period (`MonthsPerPeriod`) is the bill's amount (30 days or 4 weeks a month, 3 or 12 months per period), and it is non-negative for a non-negative amount. |
| BillsPage.MonthlyTotal | src/app/bills/page.tsx:105-124 | The sum of the monthly amounts; `MonthlyTotalRule` states its contract. |
| BillsPage.DaysUntilDue | src/app/bills/page.tsx:126-132 | Whole days to the due time, rounded up; `Numbers.DaysUntil`, `UpcomingByTime` and `StatusByTime` state its contract. |
| BillsPage.UpcomingBills | src/app/bills/page.tsx:146-148 | The bills due within a week, soonest first; `UpcomingRule` and `UpcomingByTime` state its contract. |
| BillsPage.MonthlyTotalRule | src/app/bills/page.tsx:105-124 | No bills cost 0, a bill adds its monthly amount, and non-negative amounts give a non-negative total. |
| BillsPage.UpcomingRule | src/app/bills/page.tsx:146-148 | The upcoming list holds exactly the bills due within 0..7 days, with multiplicities, soonest first. |
| BillsPage.UpcomingByTime | src/app/bills/page.tsx:126-132 | Upcoming exactly when the due time lies after one day ago and at most 7 days ahead. |
| BillsPage.StatusOf | src/app/bills/page.tsx:323-372 | "Overdue by n" exactly for negative day counts, with n positive; "Due today" exactly at 0; "Due in n" with n positive otherwise. |
| BillsPage.StatusByTime | src/app/bills/page.tsx:323-372 | Overdue once the due time is a full day past; due today within the last day; due in days while still ahead. |
| HabitsPage.HabitData | src/app/habits/page.tsx:41-50 | An empty description or target becomes absent. An edit takes the edited habit's completed days and creation time; a new habit starts with no days, created at the current time `now` (ms). |
| HabitsPage.EditReplacesAll | src/app/habits/page.tsx:52-53 | An edit replaces every field of the habit except its id with the dialog's record. |
| HabitsPage.Submitted | src/app/habits/page.tsx:39-56 | The document a submit saves; `SubmitEffect` states its contract. |
| HabitsPage.SubmitEffect | src/app/habits/page.tsx:39-56 | A new habit is appended with the new id, no days, created at `now`. An edit of any stored id rewrites the first habit with that id with the dialog's record, including the dialog copy's days and creation time, keeps its id, and leaves the others alone. A vanished id saves nothing. |
| HabitsPage.HandleSubmit | src/app/habits/page.tsx:39-60 | Without validation, the habit is updated or added through the store, stamped with the current time `now` when new. |
| HabitsPage.CurrentStreak | src/app/habits/page.tsx:108-126 | The streak is at most the number of completed dates. Every day of the run ending today is completed, and the day before is not unless the dates ran out. No completion today gives 0. |
| HabitsPage.CompletionRate | src/app/habits/page.tsx:128-131 | No rate without a target or with a target of 0; otherwise the completed count over the target in percent, rounded half up. |
| HabitsPage.CompletionRateRule | src/app/habits/page.tsx:128-131 | A target met exactly shows 100%, and a positive target never shows a negative rate. |
| HabitsPage.Last7Days | src/app/habits/page.tsx:133-144 | Seven days, oldest first, ending today. |
| HabitsPage.CompletedTodayRule | src/app/habits/page.tsx:158 | The "today" counter (`CompletedToday`, counting habits for which `IsCompletedToday` holds) is at most the number of habits and equals it exactly when every habit is done today. |
| HabitsPage.CompletedTodayWithinTotal | src/app/habits/page.tsx:157-158 | Habits done today never outnumber the total completions (`TotalCompletions`). |
| SavingsPage.SubmitEffect | src/app/savings/page.tsx:43-69 | A new goal is appended with the new id. An edit replaces every field of the first goal with the id except that id. Nothing else changes, and a vanished id saves nothing. |
| SavingsPage.Submitted | src/app/savings/page.tsx:43-69 | The document an accepted submit saves; `SubmitEffect` states its contract. |
| SavingsPage.HandleSubmit | src/app/savings/page.tsx:43-80 | A form missing a name, a number or a deadline changes nothing; otherwise the store update or add runs. |
| SavingsPage.ContributeEffect | src/app/savings/page.tsx:90-92 | A contribution sets the goal's saved amount to the dialog's amount plus the contribution and changes nothing else. With a current dialog, the remaining amount drops by exactly the contribution. A vanished id saves nothing. |
| SavingsPage.HandleContribute | src/app/savings/page.tsx:82-97 | Without a goal, or with an amount that is not a positive number, nothing happens; otherwise the store update runs. |
| SavingsPage.TotalRemainingRule | src/app/savings/page.tsx:135-137 | The remaining total is the sum of what each goal lacks, and it is non-negative while no goal is overshot. |
| SavingsPage.OrderedRule | src/app/savings/page.tsx:139-260 | Every goal is shown once (as a multiset); high-priority goals come first and low-priority goals last. |
| SavingsPage.CompleteRule | src/app/savings/page.tsx:263-268 | With a positive target the goal is complete exactly when saved >= target. With a zero target it is complete exactly when anything is saved. With a negative target it is complete exactly when saved <= target. |
| SavingsPage.Progress | src/app/savings/page.tsx:263 | Saved over target in percent under JavaScript division; `CompleteRule` and `CardRule` state its contract. |
| SavingsPage.IsComplete | src/app/savings/page.tsx:268 | `progress >= 100`; `CompleteRule` and `ContributionCompletes` state its contract. |
| SavingsPage.DaysRemaining | src/app/savings/page.tsx:265-266 | Whole days to the deadline, rounded up; `CardRule` states its contract. |
| SavingsPage.ContributionCompletes | src/app/savings/page.tsx:82-97 | A contribution never undoes completion, and one covering what remains completes the goal. |
| SavingsPage.CardRule | src/app/savings/page.tsx:263-268 | Overdue exactly once the deadline is a full day past; the bar is at most 100 for a non-zero target and 100 when complete. |
| DebtsPage.SubmitEffect | src/app/debts/page.tsx:55-94 | A new debt is appended with the new id. An edit replaces every field of the first debt with the id except that id. Nothing else changes, and a vanished id saves nothing. |
| DebtsPage.Submitted | src/app/debts/page.tsx:55-94 | The document an accepted submit saves; `SubmitEffect` states its contract. |
| DebtsPage.HandleSubmit | src/app/debts/page.tsx:55-107 | A form missing a name, one of four numbers or a due date changes nothing; otherwise the store update or add runs. |
| DebtsPage.DueSoonIds | src/app/debts/page.tsx:43-53 | The set holds exactly the ids of the debts due within 0..7 days. |
| DebtsPage.DueSoonExact | src/app/debts/page.tsx:43-53 | With unique ids, a debt is badged exactly when it is due soon. |
| DebtsPage.DueSoonByTime | src/app/debts/page.tsx:46-48 | Due soon exactly when there is a due date lying after one day ago and at most 7 days ahead. |
| DebtsPage.TotalsRule | src/app/debts/page.tsx:144-146 | Total debt plus total paid equals total original, and all three are non-negative for sane balances. |
| DebtsPage.OverallProgressRule | src/app/debts/page.tsx:290 | For sane balances the overall progress lies in 0..100 and is 100 exactly when nothing is owed. |
| DebtsPage.OverallProgress | src/app/debts/page.tsx:290 | Paid over original in percent, 0 without debt; `OverallProgressRule` states its contract. |
| DebtsPage.OrderedRule | src/app/debts/page.tsx:307-308 | Every debt is shown once, in non-increasing interest rate. |
| DebtsPage.ProgressRule | src/app/debts/page.tsx:310 | For a sane balance the bar lies in 0..100 and is 100 exactly when paid off. |
| DebtsPage.Progress | src/app/debts/page.tsx:310 | Paid over original for one debt in percent under JavaScript division; `ProgressRule` states its contract. |
| DebtsPage.PayoffShownRule | src/app/debts/page.tsx:311-315 | "N/A" exactly when there is no positive minimum payment or it covers only the monthly interest at a positive rate; without interest, the fewest months whose payments cover the balance. |
| DebtsPage.PayoffShown | src/app/debts/page.tsx:359-361 | "N/A" for an infinite estimate, otherwise the estimate; `PayoffShownRule` states its contract. |
| AnalyticsPage.SavingsRate | src/app/analytics/page.tsx:32 | 0 without income. Otherwise rate times income equals (income - expenses) times 100; the rate is non-negative exactly when spending is within income, at most 100, and 100 exactly when nothing was spent. |
| AnalyticsPage.DebtToIncome | src/app/analytics/page.tsx:33-34 | 0 without income. Otherwise ratio times 12 times income equals debt times 100, and the ratio exceeds 40 exactly when the debt exceeds 4.8 months of income; it is non-negative for non-negative debt. |
| AnalyticsPage.MetricsOf | src/app/analytics/page.tsx:29-34 | Expenses are non-negative, the rate is at most 100 with income, and the rate and ratio are those of the figures. |
| AnalyticsPage.OverBudgetCategories | src/app/analytics/page.tsx:60 | One category name per budget with spent > limit. |
| AnalyticsPage.WarningFree | src/app/analytics/page.tsx:36-68 | No warning is pushed exactly when the rate is >= 10, the ratio is <= 40 and no budget is over. |
| AnalyticsPage.InsightsParts | src/app/analytics/page.tsx:36-75 | An insight is listed exactly when it is one of the four parts. |
| AnalyticsPage.WarningsRule | src/app/analytics/page.tsx:36-66 | Low savings exactly below 10, great savings exactly from 20, high debt exactly above 40, and over budget exactly when some budget is over. |
| AnalyticsPage.SuccessRule | src/app/analytics/page.tsx:69-75 | Positive net worth is shown exactly when net worth > 0 and no warning applies, and nothing else is ever listed. |
| AnalyticsPage.InsightsOrder | src/app/analytics/page.tsx:36-75 | The list is in push order with each alert at most once, and the two savings alerts exclude each other. |
| AnalyticsPage.Insights | src/app/analytics/page.tsx:36-75 | The pushes build exactly `InsightsOf`. |
| AnalyticsPage.LabelsRule | src/app/analytics/page.tsx:97-108 | Of the card labels (`SavingsLabel`, `DebtLabel`): "Needs improvement" exactly below 10 and "Excellent" exactly from 20. A debt warning always comes with "High", and a ratio of exactly 40 is "High" without a warning. |
| AnalyticsPage.SavingsScore | src/app/analytics/page.tsx:158-163 | At most 100, full exactly from a 20% rate, and non-negative for a non-negative rate. |
| AnalyticsPage.DebtScore | src/app/analytics/page.tsx:171-177 | Non-negative, at most 100 for a non-negative ratio, 0 exactly from 100, and 100 exactly at 0. |
| AnalyticsPage.BudgetScore | src/app/analytics/page.tsx:185-196 | Lies in 0..100, is 0 with no budgets, and with budgets is 100 exactly when none is over. |
| AnalyticsPage.OverspentAgrees | src/app/analytics/page.tsx:60 | This page's over-budget test agrees with the budgets page's for limits >= 0, and the two never both hold for a negative limit. |
| AnalyticsPage.ProjectedMonthlySpending | src/app/analytics/page.tsx:77-78 | The projection is 30 times the daily average, which is this month's expenses again. |
| SpendingChart.TallyRule | src/components/spending-chart.tsx:13-25 | After n expenses the record has a key for each category met, holding that category's total over them. |
| SpendingChart.CategoryTotals | src/components/spending-chart.tsx:13-25 | One key per expense category, in first-seen order, holding that category's sum; no other key. |
| SpendingChart.ExpenseCategories | src/components/spending-chart.tsx:13-14 | The categories met are exactly those of the expense transactions. |
| SpendingChart.TopCategoriesOrder | src/components/spending-chart.tsx:27-33 | min(n, 6) bars, largest first. |
| SpendingChart.TopCategoriesLargest | src/components/spending-chart.tsx:27-33 | The bars are entries of the record, and every entry left out is no larger than any bar shown. |
| SpendingChart.TopCategories | src/components/spending-chart.tsx:27-33 | Sorted largest first and cut to six; `TopCategoriesOrder` and `TopCategoriesLargest` state its contract. |
| SpendingChart.Entries | src/components/spending-chart.tsx:27-31 | One entry per key of the record, in its key order; `EntriesDistinct` and `ChartData` state its contract. |
| SpendingChart.EntriesDistinct | src/components/spending-chart.tsx:27-31 | The entries have distinct categories, each once, since the record's keys are distinct. |
| SpendingChart.BarsAreTotals | src/components/spending-chart.tsx:13-31 | Every bar is an expense category with that category's total. |
| SpendingChart.LeftOutSmaller | src/components/spending-chart.tsx:27-33 | An expense category without a bar totals no more than any bar, and fewer than six bars leave no expense category out. |
| SpendingChart.ChartData | src/components/spending-chart.tsx:13-33 | From the transactions: at most six bars with distinct expense categories, each holding its category's total, largest first. A category left out totals no more than any bar, and with fewer than six bars none is left out. |
| IncomeExpenseChart.DaysInMonth | src/components/income-expense-chart.tsx:15 | 28 to 31 days, with February 29 exactly in Gregorian leap years. |
| IncomeExpenseChart.FromIndex | src/components/income-expense-chart.tsx:15 | The month with a given index is valid and has that index. |
| IncomeExpenseChart.SetMonthBack | src/components/income-expense-chart.tsx:14-15 | `setMonth` with the day of month kept: the target month, or the next one when the day does not exist there; `BucketsNearIntended` and `BucketsEarlyInMonth` state its contract. |
| IncomeExpenseChart.Buckets | src/components/income-expense-chart.tsx:13-21 | The six buckets as written; `BucketsNearIntended`, `BucketsEarlyInMonth` and `BucketsCounterexample` state its contract. |
| IncomeExpenseChart.Last6Months | src/components/income-expense-chart.tsx:13-21 | The six intended buckets; `Last6MonthsRule` states its contract. |
| IncomeExpenseChart.Last6MonthsIndex | src/components/income-expense-chart.tsx:13-21 | Intended bucket i lies 5-i months before the current month. |
| IncomeExpenseChart.Last6MonthsRule | src/components/income-expense-chart.tsx:13-21 | The intended buckets are six valid, consecutive, distinct months ending with the current one. |
| IncomeExpenseChart.BucketsNearIntended | src/components/income-expense-chart.tsx:13-21 | Each bucket as written is the intended month or the next, and the last is the current month. |
| IncomeExpenseChart.BucketsEarlyInMonth | src/components/income-expense-chart.tsx:13-21 | On days 1 to 28 the buckets as written are the intended ones. |
| IncomeExpenseChart.BucketsCounterexample | src/components/income-expense-chart.tsx:13-21 | On 31 October 2025 the buckets are May, Jul, Jul, Aug, Oct, Oct: June and September are missing. |
| IncomeExpenseChart.ChartData | src/components/income-expense-chart.tsx:23-40 | One point per bucket, labelled with that bucket's month. |
| IncomeExpenseChart.PointValue | src/components/income-expense-chart.tsx:24-33 | A point's value on a line is the total of that kind dated in its month. |
| IncomeExpenseChart.LineTotal | src/components/income-expense-chart.tsx:23-40 | Over distinct months, a line adds up to that kind's total over the transactions in any of the months. |
| IncomeExpenseChart.ChartTotals | src/components/income-expense-chart.tsx:23-40 | Over the intended buckets, each line adds up to its kind's total over the last six months, counting each transaction once. |
| IncomeExpenseChart.ChartAsWrittenCounterexample | src/components/income-expense-chart.tsx:13-40 | As written, on 31 October 2025 an October income of 100 adds 200 to the income line. |
| IncomeExpenseChart.ChartCorrected | src/components/income-expense-chart.tsx:13-40 | Over the intended buckets the same income adds 100. |

## Left out

- Rendering, dialogs, toasts, `confirm` prompts, navigation, the tour, and `Intl` formatting. Currency text, `toFixed` and month labels are not modelled. Each page's `handleDelete` after the confirmation is the store's delete.
- JSON text is not modelled. A stored value is a document, a text, or something that fails to parse. Any non-empty stored text fails to parse.
- Dates are integers, as ISO strings and `new Date(...)` are not modelled. Time zones are not modelled: "today", the local calendar and "now" are parameters. An invalid date exists only where the model gives it a meaning: a debt without a due date.
- Floating point is modelled by `real`, with Infinity and NaN only where a page divides. NaN form numbers are None, and a NaN stored amount is not modelled.
- Calculations.DebtPayoffMonths: apart from the interest-only payment, which gives Infinity, the logarithmic branch is returned symbolically. Its value, including the NaN and -Infinity it gives when the payment is below the interest or the rate is negative, is not computed. None of those values is Infinity, so the "N/A" text of `DebtsPage.PayoffShownRule` is exact.
- Sync: the uploads, `setIsSyncing`, the last-updated write, the network and `syncDataToCloud` are not modelled. The result says which document is uploaded.
- Sync: every fetch error other than "PGRST116" uploads the local document, schema and permission errors included; "PGRST116" falls through to the document check. No error kind aborts the sync.
- Calculations.MonthlyIncome: this month's income is summed with its sign, while expenses are summed as absolute amounts.
- Calculations.CurrencyConfig: only KES, USD and EUR have an entry; any other code has none, and formatting it fails.
- Storage.CurrencyIn: the stored value under the currency key is read as text. A document or an unreadable value there reads as "KES", where the code would return whatever is stored; no modelled write puts one there.
- SavingsPage.OrderedRule, DebtsPage.OrderedRule, BillsPage.UpcomingRule, SpendingChart.TopCategoriesOrder: the stability of the sort is not proved. Ties keep some order of the tied records.
- SpendingChart.CategoryTotals: `Object.entries` lists integer-like keys first. The order given is the first-seen order, and only its contents are stated.
- HabitsPage.CurrentStreak: the source compares local calendar days with UTC date keys. The model uses one day numbering for both.
- Storage.Store: the store's seed is a constructor field. Its contracts hold for any seed document in the preference's currency, and the constructor sets it to `DefaultData`.
- `Date.now()` ids are parameters (`newId`), so two adds within one millisecond, and the duplicate ids they would give, are not modelled; `TransactionsPage.SubmitEffect` assumes unique budget ids for that reason.

## Findings

| source | as written | input that shows it | evidently intended | confidence | as-written member | corrected member |
|---|---|---|---|---|---|---|
| src/components/income-expense-chart.tsx:13-21 | Bucket i moves today's date back 5-i months with `setMonth`, which keeps the day of the month and runs over into the next month when that day does not exist. | Today is 31 October 2025: the buckets are May, Jul, Jul, Aug, Oct, Oct. | Six consecutive months ending with the current one. | not executed | IncomeExpenseChart.BucketsCounterexample | IncomeExpenseChart.Last6MonthsRule |
| src/components/income-expense-chart.tsx:23-40 | The points are computed over those buckets, so a repeated month is drawn twice. | Today is 31 October 2025 and there is one October income of 100: the income line adds up to 200. | Each transaction of the last six months counted once. | not executed | IncomeExpenseChart.ChartAsWrittenCounterexample | IncomeExpenseChart.ChartTotals |
