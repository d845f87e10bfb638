# Personal finance dashboard: a Dafny model

This project models the client-side logic of a personal finance dashboard written in
TypeScript and React. The dashboard keeps a list of income and expense transactions,
summarises them, charts them and takes new ones through a form or a receipt scan.

The model covers these parts:

- **Data and the ledger.** The transaction record, the category lists, the icon table and
  the mock transactions (`Ledger`, `Data`).
- **Derived views.** The summary cards, the top-five category lists, the spending pie, the
  daily income/expense chart, the report filter with its year options, and the recent list
  with its icons (`SummaryCards`, `CategoryTotals`, `TopCategories`, `SpendingBreakdown`,
  `IncomeExpenseChart`, `ReportsTab`, `RecentTransactions`).
- **Stateful components.** The dashboard page's live list, the add-transaction form, the
  categories hook with its module-level cache, the category settings dialog, the AI advisor
  card, and the two receipt-scanning buttons (`DashboardPage`, `TransactionForm`,
  `UseCategories`, `CategorySettings`, `AIAdvisor`, `TransactionFab`, `ScanFab`).
- **The advice action and the seed script.** The server action that builds the advice input
  (`AdviceAction`), and the seed script's `--key=value` parser with its missing-user guard
  (`SeedArgs`).

Modelling conventions:

- Amounts are integers counting hundredths of the currency unit, so the mock amounts are exact:
  75.50 is 7550.
- A date is `Date(year, month, day)` with a month from 0 to 11, as `getMonth` gives it, and is
  compared by calendar day.
- The transaction field `type` is called `kind`.
- JavaScript `Record` accumulators become association lists kept in insertion order.
- A loop that builds a value becomes a `method` proved equal to a recursive specification
  function. The properties are then proved about that function.
- A component whose handlers update state becomes a `class`. Each handler is a method whose
  contract gives the whole new state.
- Whatever a handler awaits is a parameter of type `Outcome` (`Succeeded(value)` or `Failed`).
  This covers Firestore, the AI flows, the camera and `getUserMedia`.
- The cleared `finally` flags are the state after the awaited call settles.

`Seqs` holds the generic sequence machinery:

- a stable insertion sort by an integer key;
- prefixes and suffixes;
- sums over a sequence;
- subsequences and duplicate-freedom.

## Model

| member | source | states |
|---|---|---|
| Data.OtherInBothLists | src/lib/data.ts:24-25 | `Other` is in both the expense and the income category list |
| Data.LabelsDistinct | src/lib/data.ts:24-25 | neither category list repeats a label |
| Data.LabelsHaveIcons | src/lib/data.ts:24-39 | every label of both lists has an icon entry and belongs to the `Transaction.category` union |
| Data.MockTransactionsWellFormed | src/lib/data.ts:5-21 | every mock transaction has a positive amount, a category from the union and a valid date |
| Data.MockIdsDistinct | src/lib/data.ts:12-21 | the mock ids are pairwise distinct |
| Data.MockNewestFirst | src/lib/data.ts:12-21 | the mock list never has a later date after an earlier one |
| Ledger.DayNumberOrder | src/lib/data.ts:3 | on valid dates, the day number used as a sort key orders dates chronologically, and equal keys mean the same day |
| Ledger.OfTypeMembers | src/components/dashboard/summary-cards.tsx:14-19 | `filter(t => t.type === k)` keeps exactly the transactions of type `k`, in their order |
| Ledger.OfTypePermutation | src/components/dashboard/summary-cards.tsx:14-19 | filtering a reordered list gives a reordering of the filtered list |
| Ledger.TypesPartitionSum | src/components/dashboard/summary-cards.tsx:14-19 | the income sum plus the expense sum is the sum of all amounts, as the type has two values |
| SummaryCards.Summarize | src/components/dashboard/summary-cards.tsx:20 | the balance is income minus expenses |
| SummaryCards.SummaryCoversAll | src/components/dashboard/summary-cards.tsx:14-19 | income plus expenses is the total of all amounts |
| SummaryCards.SummaryPermutationInvariant | src/components/dashboard/summary-cards.tsx:14-20 | all three figures are unchanged by any reordering of the transactions |
| SummaryCards.SummaryAppend | src/components/dashboard/summary-cards.tsx:14-20 | appending an income raises income and balance by its amount and keeps expenses; an expense raises expenses and lowers balance by its amount |
| CategoryTotals.TallyLookup | src/components/dashboard/top-categories.tsx:22-25 | the accumulated total of a category is the sum of that category's amounts |
| CategoryTotals.TallyLabels | src/components/dashboard/top-categories.tsx:22-24 | the accumulator has each category once, and exactly the categories that occur |
| CategoryTotals.TallySum | src/components/dashboard/top-categories.tsx:18-27 | the totals add up to the sum of all amounts |
| CategoryTotals.TallyEntry | src/components/dashboard/top-categories.tsx:18-27 | each entry holds the sum of its own category, and that category occurs |
| CategoryTotals.TallyLength | src/components/dashboard/top-categories.tsx:18-27 | there is one entry per distinct category |
| CategoryTotals.TallyNonNegative | src/components/dashboard/top-categories.tsx:25 | non-negative amounts give non-negative totals |
| TopCategories.CategoryTotalsByType | src/components/dashboard/top-categories.tsx:18-27 | the loop's per-type accumulators are the tallies of the expense and of the income transactions, kept apart even for a shared category name |
| TopCategories.SortAndSlice | src/components/dashboard/top-categories.tsx:29-34 | the result has min(5, n) entries taken from the input, in non-increasing order of total |
| TopCategories.TopEntryTotal | src/components/dashboard/top-categories.tsx:18-33 | every listed entry holds the sum of its category's amounts for that type, and that category occurs with that type |
| TopCategories.TopLength | src/components/dashboard/top-categories.tsx:29-34 | each top list has min(5, distinct categories of that type) entries |
| TopCategories.TopEmptyWithoutType | src/components/dashboard/top-categories.tsx:29-37 | with no transaction of a type, its top list is empty |
| TopCategories.LeftOutNotLarger | src/components/dashboard/top-categories.tsx:32-33 | a category left out means the list is full, and its total is at most the fifth entry's |
| TopCategories.ListedTotalBounded | src/components/dashboard/top-categories.tsx:39-40 | the card's total is at most the per-type sum, and equals it when there are at most five categories |
| SpendingBreakdown.Fill | src/components/dashboard/spending-breakdown-chart.tsx:69 | a configured category gets its colour and any other gets `hsl(var(--chart-5))` |
| SpendingBreakdown.ExpenseTotals | src/components/dashboard/spending-breakdown-chart.tsx:58-64 | the loop's accumulator is the tally of the expense transactions |
| SpendingBreakdown.ToSlices | src/components/dashboard/spending-breakdown-chart.tsx:66-70 | one slice per entry, in order, with its category, amount and fill |
| SpendingBreakdown.TotalIsExpenseSum | src/components/dashboard/spending-breakdown-chart.tsx:73-75 | the total is the sum of all expense amounts |
| SpendingBreakdown.SlicePerCategory | src/components/dashboard/spending-breakdown-chart.tsx:57-66 | one slice per distinct expense category, holding that category's expense sum; only expenses contribute |
| SpendingBreakdown.EmptyIffNoExpense | src/components/dashboard/spending-breakdown-chart.tsx:57-77 | the chart is empty exactly when there is no expense |
| IncomeExpenseChart.DataByDate | src/components/dashboard/income-expense-chart.tsx:41-52 | the loop's accumulator is the per-day bucket list |
| IncomeExpenseChart.DayBucketsDays | src/components/dashboard/income-expense-chart.tsx:41-45 | one bucket per distinct day, and exactly the days that occur |
| IncomeExpenseChart.DayBucketsTotals | src/components/dashboard/income-expense-chart.tsx:46-50 | a day's income is its income sum and its expense the sum of its non-income amounts |
| IncomeExpenseChart.BucketTotals | src/components/dashboard/income-expense-chart.tsx:43-50 | every bucket holds its day's sums and its day occurs |
| IncomeExpenseChart.ChartData | src/components/dashboard/income-expense-chart.tsx:57 | at most 30 buckets are shown |
| IncomeExpenseChart.ChartBucketTotals | src/components/dashboard/income-expense-chart.tsx:41-57 | every shown bucket holds its day's income and expense sums |
| IncomeExpenseChart.ChartAscending | src/components/dashboard/income-expense-chart.tsx:56 | the shown buckets are strictly ascending by day |
| IncomeExpenseChart.ChartLength | src/components/dashboard/income-expense-chart.tsx:55-57 | min(30, distinct days) buckets are shown |
| IncomeExpenseChart.ChartKeepsLatestDays | src/components/dashboard/income-expense-chart.tsx:55-57 | any day left out lies before every shown day |
| IncomeExpenseChart.ChartSumsWhenShort | src/components/dashboard/income-expense-chart.tsx:41-57 | with at most 30 days, the shown income and expense add up to the overall sums |
| IncomeExpenseChart.ChartEmpty | src/components/dashboard/income-expense-chart.tsx:60 | the chart is empty exactly when there are no transactions |
| ReportsTab.GenerateYearOptions | src/components/dashboard/reports-tab.tsx:20-28 | the loop gives the year options, which hold the current year and every transaction's year, strictly descending |
| ReportsTab.YearOptionsMembers | src/components/dashboard/reports-tab.tsx:21-26 | a year is offered exactly when it is the current year or some transaction's year |
| ReportsTab.YearOptionsDescending | src/components/dashboard/reports-tab.tsx:24-27 | the options are strictly descending, so no year repeats |
| ReportsTab.YearOptionsOnlyCurrent | src/components/dashboard/reports-tab.tsx:21-26 | the options are just the current year exactly when no transaction falls in another year, including the empty list |
| ReportsTab.FilteredFacts | src/components/dashboard/reports-tab.tsx:43-54 | the filtered list is an order-keeping subsequence that holds exactly the transactions matching the selected year and month; on another tab it holds all |
| ReportsTab.FilteredKeepsAll | src/components/dashboard/reports-tab.tsx:44-52 | with year and month both -1, or off the reports tab, every transaction is kept |
| DashboardPage.ConvertField | src/app/dashboard/page.tsx:42 | a timestamp is converted and a stored value passed through |
| DashboardPage.ToTransaction | src/app/dashboard/page.tsx:39-44 | the id is the document id unless the document stores its own `id`; the other fields are copied |
| DashboardPage.Mapped | src/app/dashboard/page.tsx:36-45 | one transaction per document, in snapshot order |
| DashboardPage.Page.OnSnapshot | src/app/dashboard/page.tsx:35-50 | the list becomes the documents mapped and sorted newest first, and the loading flag clears |
| DashboardPage.Page.OnSnapshotError | src/app/dashboard/page.tsx:51-54 | the list is kept and the loading flag clears |
| DashboardPage.Page.UserEffect | src/app/dashboard/page.tsx:27-29 | a signed-in user sets the loading flag and the list is kept |
| DashboardPage.SignedOutVisit | src/app/dashboard/page.tsx:21-60 | a signed-out visitor is redirected and sees the spinner |
| DashboardPage.ListedNewestFirst | src/app/dashboard/page.tsx:48 | on valid dates, no entry is dated after an earlier entry |
| DashboardPage.ListedPermutation | src/app/dashboard/page.tsx:36-48 | the list has one entry per document and is a reordering of them; same-day entries keep document order |
| DashboardPage.ListedFromDocs | src/app/dashboard/page.tsx:36-45 | every entry comes from a document, with that document's id when no document stores an `id` |
| AdviceAction.MockIncome | src/app/dashboard/actions.ts:8-10 | the income handed to the advisor is 575000 hundredths (5750) |
| AdviceAction.ProjectAll | src/app/dashboard/actions.ts:12-18 | the projection keeps length and order, each item copying date, description, amount, type and category |
| AdviceAction.ProjectionForgetsId | src/app/dashboard/actions.ts:8-23 | lists that differ only in ids give the same advice input |
| AdviceAction.GetFinancialAdvice | src/app/dashboard/actions.ts:25-31 | a success returns the flow's result; any failure becomes the fixed message "Failed to retrieve financial advice from AI." |
| AIAdvisor.Advisor.StartRequest | src/components/dashboard/ai-advisor.tsx:15-17 | loading is set, the error cleared and the advice emptied |
| AIAdvisor.Advisor.FinishRequest | src/components/dashboard/ai-advisor.tsx:19-26 | a result sets the advice, a failure sets the fixed error; loading clears and the button is enabled again |
| AIAdvisor.Advisor.HandleGetAdvice | src/components/dashboard/ai-advisor.tsx:14-27 | after the whole handler, a success shows the insights with no error and a failure shows the fixed error with no advice |
| RecentTransactions.Recent | src/components/dashboard/recent-transactions.tsx:25-41 | the first min(10, n) transactions in order, empty exactly when there are none |
| RecentTransactions.SignedAmount | src/components/dashboard/recent-transactions.tsx:27-30 | the formatted amount with `+` for income and `-` for expense |
| RecentTransactions.IconName | src/components/dashboard/recent-transactions.tsx:46 | the table's icon name when present and non-empty, `Shapes` when absent |
| RecentTransactions.EveryCategoryNamed | src/lib/data.ts:27-39 | every category of the union has its own icon name |
| RecentTransactions.AsWrittenAlwaysFallback | src/components/dashboard/recent-transactions.tsx:14-46 | the lookup as written renders the fallback icon for every category |
| RecentTransactions.PascalCase | src/components/dashboard/recent-transactions.tsx:15 | the converted name has no hyphen and starts upper-case |
| RecentTransactions.DynamicIcon | src/components/dashboard/recent-transactions.tsx:14-18 | the converted lookup renders the exported icon for the converted name, or the fallback |
| RecentTransactions.DynamicIconResolves | src/components/dashboard/recent-transactions.tsx:14-46 | with the conversion, every category whose icon is exported renders it |
| RecentTransactions.PascalCaseOfPair | src/lib/data.ts:28 | `w-v` becomes `W` + rest of `w` + `V` + rest of `v`, as in `utensils-crossed` to `UtensilsCrossed` |
| TransactionForm.Issues | src/components/dashboard/add-transaction-form.tsx:24-30 | each message is reported exactly when its field fails: amount not positive, empty category, no day selected (`z.date()` on a cleared calendar), empty description |
| TransactionForm.PassesIff | src/components/dashboard/add-transaction-form.tsx:24-30 | values pass exactly with a positive amount, a category, a selected day and a description |
| TransactionForm.BlankFails | src/components/dashboard/add-transaction-form.tsx:43-71 | the default and reset values fail validation with all three messages |
| TransactionForm.Toggled | src/components/dashboard/add-transaction-form.tsx:102-108 | a toggle sets the type and clears the category, keeping amount, date and description |
| TransactionForm.ToggleAsksForCategory | src/components/dashboard/add-transaction-form.tsx:102-108 | after a toggle the form fails again for want of a category |
| TransactionForm.OfferedCategories | src/components/dashboard/add-transaction-form.tsx:150 | the offered list has no repeats, includes `Other` and draws from the category union |
| TransactionForm.SelectableIff | src/components/dashboard/add-transaction-form.tsx:187 | a day is selectable exactly from 1900-01-01 to today, both included |
| TransactionForm.Form.Toggle | src/components/dashboard/add-transaction-form.tsx:102-108 | a value toggles the form, an empty value changes nothing; the toggle and the form's type agree |
| TransactionForm.Form.Fill | src/components/dashboard/add-transaction-form.tsx:124-210 | the amount, category, date and description fields take what the user enters, a cleared calendar included; the type and the toggle are untouched |
| TransactionForm.Form.Submit | src/components/dashboard/add-transaction-form.tsx:52-81 | invalid values send nothing; valid values send the values plus `createdAt`, a success resets the form for the current type and a failure keeps it; loading clears |
| UseCategories.CategoryCache.Reset | src/hooks/use-categories.ts:63-67 | the cache is emptied and no longer answers fetches |
| UseCategories.CategoriesHook.Fetch | src/hooks/use-categories.ts:21-44 | a cache hit answers without the backend; a success stores and shows the lists; a failure shows the defaults and leaves the cache unfetched; loading ends false. Both callers clear the cache first, so the hit branch is never reached as written (see Findings) |
| UseCategories.CategoriesHook.UserChanged | src/hooks/use-categories.ts:46-60 | a signed-in user clears the cache and fetches; no user shows the defaults and stops loading |
| UseCategories.CategoriesHook.Mutate | src/hooks/use-categories.ts:63-67 | the cache is invalidated, so the backend is always asked |
| UseCategories.SwitchUser | src/hooks/use-categories.ts:46-51 | a second user sees the backend's lists or the defaults, never the first user's cache |
| UseCategories.SecondMountRefetches | src/hooks/use-categories.ts:46-51 | as written, a hook mounted after another's successful load asks the backend again and shows its answer or the defaults, never the cached lists |
| UseCategories.UserChangedFixed | src/hooks/use-categories.ts:46-60 | as intended, the cache is cleared only for a different user; the backend is asked exactly when there is a user and the cache is not already that user's; a hit shows the cached lists |
| UseCategories.SecondMountReadsCache | src/hooks/use-categories.ts:9-26 | as intended, a second hook for the same user reads the shared cache and does not call the backend |
| UseCategories.FailureRetries | src/hooks/use-categories.ts:46-67 | a failed load shows the defaults; a later `mutate` then asks the backend whatever the load gave, and shows its answer or the defaults |
| CategorySettings.TrimEmptyIff | src/components/category-settings-dialog.tsx:71 | trimming leaves nothing exactly when the text is all white space |
| CategorySettings.TrimFacts | src/components/category-settings-dialog.tsx:71 | the trimmed text is a slice with only white space cut off either end, and trimming twice changes nothing |
| CategorySettings.AddedFacts | src/components/category-settings-dialog.tsx:70-76 | an accepted add appends exactly the trimmed text and grows the list by one; a blank or present value changes nothing |
| CategorySettings.AddedKeepsDistinct | src/components/category-settings-dialog.tsx:71-72 | a list without repeats keeps none after an add |
| CategorySettings.AddedKeepsTrimmed | src/components/category-settings-dialog.tsx:71-72 | an add only appends non-empty, trimmed labels |
| CategorySettings.RemovedFacts | src/components/category-settings-dialog.tsx:79-82 | removing at a position drops exactly that label and keeps the order; the splice's negative and too-large indices are modelled |
| CategorySettings.RemovedKeepsDistinct | src/components/category-settings-dialog.tsx:81 | a list without repeats keeps none after a removal |
| CategorySettings.ChangeCanDuplicate | src/components/category-settings-dialog.tsx:62-65 | an edit is not checked, so it can repeat a label |
| CategorySettings.Dialog.Sync | src/components/category-settings-dialog.tsx:34-38 | once the hook has loaded, the dialog copies its lists |
| CategorySettings.Dialog.AddCategory | src/components/category-settings-dialog.tsx:68-77 | the chosen list becomes the list after the add and the other list is kept; only the chosen type's input is cleared, and only when the add took place |
| CategorySettings.Dialog.RemoveCategory | src/components/category-settings-dialog.tsx:79-83 | the chosen list loses the label at that index; the other list and both inputs are kept |
| CategorySettings.Dialog.ChangeCategory | src/components/category-settings-dialog.tsx:62-66 | only that position of the chosen list changes; the length and the other list are kept |
| CategorySettings.Dialog.Save | src/components/category-settings-dialog.tsx:40-60 | the edited lists are sent; a success triggers the re-fetch and closes the dialog; a failure leaves it open with the edits and the hook untouched |
| TransactionFab.FormFor | src/components/dashboard/transaction-fab.tsx:94 | a scanned type sets the dialog content, and so the form dialog's title, to that type, never to the scanner |
| TransactionFab.Fab.OnDialogOpenChange | src/components/dashboard/transaction-fab.tsx:30-35 | closing clears both the content and the scanned result, so the dialog is closed |
| TransactionFab.Fab.HandleFabClick | src/components/dashboard/transaction-fab.tsx:37-40 | the chosen action's dialog opens and the menu folds |
| TransactionFab.Fab.ToggleFab | src/components/dashboard/transaction-fab.tsx:136 | the main button flips the menu |
| TransactionFab.Fab.CameraEffect | src/components/dashboard/transaction-fab.tsx:42-65 | the camera answer is recorded only while the scanner is shown |
| TransactionFab.Fab.OnFormSubmit | src/components/dashboard/transaction-fab.tsx:185 | the callback handed to the form clears the content, closing the dialog, and keeps the scanned result; the form never calls it (see Findings) |
| TransactionFab.Fab.CaptureAndAnalyze | src/components/dashboard/transaction-fab.tsx:78-107 | a success stores the result and opens the form for its type; a failure closes the dialog; scanning ends false after the call, but stays set on the no-context return |
| TransactionFab.ScanToForm | src/components/dashboard/transaction-fab.tsx:30-94 | a scan from a fresh page sets the dialog content to the scanned type with the result stored, and closing the dialog forgets the result |
| TransactionFab.AddAsWritten | src/components/dashboard/transaction-fab.tsx:181-187 | as written, adding from the dialog sends the entry exactly when it is valid, and the dialog stays open whatever the save does |
| TransactionFab.AddThenCloses | src/components/dashboard/transaction-fab.tsx:181-187 | as intended, the dialog closes exactly when a valid entry was saved, and stays open on a rejected or failed entry |
| TransactionFab.StuckWithoutContext | src/components/dashboard/transaction-fab.tsx:78-87 | without a 2D context the scanner stays busy and capture stays disabled |
| ScanFab.Scanner.OnOpenChange | src/components/dashboard/scan-fab.tsx:89 | the dialog's open state follows its trigger and close |
| ScanFab.Scanner.CameraEffect | src/components/dashboard/scan-fab.tsx:23-51 | the camera is asked for exactly while the dialog is open, and its answer recorded |
| ScanFab.Scanner.CaptureAndAnalyze | src/components/dashboard/scan-fab.tsx:53-85 | a success emits the result unchanged, switches to the add-transaction tab and closes; a failure keeps dialog and tab; scanning ends false, except on the no-context return |
| ScanFab.ScanOnce | src/components/dashboard/scan-fab.tsx:67-74 | a successful scan hands over exactly that receipt, once, and closes on the add-transaction tab |
| ScanFab.FailThenRetry | src/components/dashboard/scan-fab.tsx:75-84 | after a failed scan the dialog stays open on the same tab and capture is enabled again |
| ScanFab.ClosedNeverAsks | src/components/dashboard/scan-fab.tsx:24 | with the dialog closed the camera is not asked for |
| SeedArgs.KeyText | scripts/seed.js:23 | the key is the text before the first `=` |
| SeedArgs.ValueText | scripts/seed.js:23 | the value is absent without `=`, else the `=`-free text after the first `=` up to the next `=` or the end |
| SeedArgs.DropDashesFacts | scripts/seed.js:25 | only the first `--` in the key is cut out; a key without one is kept |
| SeedArgs.OnlyFirstDashes | scripts/seed.js:25 | `--a--b` is stored as `a--b` |
| SeedArgs.RejectedAddsNothing | scripts/seed.js:24 | an argument without `=`, with an empty key or with an empty value adds nothing |
| SeedArgs.ParsedHas | scripts/seed.js:22-27 | a key is present exactly when some argument writes it |
| SeedArgs.ParsedLastWins | scripts/seed.js:22-27 | a present key holds the value of the last argument writing it |
| SeedArgs.ParsedValuesNonEmpty | scripts/seed.js:24 | every stored value is non-empty |
| SeedArgs.ParseArgs | scripts/seed.js:22-28 | the loop over `argv` from the third entry on gives the specified parse |
| SeedArgs.Run | scripts/seed.js:30-48 | without a user id the exit status is 1 and nothing is seeded; otherwise seeding runs for that id and the status is 1 only if it fails |
| SeedArgs.UsageSeedsFor | scripts/seed.js:1-27 | the documented `-- --userId=ID` call parses to exactly `userId = ID` |

## Left out

- Floating point: amounts are exact hundredths, so the model has no rounding in sums. The percentages and progress bars derived from totals are not modelled.
- Locale formatting (`Intl.NumberFormat`, `date-fns` `format`) and time zones are not modelled. Dates are calendar days, so the time of day and the UTC parsing of `"1900-01-01"` are not captured. `SignedAmount` takes the formatted text as input.
- The sorts compare valid calendar dates. The behaviour of `new Date(...)` on an unparsable date (`NaN` in a comparator) is not modelled.
- `Object.entries` and `Object.values` list integer-like keys first; the model keeps plain insertion order.
- `Array.prototype.sort` is modelled as the stable sort the standard now requires.
- Firebase is passed in as outcomes and documents: auth, Firestore reads and writes, `onSnapshot` and the listener's unsubscribe. `createdAt` is converted on the page but not carried in `Transaction`.
- Camera and canvas are not modelled: `getUserMedia`, stopping tracks, `toDataURL` and image drawing. Only the flags they set are kept, as booleans and outcomes.
- The browser `CustomEvent` bus of the scan button is modelled only as the sequence of dispatched details. The listeners are not part of this model.
- React scheduling is not modelled: batching, effect order, stale closures and the mutation of state arrays shared through the shallow copy in the settings dialog. Each handler runs to completion as one method.
- The AI flows' prompts and models are not part of this model; the advice and the receipt are opaque outcomes. The scanned receipt is handed to the form as `initialData`, a prop the form does not declare, so no use of it is modelled.
- `defaultExpenseCategories` and `defaultIncomeCategories` are not defined in `src/lib/data.ts`. The hook takes the defaults as a constructor parameter.
- `src/lib/seed.ts` (the seed data and its batch write) is not part of this model. `SeedArgs.Run` takes the seeding's outcome as a parameter.
- Toasts, console output and the redirect itself (`router.push`) are left out. The redirect is the predicate `ShouldRedirect`.
- CategorySettings.Dialog.ChangeCategory: requires an index inside the list. The inputs are rendered from the list, so the component cannot be called otherwise. Writing past the end of a JavaScript array is not modelled.
- CategorySettings.Dialog.Save: treats `mutate()`'s re-fetch as finished before the dialog closes. The source does not await it.
- SeedArgs.Step: treats the accumulator as a plain map. Assigning the key `__proto__` on a JavaScript object does not add an entry, and this is not modelled.

- TransactionFab.FormFor: sets only the dialog content and its title. The form does not declare the `transactionType` prop it is handed and always starts as an expense, with the expense categories, so after an income scan the income dialog holds an expense form. The model's `Form` constructor starts as an expense for the same reason.

## Findings

| source | as written | input that shows it | evidently intended | confidence | as-written member | corrected member |
|---|---|---|---|---|---|---|
| src/components/dashboard/recent-transactions.tsx:14-46 | `DynamicIcon` looks up the icon table's kebab-case name directly in the PascalCase export namespace of the icon library | category `Transport`: the table gives `bus`, there is no export `bus`, so the `Shapes` fallback renders (likewise `utensils-crossed` for `Food & Drinks`) | convert the name to PascalCase (`Bus`, `UtensilsCrossed`) before the lookup | not executed | RecentTransactions.AsWrittenAlwaysFallback | RecentTransactions.DynamicIconResolves |
| src/components/dashboard/transaction-fab.tsx:181-187 | the dialog passes `onFormSubmit={() => setDialogContent(null)}` to `AddTransactionForm`, which declares and destructures only `onTransactionAdded`, so the callback is never called | open the income or expense dialog, enter a valid entry and submit with the save succeeding: the form resets and the dialog stays open | the form calls `onFormSubmit` after a successful save, closing the dialog | not executed | TransactionFab.AddAsWritten | TransactionFab.AddThenCloses |
| src/hooks/use-categories.ts:9-51 | the `user` effect clears `categoryCache` and `hasFetched` before every fetch, and `mutate` does too, so the cache-hit branch of `fetchCategories` never runs | mount a second component using `useCategories` while signed in, after the first has loaded: it calls `getUserCategories` again | keep the cache across mounts and clear it only when the signed-in user changes, as the comment on the cache says | not executed | UseCategories.SecondMountRefetches | UseCategories.SecondMountReadsCache |
