# Budget tracker front end: a Dafny model

This project models the logic in a React/Redux personal-budget web client. Users record incomes, expenses, spending categories and savings goals. Administrators manage user accounts. The model covers:

- the month filters, totals, per-category breakdown, percentage distribution, six-month trend and budget status of the analysis page;
- the monthly view and the add/edit forms of the incomes page;
- the expense form, payloads and list labels of the expenses page;
- search, pagination and edit/add flow of the categories page;
- the progress bar, completion badge and add-goal/add-savings handlers of the savings page;
- the reducers of the categories, incomes, expenses, admin-users and savings-goals slices;
- the token/role decision of the protected route.

The modelling choices:

- Records are datatypes (`Records`).
- Each slice's state is a class whose methods are its reducer cases. A settled thunk is an input to these methods.
- Each page's React state is a class whose methods are its event handlers. A request a handler dispatches is the method's `Option` result.
- The JavaScript built-ins the code relies on are defined once, in `Common` and `Text`, with the properties the callers need. These cover `filter`, `reduce`, `map`, `findIndex`, `slice`, `||` truthiness, `??`, `Object.keys` order of a counting object, the default `sort`, `toLowerCase`, `includes`, `trim`, `Number` and `toString`.

Amounts are unbounded integers. Percentages are exact reals.

## Model

| member | source | states |
|---|---|---|
| Common.OrElse | src/store/slices/incomes.slice.ts:67 | `text \|\| fallback`: a missing or empty text gives the fallback, any other text itself |
| Common.Filter | src/pages/Analysis/AnalysisPage.tsx:40-43 | `filter` keeps exactly the elements passing the test, never lengthening the list |
| Common.FilterAppend | src/pages/Analysis/AnalysisPage.tsx:40-43 | filtering distributes over concatenation, so the original order is kept |
| Common.FilterSameTest | src/pages/Analysis/AnalysisPage.tsx:40-43 | two tests that agree on every element select the same list |
| Common.FilterCount | src/pages/Analysis/AnalysisPage.tsx:40-43 | a kept element keeps its multiplicity, a dropped one has none |
| Common.FilterKeepsAll | src/store/slices/incomes.slice.ts:75 | a filter that drops nothing returns its input |
| Common.PrefixSnoc | src/pages/Analysis/AnalysisPage.tsx:54-57 | the prefix one longer is the prefix plus the next element (the `forEach` step) |
| Common.NoDuplicatesInit | src/pages/Analysis/AnalysisPage.tsx:56 | a key list without duplicates stays so without its last key, which was not among the others |
| Common.Dedup | src/pages/Analysis/AnalysisPage.tsx:58 | the distinct keys in first-occurrence order, without duplicates and with the same members |
| Common.DedupSnoc | src/pages/Analysis/AnalysisPage.tsx:56 | a new key joins the distinct list at the end, a known key changes nothing |
| Common.Bump | src/pages/Analysis/AnalysisPage.tsx:56 | `map[k] = (map[k] \|\| 0) + a` adds `a` to key `k` (0 if absent) and leaves every other key alone |
| Common.AddKey | src/pages/Analysis/AnalysisPage.tsx:56 | the object's key list after the assignment contains the old keys and `k` |
| Common.SumAppend | src/pages/Analysis/AnalysisPage.tsx:44 | the `reduce` sum is additive over concatenation |
| Common.SumSnoc | src/pages/Analysis/AnalysisPage.tsx:50 | one more element adds its amount to the sum |
| Common.SumPointwise | src/pages/Incomes/IncomesPage.tsx:72-76 | lists with equal amounts position by position have equal sums |
| Common.SumSplit | src/pages/Expenses/ExpensesPage.tsx:31 | the sum splits into the part passing a filter and the part failing it |
| Common.RemoveById | src/store/slices/incomes.slice.ts:75 | delete-by-id keeps exactly the records with another id |
| Common.RemoveByIdIdempotent | src/store/slices/adminUserSlice.ts:91 | deleting the same id twice removes nothing more |
| Common.RemoveByIdSplit | src/store/slices/categoriesSlice.ts:117 | deleting by id keeps the relative order of what stays |
| Common.PrependThenRemove | src/store/slices/incomes.slice.ts:71-75 | `unshift` then delete of a fresh id restores the list |
| Common.ReplaceById | src/store/slices/incomes.slice.ts:79 | `map` replacement: same length, each position replaced exactly when its id matches |
| Common.ReplaceByIdFacts | src/store/slices/adminUserSlice.ts:79-81 | replacement keeps every position's id, and is the identity when no id matches |
| Common.Slice | src/pages/Analysis/AnalysisPage.tsx:41 | `slice(start, end)` with both bounds clipped to the length |
| Common.TakeLast | src/pages/Analysis/AnalysisPage.tsx:79 | `slice(-n)`: the last `min(n, length)` elements, a suffix of the input |
| Text.BelowIrreflexive | src/pages/Analysis/AnalysisPage.tsx:78 | the default sort order (code-unit lexicographic) is irreflexive |
| Text.BelowTransitive | src/pages/Analysis/AnalysisPage.tsx:78 | the order is transitive |
| Text.BelowTotal | src/pages/Analysis/AnalysisPage.tsx:78 | any two distinct strings are ordered |
| Text.BelowAsymmetric | src/pages/Analysis/AnalysisPage.tsx:78 | the order is asymmetric |
| Text.Insert | src/pages/Analysis/AnalysisPage.tsx:78 | inserting adds exactly one copy and keeps an ascending list of distinct keys ascending |
| Text.ConsAscending | src/pages/Analysis/AnalysisPage.tsx:78 | a head below every element of an ascending list keeps it ascending |
| Text.HeadBelowRest | src/pages/Analysis/AnalysisPage.tsx:78 | everything inserted behind the head of an ascending list lies above it |
| Text.InsertAfterHead | src/pages/Analysis/AnalysisPage.tsx:78 | inserting behind the head keeps the list ascending |
| Text.InsertBeforeHead | src/pages/Analysis/AnalysisPage.tsx:78 | inserting in front of a larger head keeps the list ascending |
| Text.Sort | src/pages/Analysis/AnalysisPage.tsx:78 | `sort()` returns a permutation, strictly ascending for distinct keys |
| Text.Lower | src/pages/Categories/CategoriesPage.tsx:81 | `toLowerCase` maps each character, keeping the length |
| Text.LowerIdempotent | src/pages/Categories/CategoriesPage.tsx:81 | lower-casing twice is lower-casing once |
| Text.IncludesIffOccurs | src/pages/Categories/CategoriesPage.tsx:81 | `includes` holds exactly when the needle occurs at some position |
| Text.Includes | src/pages/Categories/CategoriesPage.tsx:81 | a needle longer than the text is never included |
| Text.TrimStart | src/pages/Categories/CategoriesPage.tsx:42 | the result is a suffix starting with a non-blank character, and only white space was cut |
| Text.TrimEnd | src/pages/Categories/CategoriesPage.tsx:42 | the result is a prefix ending in a non-blank character, and only white space was cut |
| Text.TrimEmptyIffBlank | src/pages/Categories/CategoriesPage.tsx:42 | `trim() === ""` exactly when the text is all white space |
| Text.Trim | src/pages/Categories/CategoriesPage.tsx:42 | the result sits inside the text with only white space around it, and neither begins nor ends with white space |
| Text.TrimKeeps | src/pages/Categories/CategoriesPage.tsx:42 | text with no white space at either end is unchanged |
| Text.DigitChar | src/pages/Expenses/ExpensesPage.tsx:66 | a digit's character is between '0' and '9' |
| Text.Digits | src/pages/Expenses/ExpensesPage.tsx:66 | a natural's decimal form is non-empty and all digits |
| Text.Show | src/pages/Expenses/ExpensesPage.tsx:66 | `toString()` of an integer is never empty |
| Text.DigitsRoundTrip | src/pages/Expenses/ExpensesPage.tsx:66 | reading back the digits gives the number |
| Text.ParseSignedShow | src/pages/Expenses/ExpensesPage.tsx:66 | reading a signed decimal form gives the number back |
| Text.ParseShow | src/pages/Expenses/ExpensesPage.tsx:52-66 | `Number(n.toString()) == n` |
| Text.ParseNumber | src/pages/Expenses/ExpensesPage.tsx:52-66 | blank text reads as 0, a run of digits reads as its decimal value, and any other text that reads is an optionally signed run of digits |
| Records.FindCategory | src/pages/Analysis/AnalysisPage.tsx:55 | `find`: None exactly when no category has the id, otherwise the first one that does |
| Records.CategoryName | src/pages/Analysis/AnalysisPage.tsx:55 | `find(...)?.name \|\| fallback`: a name other than the fallback belongs to a category with the id; with no such category, the fallback |
| Records.FirstMatchWins | src/pages/Expenses/ExpensesPage.tsx:167-174 | the first category carrying the id decides the name |
| Analysis.MonthKey | src/pages/Analysis/AnalysisPage.tsx:41 | `date.slice(0, 7)` is the first (up to) seven characters of the date |
| Analysis.MonthlyIncome | src/pages/Analysis/AnalysisPage.tsx:40-43 | exactly the incomes whose month key is the selected month |
| Analysis.MonthlyExpenses | src/pages/Analysis/AnalysisPage.tsx:46-49 | exactly the expenses whose month key is the selected month |
| Analysis.TotalIncome | src/pages/Analysis/AnalysisPage.tsx:44 | 0 for a month without incomes |
| Analysis.TotalSpent | src/pages/Analysis/AnalysisPage.tsx:50 | 0 for a month without expenses |
| Analysis.IncomeSplit | src/pages/Analysis/AnalysisPage.tsx:40-44 | the month's incomes keep the list order and their total is additive |
| Analysis.ExpenseSplit | src/pages/Analysis/AnalysisPage.tsx:46-50 | the same for expenses |
| Analysis.TotalSpentSnoc | src/pages/Analysis/AnalysisPage.tsx:46-50 | one more expense raises its own month's total by its amount and no other month's |
| Analysis.NameTotalSnoc | src/pages/Analysis/AnalysisPage.tsx:54-57 | one more expense raises its own label's total only |
| Analysis.UnknownCategoryIsOther | src/pages/Analysis/AnalysisPage.tsx:55 | an expense whose category id is unknown is counted under "Other" |
| Analysis.KeyedSumOther | src/pages/Analysis/AnalysisPage.tsx:56 | setting a key outside the list does not change the sum over the list |
| Analysis.KeyedSumBump | src/pages/Analysis/AnalysisPage.tsx:56 | adding `a` to one listed key adds `a` to the sum |
| Analysis.KeyedSumStep | src/pages/Analysis/AnalysisPage.tsx:56 | each `forEach` step adds the expense's amount to the object's total |
| Analysis.SlicesSum | src/pages/Analysis/AnalysisPage.tsx:58 | the entries' values add up to the object's total |
| Analysis.TallyStep | src/pages/Analysis/AnalysisPage.tsx:54-57 | one `forEach` step keeps the object equal to the per-label totals of the expenses seen |
| Analysis.TallyKeys | src/pages/Analysis/AnalysisPage.tsx:56 | the key list grows to the distinct labels of the expenses seen |
| Analysis.TallyTotals | src/pages/Analysis/AnalysisPage.tsx:56 | each key's value stays the total of its label |
| Analysis.NameTotalAbsent | src/pages/Analysis/AnalysisPage.tsx:56 | a label no expense is filed under totals 0 (the `\|\| 0` start) |
| Analysis.CategoryData | src/pages/Analysis/AnalysisPage.tsx:52-59 | one entry per distinct label in first-seen order, each the sum of its expenses, and all entries together sum to the month's spending |
| Analysis.TallySlices | src/pages/Analysis/AnalysisPage.tsx:58 | after the last expense the object's entries are the distinct labels with their totals, adding up to the month's spending |
| Analysis.DistributionData | src/pages/Analysis/AnalysisPage.tsx:61-68 | same names and values, each percent `value / totalSpent * 100`, or 0 when nothing was spent |
| Analysis.PercentSumScaled | src/pages/Analysis/AnalysisPage.tsx:65 | the percentages times the total are 100 times the sum of the values |
| Analysis.PercentsAddUp | src/pages/Analysis/AnalysisPage.tsx:61-68 | the percentages add up to 100 when the month has spending, and to 0 otherwise |
| Analysis.Percent | src/pages/Analysis/AnalysisPage.tsx:65 | with spending, the percentage times the total is the value times 100, and lies between 0 and 100 for a part of the total; without spending it is 0 |
| Analysis.PercentSumZero | src/pages/Analysis/AnalysisPage.tsx:65 | all-zero percentages add up to 0 |
| Analysis.MonthAbsent | src/pages/Analysis/AnalysisPage.tsx:74 | a month no expense falls in totals 0 |
| Analysis.MonthTallyStep | src/pages/Analysis/AnalysisPage.tsx:72-75 | one `forEach` step keeps the month object equal to the monthly totals of the expenses seen |
| Analysis.MonthKeysStep | src/pages/Analysis/AnalysisPage.tsx:74 | the month key list grows to the distinct months seen |
| Analysis.MonthTotalsStep | src/pages/Analysis/AnalysisPage.tsx:74 | each month's value stays that month's total |
| Analysis.TrendData | src/pages/Analysis/AnalysisPage.tsx:70-80 | the latest (at most) six months with expenses, ascending, each with its full total; every month left out is earlier than all shown |
| Analysis.Recent | src/pages/Analysis/AnalysisPage.tsx:77-80 | `sort().slice(-6).map(...)` over distinct keys gives min(6, n) ascending points from the object, each later than any key left out |
| Analysis.SuffixAscending | src/pages/Analysis/AnalysisPage.tsx:79 | a suffix of an ascending list is ascending |
| Analysis.BeforeSuffix | src/pages/Analysis/AnalysisPage.tsx:79 | in an ascending list every key before the suffix is below every key in it |
| Analysis.LatestMonths | src/pages/Analysis/AnalysisPage.tsx:77-79 | the last six sorted keys are ascending, drawn from the keys, and later than every key left out |
| Analysis.Status | src/pages/Analysis/AnalysisPage.tsx:159 | "No Income" iff income is 0; otherwise "Over Budget" iff spending exceeds income |
| Analysis.AlertIffOverBudget | src/pages/Analysis/AnalysisPage.tsx:159-165 | with non-negative income the alert shows iff the status is "Over Budget" |
| Analysis.ShowsOverspendAlert | src/pages/Analysis/AnalysisPage.tsx:165 | the alert only shows when the status is "Over Budget", and never without a positive income |
| Analysis.NegativeIncomeHidesAlert | src/pages/Analysis/AnalysisPage.tsx:159-165 | any negative income total never shows the alert; it reads "Over Budget" whenever spending exceeds it and "Within Budget" otherwise |
| Analysis.SumNonNegative | src/pages/Analysis/AnalysisPage.tsx:44 | non-negative amounts have a non-negative total |
| Analysis.AlertMatchesStatus | src/pages/Analysis/AnalysisPage.tsx:44-165 | for non-negative income amounts the alert matches the "Over Budget" status for every month |
| IncomesPage.MonthlyItems | src/pages/Incomes/IncomesPage.tsx:56-62 | exactly the incomes whose date reads as the selected month and year |
| IncomesPage.MonthlyItemsSplit | src/pages/Incomes/IncomesPage.tsx:56-62 | the month's incomes keep the list order |
| IncomesPage.Total | src/pages/Incomes/IncomesPage.tsx:67 | 0 when no income falls in the month |
| IncomesPage.TotalSplit | src/pages/Incomes/IncomesPage.tsx:67 | the total is additive over the list |
| IncomesPage.ChartData | src/pages/Incomes/IncomesPage.tsx:72-76 | point k is the k-th monthly income's amount at index k, so the points add up to the incomes' amounts |
| IncomesPage.ChartMatchesTotal | src/pages/Incomes/IncomesPage.tsx:67-76 | the chart's points add up to the shown total |
| IncomesPage.ReadAmount | src/pages/Incomes/IncomesPage.tsx:205-208 | "" stays empty; otherwise the entered number is `Number(text)` |
| IncomesPage.ReadAmountShow | src/pages/Incomes/IncomesPage.tsx:277-280 | a number typed as its own text is read back unchanged |
| IncomesPage.Missing | src/pages/Incomes/IncomesPage.tsx:83 | the amount is falsy exactly when `Number(amount)` is 0 |
| IncomesPage.NumberOf | src/pages/Incomes/IncomesPage.tsx:88 | the number sent is the one the amount input read: typed back as text it reads as the same input |
| IncomesPage.SubmitRequest | src/pages/Incomes/IncomesPage.tsx:81-94 | nothing is sent iff the source is empty or the amount is "" or 0; otherwise that source and that non-zero amount |
| IncomesPage.EditRequest | src/pages/Incomes/IncomesPage.tsx:106-120 | nothing is sent iff the edit id is null or ""; otherwise the id with the edit fields |
| IncomesPage.EditUnchangedRoundTrip | src/pages/Incomes/IncomesPage.tsx:99-120 | saving an untouched edit of an income sends back its own source and amount |
| IncomesPage.IncomeForms.constructor | src/pages/Incomes/IncomesPage.tsx:35-45 | empty inputs and a closed edit modal |
| IncomesPage.IncomeForms.Submit | src/pages/Incomes/IncomesPage.tsx:81-94 | sends `SubmitRequest`; on sending, both inputs are cleared; the edit state is untouched |
| IncomesPage.IncomeForms.OpenEdit | src/pages/Incomes/IncomesPage.tsx:99-104 | copies the income into the edit fields and opens the modal |
| IncomesPage.IncomeForms.SubmitEdit | src/pages/Incomes/IncomesPage.tsx:106-120 | sends `EditRequest`; on sending, the modal closes and the fields keep their values |
| IncomesPage.IncomeForms.CloseEdit | src/pages/Incomes/IncomesPage.tsx:266 | only the modal closes |
| ExpensesPage.TotalCoversEveryMonth | src/pages/Expenses/ExpensesPage.tsx:31 | the overall total is the analysis total of any month plus the amounts of the other months |
| ExpensesPage.TotalExpenses | src/pages/Expenses/ExpensesPage.tsx:31 | with no negative amount the total is non-negative and at least every single amount |
| ExpensesPage.CategoryLabel | src/pages/Expenses/ExpensesPage.tsx:167-174 | "Unknown" when no category has the id; any other label is a matching category's name |
| ExpensesPage.Payload | src/pages/Expenses/ExpensesPage.tsx:50-56 | title is the description or "No title", notes the description, date the input or now, amount `Number(amount)` |
| ExpensesPage.AddRequest | src/pages/Expenses/ExpensesPage.tsx:46-57 | nothing is sent iff the amount or category input is empty; otherwise the payload |
| ExpensesPage.UpdateRequest | src/pages/Expenses/ExpensesPage.tsx:75-89 | nothing is sent iff the id is null or ""; otherwise the id with the payload |
| ExpensesPage.EditForm | src/pages/Expenses/ExpensesPage.tsx:63-72 | amount text `toString()`, description the notes or title, date the first ten characters |
| ExpensesPage.EditedUnchanged | src/pages/Expenses/ExpensesPage.tsx:63-89 | editing and saving unchanged sends the same amount and category, the notes or title, and the day of the date |
| ExpensesPage.EditedFormPassesAddGuard | src/pages/Expenses/ExpensesPage.tsx:47-66 | an expense opened for editing always passes the amount guard |
| Common.DeleteRequest | src/pages/Expenses/ExpensesPage.tsx:94-98 | the id is sent iff the user confirms (the same handler serves the categories page, src/pages/Categories/CategoriesPage.tsx lines 52 to 56) |
| ExpensesPage.ExpenseEditor.constructor | src/pages/Expenses/ExpensesPage.tsx:40-42 | a blank form, no id, modal closed |
| ExpensesPage.ExpenseEditor.Change | src/pages/Expenses/ExpensesPage.tsx:33-37 | only the named input changes |
| ExpensesPage.ExpenseEditor.ResetForm | src/pages/Expenses/ExpensesPage.tsx:39-43 | blank form, no id, modal closed |
| ExpensesPage.ExpenseEditor.Add | src/pages/Expenses/ExpensesPage.tsx:46-60 | sends `AddRequest` and resets on sending; otherwise nothing changes |
| ExpensesPage.ExpenseEditor.Edit | src/pages/Expenses/ExpensesPage.tsx:63-72 | remembers the id, fills `EditForm`, opens the modal |
| ExpensesPage.ExpenseEditor.Update | src/pages/Expenses/ExpensesPage.tsx:75-92 | sends `UpdateRequest` and resets on sending; otherwise nothing changes |
| CategoriesSlice.FetchOutcome | src/store/slices/categoriesSlice.ts:25-39 | fulfils iff the reply's `categories` is a list; otherwise rejects with "Invalid data format from server" or the server message, else "Fetch failed" |
| CategoriesSlice.FetchRejectionHasMessage | src/store/slices/categoriesSlice.ts:32-99 | every rejection carries a non-empty message |
| CategoriesSlice.FindIndex | src/store/slices/categoriesSlice.ts:109 | -1 iff no category has the id, otherwise the first index that does |
| CategoriesSlice.ReplaceFirst | src/store/slices/categoriesSlice.ts:108-111 | only the first matching position changes, to the payload; no match, no change |
| CategoriesSlice.ReplaceFirstIsReplaceById | src/store/slices/categoriesSlice.ts:108-111 | with distinct ids this equals replacing every match |
| CategoriesSlice.ReplaceFirstAt | src/store/slices/categoriesSlice.ts:108-111 | with distinct ids the two replacements agree at every position |
| CategoriesSlice.ReplaceFirstLeavesLaterCopies | src/store/slices/categoriesSlice.ts:108-111 | for any list, a copy of the id after the first match keeps its old entry, where replacing by id would overwrite it, so the two results differ whenever that copy differs from the update |
| CategoriesSlice.CategoriesState.constructor | src/store/slices/categoriesSlice.ts:18-22 | empty list, not loading, no error |
| CategoriesSlice.CategoriesState.FetchPending | src/store/slices/categoriesSlice.ts:88-91 | loading, error cleared, list kept |
| CategoriesSlice.CategoriesState.FetchFulfilled | src/store/slices/categoriesSlice.ts:92-95 | list replaced, loading off, error kept |
| CategoriesSlice.CategoriesState.FetchRejected | src/store/slices/categoriesSlice.ts:96-99 | loading off, error is the payload or "Failed to fetch categories" |
| CategoriesSlice.CategoriesState.FetchSettled | src/store/slices/categoriesSlice.ts:88-99 | the reducer matching how the thunk settled |
| CategoriesSlice.CategoriesState.AddFulfilled | src/store/slices/categoriesSlice.ts:101-103 | the new category comes first |
| CategoriesSlice.CategoriesState.AddRejected | src/store/slices/categoriesSlice.ts:104-106 | only the error changes |
| CategoriesSlice.CategoriesState.UpdateFulfilled | src/store/slices/categoriesSlice.ts:108-111 | the list becomes `ReplaceFirst` of the old list |
| CategoriesSlice.CategoriesState.UpdateRejected | src/store/slices/categoriesSlice.ts:112-114 | only the error changes |
| CategoriesSlice.CategoriesState.DeleteFulfilled | src/store/slices/categoriesSlice.ts:116-118 | every category with the id is removed |
| CategoriesSlice.CategoriesState.DeleteRejected | src/store/slices/categoriesSlice.ts:119-121 | only the error changes |
| IncomesSlice.IncomesState.constructor | src/store/slices/incomes.slice.ts:17 | empty list, not loading, no error |
| IncomesSlice.IncomesState.FetchPending | src/store/slices/incomes.slice.ts:60 | loading; the earlier error is kept |
| IncomesSlice.IncomesState.FetchFulfilled | src/store/slices/incomes.slice.ts:61-64 | list replaced, loading off |
| IncomesSlice.IncomesState.FetchRejected | src/store/slices/incomes.slice.ts:65-68 | loading off, error the message or "Failed" |
| IncomesSlice.IncomesState.AddFulfilled | src/store/slices/incomes.slice.ts:70-72 | the new income comes first |
| IncomesSlice.IncomesState.DeleteFulfilled | src/store/slices/incomes.slice.ts:74-76 | every income with the id is removed |
| IncomesSlice.IncomesState.UpdateFulfilled | src/store/slices/incomes.slice.ts:78-80 | every income with the id is replaced |
| IncomesSlice.AddThenDelete | src/store/slices/incomes.slice.ts:70-76 | adding a fresh income then deleting it restores the list |
| IncomesSlice.UpdateKeepsIds | src/store/slices/incomes.slice.ts:78-80 | an update keeps the ids, and changes nothing when the id is absent |
| ExpensesSlice.ExpensesState.constructor | src/store/slices/expensesSlice.ts:21-25 | empty list, not loading, no error |
| ExpensesSlice.ExpensesState.Dispatch | src/store/slices/expensesSlice.ts:70-90 | per handled action its effect (add appends, delete removes by id, rejection stores the payload); any other action changes nothing |
| ExpensesSlice.AddRaisesTotal | src/store/slices/expensesSlice.ts:84-86 | appending raises the overall total by the new amount |
| ExpensesSlice.DeleteLowersTotal | src/store/slices/expensesSlice.ts:87-89 | deleting lowers the total by exactly the amounts carrying that id |
| AdminUsersSlice.ToggledRole | src/pages/AdminUsersPage.tsx:20-22 | the requested role always differs from the current one |
| AdminUsersSlice.ToggleTwice | src/pages/AdminUsersPage.tsx:20-22 | toggling twice gives the role back |
| AdminUsersSlice.AdminUsersState.constructor | src/store/slices/adminUserSlice.ts:19-23 | empty list, not loading, no error |
| AdminUsersSlice.AdminUsersState.FetchPending | src/store/slices/adminUserSlice.ts:66-68 | loading; error kept |
| AdminUsersSlice.AdminUsersState.FetchFulfilled | src/store/slices/adminUserSlice.ts:69-72 | list replaced, loading off |
| AdminUsersSlice.AdminUsersState.FetchRejected | src/store/slices/adminUserSlice.ts:73-76 | loading off, error the message or "Failed" |
| AdminUsersSlice.AdminUsersState.ToggleBlockFulfilled | src/store/slices/adminUserSlice.ts:78-82 | the server's copy replaces every user with its id |
| AdminUsersSlice.AdminUsersState.UpdateRoleFulfilled | src/store/slices/adminUserSlice.ts:84-88 | the same replacement by id |
| AdminUsersSlice.AdminUsersState.DeleteFulfilled | src/store/slices/adminUserSlice.ts:90-92 | every user with the id is removed |
| AdminUsersSlice.UserListFacts | src/store/slices/adminUserSlice.ts:78-92 | replacement keeps the ids; deleting twice removes nothing more |
| SavingsGoalsSlice.GoalsState.constructor | src/store/slices/savingsGoalsSlice.ts:17-21 | no goals, not loading, no error |
| SavingsGoalsSlice.GoalsState.FetchPending | src/store/slices/savingsGoalsSlice.ts:57-59 | loading; error kept |
| SavingsGoalsSlice.GoalsState.FetchFulfilled | src/store/slices/savingsGoalsSlice.ts:60-63 | goals replaced, loading off |
| SavingsGoalsSlice.GoalsState.FetchRejected | src/store/slices/savingsGoalsSlice.ts:64-67 | loading off, error is the payload as given |
| SavingsGoalsSlice.GoalsState.CreateFulfilled | src/store/slices/savingsGoalsSlice.ts:68-70 | the new goal comes first |
| CategoriesPage.Filtered | src/pages/Categories/CategoriesPage.tsx:79-83 | no list gives []; otherwise exactly the categories whose lower-cased name includes the lower-cased term |
| CategoriesPage.FilteredMeansOccurs | src/pages/Categories/CategoriesPage.tsx:79-83 | kept iff the lower-cased term occurs at some position of the lower-cased name |
| CategoriesPage.FilteredKeepsOrder | src/pages/Categories/CategoriesPage.tsx:79-83 | the search keeps the list order |
| CategoriesPage.EmptyTermKeepsAll | src/pages/Categories/CategoriesPage.tsx:79-83 | an empty term keeps every category |
| CategoriesPage.TermCaseIgnored | src/pages/Categories/CategoriesPage.tsx:81 | the term's case does not matter |
| CategoriesPage.TotalPages | src/pages/Categories/CategoriesPage.tsx:86 | the least page count that holds every result at eight per page |
| CategoriesPage.PageOf | src/pages/Categories/CategoriesPage.tsx:87-91 | at most eight results, those from the page's start index, in order; empty beyond the last page |
| CategoriesPage.FirstPagesPrefix | src/pages/Categories/CategoriesPage.tsx:87-91 | the first n pages end to end are the first 8n results |
| CategoriesPage.PagesPartition | src/pages/Categories/CategoriesPage.tsx:86-91 | the pages 1..totalPages together are exactly the results, in order |
| CategoriesPage.RowNumberIsPosition | src/pages/Categories/CategoriesPage.tsx:186 | a row's number is its 1-based position in the results |
| CategoriesPage.StartIndex | src/pages/Categories/CategoriesPage.tsx:87 | a page starts at a multiple of eight, the one that page numbers from 1 |
| CategoriesPage.RowNumber | src/pages/Categories/CategoriesPage.tsx:186 | row numbers start at 1, and row idx of a page falls in that page's block of eight at offset idx |
| CategoriesPage.NextEnabledWithoutResults | src/pages/Categories/CategoriesPage.tsx:86-271 | with no results there are 0 pages and Next stays enabled on page 1 |
| CategoriesPage.ButtonsLeadToPages | src/pages/Categories/CategoriesPage.tsx:248-271 | within the page range an enabled Prev or Next leads to a non-empty page |
| CategoriesPage.PrevDisabled | src/pages/Categories/CategoriesPage.tsx:248-249 | an enabled Prev never leads below page 1 |
| CategoriesPage.NextDisabled | src/pages/Categories/CategoriesPage.tsx:270-271 | within the page range an enabled Next never leads past the last page |
| CategoriesPage.AddRequest | src/pages/Categories/CategoriesPage.tsx:41-44 | nothing is sent iff the name is blank; otherwise the name as typed |
| CategoriesPage.SaveRequest | src/pages/Categories/CategoriesPage.tsx:63-68 | nothing is sent iff the name is blank or the id is null or ""; otherwise that id and name |
| CategoriesPage.CategoriesPageState.constructor | src/pages/Categories/CategoriesPage.tsx:19-25 | empty inputs, page 1, add modal closed |
| CategoriesPage.CategoriesPageState.Search | src/pages/Categories/CategoriesPage.tsx:109-112 | the term is set and the page goes back to 1 |
| CategoriesPage.CategoriesPageState.Prev | src/pages/Categories/CategoriesPage.tsx:248-249 | one page back, never below 1 |
| CategoriesPage.CategoriesPageState.Next | src/pages/Categories/CategoriesPage.tsx:270-271 | pressed while enabled for the page count of the current results, one page on; nothing else changes |
| CategoriesPage.CategoriesPageState.GoToPage | src/pages/Categories/CategoriesPage.tsx:255-258 | button i of the current results' page list sets page i+1 |
| CategoriesPage.CategoriesPageState.StartEdit | src/pages/Categories/CategoriesPage.tsx:58-61 | the category's id and name go into the edit fields |
| CategoriesPage.CategoriesPageState.CancelEdit | src/pages/Categories/CategoriesPage.tsx:216 | the edit is abandoned |
| CategoriesPage.CategoriesPageState.SaveEdit | src/pages/Categories/CategoriesPage.tsx:63-76 | sends `SaveRequest`; on success the edit closes, on failure an alert with the payload or "Failed to update category" |
| CategoriesPage.CategoriesPageState.EndEdit | src/pages/Categories/CategoriesPage.tsx:70-72 | edit mode ends and the name input clears; nothing else changes |
| CategoriesPage.CategoriesPageState.OpenAddModal | src/pages/Categories/CategoriesPage.tsx:120 | the add modal opens |
| CategoriesPage.CategoriesPageState.CloseAddModal | src/pages/Categories/CategoriesPage.tsx:33-140 | the add modal closes |
| CategoriesPage.CategoriesPageState.Add | src/pages/Categories/CategoriesPage.tsx:41-50 | sends `AddRequest`; on success the input clears, on failure an alert with the payload or "Failed to add category" |
| CategoriesPage.CategoriesPageState.AddFromModal | src/pages/Categories/CategoriesPage.tsx:146-149 | `Add`, then the modal closes whatever happened |
| SavingsPage.GoalProgress | src/pages/Savings/SavingsPage.tsx:194-195 | `current / target * 100`; a zero target gives +Infinity, -Infinity or NaN by the sign of the amount saved |
| SavingsPage.BarWidth | src/pages/Savings/SavingsPage.tsx:227 | `Math.min(progress, 100)`: never above 100 unless NaN, and the progress itself when at most 100 |
| SavingsPage.CompletedIffFullBar | src/pages/Savings/SavingsPage.tsx:227-236 | the badge shows iff the bar is at 100 |
| SavingsPage.CompletedIffReached | src/pages/Savings/SavingsPage.tsx:194-236 | for a positive target the badge shows iff the saved amount has reached the target |
| SavingsPage.ZeroTarget | src/pages/Savings/SavingsPage.tsx:194-236 | with a zero target the badge shows iff anything positive is saved |
| SavingsPage.GoalRequest | src/pages/Savings/SavingsPage.tsx:56-84 | nothing is sent iff the title or target text is empty; otherwise the title, `Number(target)` and the uploaded URL or "" |
| SavingsPage.DepositRequest | src/pages/Savings/SavingsPage.tsx:289-300 | nothing is sent iff the amount text is empty; otherwise the goal's id and `Number(amount)` |
| SavingsPage.TypedTargetArrives | src/pages/Savings/SavingsPage.tsx:78-84 | a target typed as a number's text reaches the request as that number |
| SavingsPage.SavingsPageState.constructor | src/pages/Savings/SavingsPage.tsx:28-38 | empty form, no image, no goal selected, modal closed |
| SavingsPage.SavingsPageState.ChooseImage | src/pages/Savings/SavingsPage.tsx:47-53 | no file, no change; otherwise the file and its preview |
| SavingsPage.SavingsPageState.AddGoal | src/pages/Savings/SavingsPage.tsx:56-90 | sends `GoalRequest`; on sending, the form and image are cleared |
| SavingsPage.SavingsPageState.ClearGoalForm | src/pages/Savings/SavingsPage.tsx:86-89 | title, target, file and preview are cleared; the modal state is untouched |
| SavingsPage.SavingsPageState.OpenAddSavings | src/pages/Savings/SavingsPage.tsx:242-246 | selects the goal and opens the modal |
| SavingsPage.SavingsPageState.CancelAddSavings | src/pages/Savings/SavingsPage.tsx:282 | only the modal closes |
| SavingsPage.SavingsPageState.SaveSavings | src/pages/Savings/SavingsPage.tsx:261-304 | sends `DepositRequest`; on sending, the modal closes and the amount and goal are cleared |
| SavingsPage.SavingsPageState.CloseDeposit | src/pages/Savings/SavingsPage.tsx:301-303 | the modal closes and the amount and goal are cleared; the form is untouched |
| ProtectedRoute.Decide | src/components/ProtectedRoute.tsx:9-18 | /login iff no (or an empty) token; /user iff a token on an admin-only route for a non-admin or missing user; otherwise the page |
| ProtectedRoute.NoTokenGoesToLogin | src/components/ProtectedRoute.tsx:13 | without a token, /login whatever the route asks |
| ProtectedRoute.NonAdminGoesToUser | src/components/ProtectedRoute.tsx:15 | a non-admin or not-yet-loaded user on an admin-only route goes to /user |
| ProtectedRoute.OpenRouteRendersWithoutUser | src/components/ProtectedRoute.tsx:9-17 | an ordinary route renders with a token even before the user loads |
| ProtectedRoute.AdminAlwaysRenders | src/components/ProtectedRoute.tsx:15-17 | an admin with a token always sees the page |
| ProtectedRoute.AdminOnlyIsStricter | src/components/ProtectedRoute.tsx:15 | making a route admin-only can only turn a render into a redirect to /user |

## Left out

- Network requests, the axios client, the image upload service, `localStorage` and the browser event loop are not modelled. A thunk's outcome is an input to the reducer that handles it. The body of `fetchCategories` is the one exception: its response check is modelled as `CategoriesSlice.FetchOutcome`. The bodies of the other thunks are plain request/response plumbing.
- ExpensesPage.ExpenseEditor.Update / SavingsPage.SavingsPageState.SaveSavings: `updateExpense` (imported by the expenses page) and `addSavingsToGoal` (imported by the savings page) are not defined by the slices. In the source, calling the missing import throws before the form reset runs, or the bundle does not link at all. The two methods model the handlers as written: the request they build, then their resets. Neither the throw nor a store effect of the request is modelled.
- CategoriesPage.CategoriesPageState.Next: the source does not keep the page within the page count. Next is disabled only on page `totalPages`, so with no results it stays enabled on page 1 (NextEnabledWithoutResults). A deletion can also leave the current page past the last one, and Next then keeps counting up. The method's contract promises one page on, not a page within range.
- The savings page's follow-up `fetchMonthlySavings` and the savings slice it belongs to are not part of this model.
- The store in src/store/index.ts registers only the auth and user reducers. The slices are modelled as standalone reducers.
- `window.confirm` and `window.alert` are inputs and outputs: a `confirmed` flag and an `alert` result.
- The Escape-key listener is modelled only as the modal closing (`CloseAddModal`).
- `URL.createObjectURL` is modelled as a preview-URL parameter.
- Dates: `new Date(...)` in the incomes page is a `DateReader` parameter. Time zones and the formats JavaScript accepts belong to the runtime. `toISOString()` is the `now` parameter. `toLocaleString`, `toLocaleDateString` and the chart labels are left out.
- Analysis.DistributionData: the percentage is the exact ratio, without the rounding and string formatting of `toFixed(1)` or the binary floating point of JavaScript numbers.
- SavingsPage.GoalProgress: exact real division. Floating-point rounding and the `toFixed(1)` label are left out.
- Text.ParseNumber: `Number` is read only on optionally signed decimal integers with surrounding white space (a blank string is 0). Fractions, exponents, hex, `Infinity` and other syntaxes give None, as NaN does.
- Text.Lower: `toLowerCase` is modelled for ASCII letters only; other Unicode case mappings are left out.
- Text.Below compares characters as Dafny `char`s. Strings outside the Basic Multilingual Plane would compare by UTF-16 code unit in JavaScript, which is not modelled.
- Analysis.CategoryData / Common.Dedup: `Object.keys` lists integer-like keys (such as "2024" or "12") first, in ascending numeric order, and the other keys after them in insertion order. Category names are free text, so a category named "2024" is listed first by the page, while the model lists every name in first-seen order. The "YYYY-MM" month keys are never integer-like, and `trendData` sorts them anyway.
- Common.Bump / Analysis.CategoryData: the page tallies into a plain object literal. A category named after a property of `Object.prototype` ("__proto__", "constructor", "toString", "hasOwnProperty" and the like) reads the inherited member in `map[name] || 0`. For "__proto__" the assignment is then ignored and the name is missing from `Object.keys`, so the chart leaves that spending out. For the others the stored value starts from the inherited function's text. The model treats these names as ordinary keys.
- Common.AddKey / Analysis.TallySlices: the key list and the totals follow the same ordinary-key reading as Common.Bump, so neither models the names above or the numeric ordering of integer-like keys.
- Amounts are unbounded integers. JavaScript's double-precision limits and fractional amounts are not modelled.
- The PDF export of the analysis page, the AI page, authentication, profile and the admin dashboard are outside this model.

