# Finance tracker core, modelled in Dafny

This project models the logic of a personal finance tracker. The tracker keeps
three collections: transactions (income or expense, with a date, amount and
category), category budgets, and savings goals. It then derives the figures it
displays from them.

The model has three parts:

- **The record store.** The class `Store.RecordStore` holds the three
  collections as `seq` fields. Its methods are the application's operations:
  - add a transaction (it goes in front);
  - delete transactions by id;
  - upsert a budget keyed on category;
  - set a goal's saved amount;
  - append a goal.

  It also models the entry form's check, a typed budget limit and a typed goal
  contribution. In the last two, input that does not parse counts as 0.
- **The aggregation engine.** Pure functions over a snapshot:
  - income, expense and balance totals;
  - the per-category expense breakdown, a fold over the history. It is also
    written as a loop that rebinds its map one transaction at a time, as the
    reduce updates its accumulator;
  - the recent list: a stable sort by date, latest first, then the first five;
  - budget utilisation cards: a percentage capped at 100 and an over-budget
    flag;
  - goal progress, bar width and completion.
- **The credential check** of the sign-in screen, over a map from email to
  `{name, password}`.

Money and percentages are `real`. Dates are ISO `YYYY-MM-DD` strings ordered
character by character. For dates of that form this is the order of their
timestamps. Generated ids, today's date and the result of number parsing are
parameters. A parse failure is `None`.

In three places the code does less than its types and labels suggest; the model follows the code:

- The breakdown has a key for every category with at least one expense. That
  includes an expense of amount 0, so a key can hold 0.
  `Spending.BreakdownValuesPositive` shows there is no zero value only when
  every amount is positive.
- The entry form checks only that the description and amount fields are
  non-empty. It does not reject negative amounts.
- The budget upsert accepts any category, Income included. Only the budget
  view leaves Income out.

## Model

| member | source | states |
|---|---|---|
| `Types.CategoriesEnumerated` | types.ts:2-10 | The category list has exactly eight distinct members. It contains every category, Income among them. |
| `Totals.OfType` | App.tsx:326-327 | The filter keeps exactly the transactions of the given direction and never lengthens the list. |
| `Totals.TotalIncome` | App.tsx:326 | The income total: for a history of income only it is the total of all amounts, for a history of expenses only it is 0. |
| `Totals.TotalExpenses` | App.tsx:327 | The expense total: for a history of expenses only it is the total of all amounts, for a history of income only it is 0. |
| `Totals.Balance` | App.tsx:328 | Income total less expense total: the total of all amounts for income only, its negation for expenses only. |
| `Totals.IncomeAndExpensesPartition` | App.tsx:326-327 | Income total plus expense total is the total of all amounts. Every transaction is counted once, in exactly one of the two. |
| `Totals.BalanceIsSignedTotal` | App.tsx:326-328 | The balance is income minus expenses. It also equals the independent sum of amounts signed by direction. |
| `Totals.TotalsOfPrepend` | App.tsx:326-328 | A transaction added in front moves only the total of its own direction, by its amount. The balance moves by its signed amount. |
| `Totals.TotalsOfAppend` | App.tsx:326-327 | Both totals of a split history are the sums of the totals of the two parts. |
| `Totals.TotalsNonNegative` | App.tsx:326-327 | With no negative amount, neither total is negative. |
| `Spending.ExpensesIn` | App.tsx:331-332 | Keeps exactly the expenses of one category. |
| `Spending.Tally` | App.tsx:331-334 | One step of the fold: income leaves the dictionary as it is. An expense adds its category to the keys and adds its amount to that category's entry, which starts from 0 when missing. Every other entry keeps its value. |
| `Spending.Breakdown` | App.tsx:330-335 | The fold of `Tally` from an empty dictionary over the history, first transaction first. `BreakdownCorrect` states its keys and values. |
| `Spending.SpendingByCategory` | App.tsx:478-485 | A loop that rebinds its map one transaction at a time, as the reduce updates its accumulator. It yields the fold `Breakdown`, with a key for exactly the categories that have an expense, each holding that category's expense total. |
| `Spending.BreakdownCorrect` | App.tsx:330-335 | A category is a key of the breakdown iff some expense in it exists. Its value is the total of its expenses. |
| `Spending.BreakdownIgnoresIncome` | App.tsx:331 | Only expenses contribute: dropping every income transaction leaves the breakdown unchanged. |
| `Spending.BreakdownSumsToExpenses` | App.tsx:327-335 | The breakdown's values, summed over all keys, equal the expense total exactly. |
| `Spending.BreakdownValuesPositive` | App.tsx:330-335 | When every amount is positive, no key holds 0. |
| `Spending.SpentNonNegative` | App.tsx:332 | With no negative amount, the spending of a category is not negative. |
| `Dates.NotAfter` | App.tsx:338 | The date order: character by character, which for `YYYY-MM-DD` strings is the order of their timestamps. Its totality and transitivity are the next two rows. |
| `Dates.NotAfterTotal` | App.tsx:338 | Any two dates are comparable under the date order. |
| `Dates.NotAfterTransitive` | App.tsx:338 | The date order is transitive. |
| `Recent.Insert` | App.tsx:338 | Inserts one transaction before the first entry not later than it. The result has one more entry. |
| `Recent.SortLatestFirst` | App.tsx:338 | The sorted copy has as many entries as the history. `SortCorrect` and `SortIsStable` state its order. |
| `Recent.RecentOf` | App.tsx:338 | The first five entries of the sorted copy, or all of them when there are fewer. `RecentCorrect` states its length, order and contents. |
| `Recent.SortCorrect` | App.tsx:338 | The sorted copy is a permutation of the history, latest date first. |
| `Recent.SortIsStable` | App.tsx:338 | For every date, the transactions of that date appear in the sorted copy in their history order. |
| `Recent.RecentCorrect` | App.tsx:338 | The recent list has min(5, history length) entries, latest first. All are taken from the history. No transaction left out is dated after one shown. |
| `HistoryView.SortedIsFixed` | App.tsx:436 | Sorting a history that is already latest first leaves it unchanged. |
| `HistoryView.SortIdempotent` | App.tsx:436 | Sorting the sorted history again changes nothing, so the history view's in-place sort followed by the recent list's sort is the recent list's sort. |
| `HistoryView.AddAfterSortKeepsRecent` | App.tsx:681 | A transaction added in front of the in-place-sorted history sorts, and shows in the recent list, exactly as if the history had not been sorted. |
| `HistoryView.InsertWithoutId` | App.tsx:682 | On a latest-first list, deleting an id after inserting a transaction equals inserting it (unless it has that id) after deleting. |
| `HistoryView.DeleteAfterSort` | App.tsx:682 | Deleting from the in-place-sorted history gives the sorted result of deleting from the unsorted one, so the recent list is the same. |
| `Dashboard.Stats` | App.tsx:325-341 | Balance = income - expenses, and it is the signed sum of all amounts. Income + expenses = the total of all amounts; together these fix both totals. The breakdown has keys exactly for the categories with an expense, each holding that category's expense total, and sums to the expenses. The recent list has min(5, history length) entries, latest first, all from the history, and no transaction left out is dated after one shown. |
| `Dashboard.InitialDashboard` | App.tsx:48-53 | The starting data gives income 850000, expenses 320000, balance 530000 and breakdown {Other: 250000, Food: 45000, Entertainment: 25000}. |
| `Ledger.WithoutId` | App.tsx:682 | After a delete, no entry has the deleted id. Every other entry is kept. |
| `Ledger.WithoutIdAppend` | App.tsx:682 | Deleting distributes over concatenation, so the kept entries stay in their original order. |
| `Ledger.WithoutIdCounts` | App.tsx:682 | Each entry with another id is kept as many times as it occurred. No entry with the id is kept. |
| `Ledger.DeleteAbsentIsNoOp` | App.tsx:682 | Deleting an id no entry has leaves the list unchanged. |
| `Ledger.DeleteIdempotent` | App.tsx:682 | Deleting the same id twice is the same as deleting it once. |
| `Ledger.AddThenDeleteRestores` | App.tsx:681-682 | Adding a transaction with a fresh id and then deleting that id restores the previous list. |
| `Ledger.NewTransaction` | App.tsx:236-246 | A transaction is created iff the description and amount fields are both filled in. It carries the given id, date, amount, category and direction. |
| `Budgets.FindBudget` | App.tsx:498 | The lookup returns the first budget of the category in the list, or none exactly when no budget has that category. |
| `Budgets.SetLimit` | App.tsx:687 | Every budget of the category gets the new limit. The other budgets, every category and the length are unchanged. |
| `Budgets.Upsert` | App.tsx:684-690 | Sets the limit of the category when it has a budget, and otherwise appends a new budget. `UpsertSetsLimit`, `UpsertLeavesOtherCategories` and `UpsertIdempotent` state its effect. |
| `Budgets.UpsertSetsLimit` | App.tsx:684-690 | After the upsert the category's budget has the new limit. The list grows by one only if the category was absent. Unique categories stay unique. |
| `Budgets.UpsertLeavesOtherCategories` | App.tsx:684-690 | After the upsert every other category looks up exactly as before. |
| `Budgets.UpsertIdempotent` | App.tsx:684-690 | Setting the same limit twice is the same as setting it once. |
| `Budgets.LimitFor` | App.tsx:498 | The limit shown for a category: that of its first budget, 0 when it has none. |
| `Budgets.SpentFor` | App.tsx:499 | What was spent in a category according to the breakdown, 0 when it has no key. |
| `Budgets.LimitFromInput` | App.tsx:534 | Budget input that does not parse gives limit 0. Parsed input gives its value. |
| `Budgets.Percentage` | App.tsx:500 | The percentage is 0 for a limit of 0 or less, and lies in [0, 100] when spent >= 0. With a positive limit it is 100 iff spent >= limit. Below the limit it is exactly spent/limit*100. |
| `Budgets.IsOver` | App.tsx:501 | Over budget implies a positive limit and a full (100) bar. It is never true for a limit of 0 or less. |
| `Budgets.Card` | App.tsx:497-501 | The card shows the limit of the category's first budget, or 0 when it has none. It shows the breakdown's value as spent, or 0 when the category has no key. Its percentage is `Percentage` of spent against that limit, so 0 with no budget. Over iff spent > limit > 0. The percentage lies in [0, 100] when spent >= 0. |
| `Budgets.WithoutIncome` | App.tsx:497 | Keeps exactly the categories other than Income. |
| `Budgets.BudgetCategoriesCorrect` | App.tsx:497 | The budget view covers the seven categories other than Income, in list order. |
| `Budgets.Cards` | App.tsx:497-541 | One card per category, in order, each the card of its category. |
| `Budgets.FoodBudgetExample` | App.tsx:55 | With the Food limit of 150000, spending 45000 shows 30% and is not over budget. Spending 200000 shows 100% and is over budget. |
| `Budgets.BudgetView` | App.tsx:497-541 | The cards of the seven non-Income categories, measured against the breakdown of the history. `BudgetViewCorrect` states what each shows. |
| `Budgets.BudgetViewCorrect` | App.tsx:478-501 | Each of the seven cards shows what was spent in its category. With no negative amount its percentage lies in [0, 100]. |
| `Budgets.ClearedFieldNeverOver` | App.tsx:534-535 | Clearing a budget field sets the limit to 0, after which the category shows 0% and is never over budget. |
| `Goals.SetCurrentAmount` | App.tsx:692-694 | Only the saved amount of goals with the id changes. The length and every other field stay the same. |
| `Goals.SetAbsentIdIsNoOp` | App.tsx:693 | Updating an id no goal has changes nothing. |
| `Goals.LastUpdateWins` | App.tsx:692-694 | A second update of the same goal overrides the first. |
| `Goals.Contributed` | App.tsx:588-589 | A contribution adds the parsed value to the saved amount. Input that does not parse adds 0. |
| `Goals.Progress` | App.tsx:557 | Progress exists iff the target is non-zero. It is then the unclamped current/target*100. |
| `Goals.BarWidth` | App.tsx:577 | The bar width exists iff the progress does. It equals the progress when that is below 100, and is 100 otherwise. |
| `Goals.IsCompleted` | App.tsx:558 | A goal is completed once its saved amount reaches its target. `ProgressMatchesCompletion` relates it to the progress. |
| `Goals.ProgressMatchesCompletion` | App.tsx:557-558 | With a positive target, the goal is completed iff progress >= 100 iff the bar is full. Progress is not negative when the saved amount is not negative. |
| `Goals.ContributionCompletes` | App.tsx:586-591 | A contribution covering the missing amount completes the goal. |
| `Goals.LaptopExample` | App.tsx:64 | For the starting New Laptop goal, 300000 saved of 1200000 is 25% and not complete. Adding 900000 reaches the target, which completes it. |
| `Store.RecordStore.constructor` | App.tsx:629-642 | Each collection is the saved one when present, else the starting data. |
| `Store.RecordStore.AddTransaction` | App.tsx:681 | The transactions become `[t] + previous`. Budgets and goals are unchanged. |
| `Store.RecordStore.DeleteTransaction` | App.tsx:682 | The transactions keep exactly the entries with another id, in order, and are unchanged when the id is absent. Nothing else changes. |
| `Store.RecordStore.UpdateBudget` | App.tsx:684-690 | Upserts the budget, with the effects of `UpsertSetsLimit` and `UpsertLeavesOtherCategories`. Nothing else changes. |
| `Store.RecordStore.UpdateGoal` | App.tsx:692-694 | Each goal with the id gets the new saved amount and every other goal is unchanged. Nothing else changes. |
| `Store.RecordStore.AddGoal` | App.tsx:696-698 | The goal is appended at the end. Nothing else changes. |
| `Store.RecordStore.SubmitTransaction` | App.tsx:236-246 | A complete form puts the new transaction in front. An incomplete one changes nothing. |
| `Store.RecordStore.SetBudgetFromInput` | App.tsx:534 | Typed budget input is upserted, with a parse failure stored as 0. |
| `Store.RecordStore.AddSavings` | App.tsx:586-591 | The goal's id gets the card's saved amount plus the parsed input, with a parse failure adding 0. |
| `Store.AddThenDelete` | App.tsx:681-682 | On the store, adding a transaction with a fresh id and deleting it leaves all three collections as they were. |
| `Auth.Submit` | App.tsx:76-97 | A missing field is rejected and nothing is stored. Registering stores or overwrites the email's entry and logs in under the name. Signing in succeeds iff the email is registered with this exact password, logs in under the stored name, and stores nothing. A failed sign-in with every field filled answers 'Invalid email or password'. |
| `Auth.RegisterThenSignIn` | App.tsx:83-95 | After registering, the same email and password sign in under the registered name. |
| `Auth.RegisterOverwrites` | App.tsx:84-87 | Registering a taken email replaces its entry: the old password stops working and other emails are unaffected. |

## Left out

- Local storage and JSON encoding (App.tsx:628-679) are I/O. The constructor receives the decoded collections. The write after each change is not modelled.
- The signed-in user name, logout and the theme preference with its media query (App.tsx:628, 644-667, 700-702) are session and display state, not store logic.
- `Math.random` ids and `new Date()` (App.tsx:240-241, 606) are parameters.
- `parseFloat` is a parameter of type `Option<real>`. `None` stands for a field that does not parse, or for an empty amount field in the entry form. A number input never yields anything else.
- IEEE floating point is not modelled: no NaN, no Infinity, no rounding. All arithmetic is exact.
- Goals.Progress: a target of 0 gives `None` where JavaScript gives Infinity, -Infinity (for a negative saved amount) or NaN. The value JavaScript shows there is not modelled.
- Goals.BarWidth: `None` for a target of 0, where `Math.min` in JavaScript gives 100, -Infinity (for a negative saved amount) or NaN.
- Recent.RecentCorrect: dates are compared character by character. This is the timestamp order only for well-formed `YYYY-MM-DD` strings. Malformed dates, which make the JavaScript comparator return NaN, are not modelled.
- Spending.BreakdownValuesPositive: it holds only when every amount is positive. The code keeps a key for a zero-amount expense.
- Creating a goal through `prompt()` (App.tsx:600-613) is left out because prompt is browser I/O. `AddGoal` receives the finished goal.
- The pie chart data and colours (App.tsx:337, 356-367) are left out. The breakdown is a map, so the insertion order of `Object.entries` is not modelled.
- The history view sorts the store's own transaction array in place (App.tsx:436, which receives that array at App.tsx:743), without going through a setter. The model's stored order changes only through the store's operations, so it does not capture the stored and persisted order becoming latest date first, nor the key order of the pie data that follows from it. The sort is stable and uses the recent list's comparator, so it does not change the recent list: `HistoryView.SortIdempotent`, `HistoryView.AddAfterSortKeepsRecent` and `HistoryView.DeleteAfterSort` show that sorting, and adding or deleting after sorting, give the same recent list as without the sort.
- Rendering is left out: `Math.round` and `toLocaleString` output, and the components in `components/`.
