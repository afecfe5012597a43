# MoneyMate transaction dashboard and list state, in Dafny

MoneyMate is a personal finance web client. Users record income and expense
transactions, and a hosted backend stores them. The client's own logic is
small, and this project models all of it:

- **Dashboard aggregation** (`src/components/Dashboard.tsx`). From the current
  transaction list the dashboard derives a running balance, total income and
  total expenses. It also builds a daily series: the records are grouped by
  date into one `{date, income, expense, balance}` entry per day, and the
  entries are sorted by date. Finally it derives a two-slice income/expense
  split and a savings percentage, which also sets the width of a progress bar.
- **Transaction list state** (`src/App.tsx`). The application component keeps
  the signed-in user and the transaction list. Four handlers change the list:
  fetch, sign-out, add and delete. Each backend call is replaced by a parameter
  that carries the backend's reply: success with data, or an error.

Modules, one per concern:

| file | module | models |
|---|---|---|
| `types.dfy` | `Types` | the `Transaction` record with its two-valued kind |
| `lists.dfy` | `Lists` | `Array.prototype.filter`, as used by the dashboard and by delete |
| `date_keys.dfy` | `DateKeys` | the order in which the daily series is sorted |
| `dashboard.dfy` | `Dashboard` | totals, pie split, savings percentage, bar width |
| `daily_series.dfy` | `DailySeries` | the group-by-date `reduce` and the in-place `sort` (imperative) |
| `app.dfy` | `App` | class `TransactionList`, the state and its handlers (imperative) |

Modelling choices:

- Amounts are `int`, a whole number of minor currency units, so every sum is
  exact. No sign is imposed, because the client never checks one. The one
  property that needs non-negative amounts (`SavingsAtMostHundred`) requires it.
- Dates are the `YYYY-MM-DD` strings the client stores. The sort compares
  parsed times. For that fixed-width format, this is the lexicographic order of
  the strings, so `DateKeys.Before` is that order. It is proved irreflexive,
  transitive and total.
- The totals are written as the source writes them. `Balance` is a signed
  left fold. Income and expenses each filter by kind and then sum.
- The daily series is imperative, as in the source. `GroupByDate` is the
  `reduce` loop. It finds an existing entry (`FindDay`, i.e. `acc.find`),
  adds the amount to that entry's income or expense and recomputes its
  balance, or else pushes a new entry. `SortByDate` sorts an `array` in place.
  `GroupByDate` is proved against the specification functions `Summary` (the
  entry a date should have) and `Dates` (the distinct dates). `SortByDate` is
  proved to leave the entries in ascending date order and as a permutation of
  its input. `BuildDailySeries` carries the grouping's result across the sort
  with `CoversPermutation`.
- The application state is a class with the list as a `seq` field. The
  handlers are methods, and each takes the backend reply as a parameter.
  `AddTransaction` also takes the current date (`today`) and returns the row it
  sends.

Behaviour of the code that a reader might not expect, modelled as written:

- The savings percentage is 0 whenever income is not positive (`income > 0`
  in the code), not only when income is exactly 0.
- The bar width is only capped at 100 (`Math.min(savingsPercentage, 100)`).
  Nothing clamps it at 0; see Findings.
- `deleteTransaction` does not check for a signed-in user; only add and fetch
  do.
- `handleSignOut` clears the list whatever the sign-out call returns. It does
  not change the user; the authentication subscription does that.

## Model

| member | source | states |
|---|---|---|
| `Dashboard.Balance` | src/components/Dashboard.tsx:13-15 | the signed running fold: a list of income alone has its sum as balance, a list of expenses alone the negated sum |
| `Dashboard.TotalIncome` | src/components/Dashboard.tsx:17-19 | the income total is the sum of a list of income alone, and 0 for a list of expenses alone |
| `Dashboard.TotalExpenses` | src/components/Dashboard.tsx:21-23 | the expenses total is the sum of a list of expenses alone, and 0 for a list of income alone |
| `Dashboard.ComputeTotals` | src/components/Dashboard.tsx:13-23 | the balance card equals the income card minus the expenses card for every list, and an empty list gives all three as 0 |
| `Dashboard.BalanceIsIncomeMinusExpenses` | src/components/Dashboard.tsx:13-23 | the signed running fold (add income, subtract everything else) equals the sum of income amounts minus the sum of expense amounts |
| `Dashboard.TotalsSnoc` | src/components/Dashboard.tsx:17-23 | one more record moves total income by its amount if it is income, and total expenses by its amount if it is an expense, and nothing else |
| `Dashboard.SumAmountsPermutation` | src/components/Dashboard.tsx:19 | the summing `reduce` gives the same result for any reordering of the records |
| `Dashboard.TotalsPermutation` | src/components/Dashboard.tsx:13-23 | balance, income and expenses do not depend on the order in which the records arrive |
| `Dashboard.PieData` | src/components/Dashboard.tsx:47-50 | exactly two slices: "Income" with the income total first, "Expenses" with the expenses total second |
| `Dashboard.PieDataMatchesBalance` | src/components/Dashboard.tsx:47-50 | fed with the totals of a list, the income slice exceeds the expenses slice by exactly that list's balance |
| `Dashboard.SavingsPercentage` | src/components/Dashboard.tsx:52 | 0 when income is not positive; otherwise the percentage `r` with `r * income == (income - expenses) * 100`, at most 100 exactly when expenses are non-negative, and non-negative exactly when expenses do not exceed income |
| `Dashboard.SumAmountsNonNegative` | src/components/Dashboard.tsx:21-23 | a sum of non-negative amounts is non-negative |
| `Dashboard.SavingsAtMostHundred` | src/components/Dashboard.tsx:52 | with no negative amounts, the savings percentage of a list never exceeds 100 |
| `Dashboard.BarWidth` | src/components/Dashboard.tsx:100 | the bar width never exceeds 100 or the percentage; it equals the percentage up to 100 and is 100 above it |
| `Dashboard.BarWidthNegativeWhenOverspent` | src/components/Dashboard.tsx:52 | income 100 and expenses 120 give a savings percentage of -20 and a negative bar width |
| `Dashboard.ClampedBarWidth` | src/components/Dashboard.tsx:100 | the corrected width always lies in [0, 100]: it equals the percentage inside that range, 0 below it and 100 above it |
| `Lists.Filter` | src/components/Dashboard.tsx:18 | `filter` never yields more elements than it is given |
| `Lists.FilterMembership` | src/components/Dashboard.tsx:18 | an element survives `filter` exactly when it was in the list and passes the test |
| `Lists.FilterAppend` | src/App.tsx:132 | filtering a concatenation is the concatenation of the filtered parts, so the kept records keep their relative order |
| `Lists.FilterCount` | src/App.tsx:132 | a kept element occurs in the result as often as in the input, and a dropped element not at all |
| `Lists.FilterKeepsAll` | src/components/Dashboard.tsx:18 | `filter` loses nothing exactly when every element passes the test, and then returns the list unchanged |
| `Lists.FilterDropsAll` | src/components/Dashboard.tsx:18 | `filter` returns nothing when no element passes the test |
| `Lists.FilterPermutation` | src/components/Dashboard.tsx:18 | reordering the input of `filter` only reorders its output |
| `DateKeys.Before` | src/components/Dashboard.tsx:45 | the order the daily series is sorted by (the comparator on parsed dates, for `YYYY-MM-DD` keys); a proper prefix comes before every extension of it |
| `DateKeys.BeforeIrreflexive` | src/components/Dashboard.tsx:45 | no date sorts before itself |
| `DateKeys.BeforeTransitive` | src/components/Dashboard.tsx:45 | the date order is transitive |
| `DateKeys.BeforeAsymmetric` | src/components/Dashboard.tsx:45 | two dates are never each before the other |
| `DateKeys.BeforeTotal` | src/components/Dashboard.tsx:45 | any two different dates are ordered one way or the other |
| `DateKeys.BeforeAt` | src/components/Dashboard.tsx:45 | dates that agree up to a position and differ there are ordered by the character at that position |
| `DailySeries.FindDay` | src/components/Dashboard.tsx:27 | returns the index of the first entry with the date, or -1 exactly when no entry has it |
| `DailySeries.SummaryAbsent` | src/components/Dashboard.tsx:36-42 | a date without records has the all-zero entry, so a pushed entry holds only the new record's amount |
| `DailySeries.SummarySnocOther` | src/components/Dashboard.tsx:29-44 | a new record leaves the entries of every other date unchanged |
| `DailySeries.SummarySnocSame` | src/components/Dashboard.tsx:30-34 | a new record adds its amount to the income of its date if it is income, and to the expense otherwise |
| `DailySeries.SummaryIsTotalsOfDay` | src/components/Dashboard.tsx:29-42 | an entry's income is the income total of that date's records, and its expense is their expenses total |
| `DailySeries.DayBalanceIsSignedSum` | src/components/Dashboard.tsx:35 | an entry's balance is also the signed running balance of that date's records |
| `DailySeries.GroupReplace` | src/components/Dashboard.tsx:29-35 | updating the entry of an existing date keeps one correct entry per date seen so far |
| `DailySeries.GroupPush` | src/components/Dashboard.tsx:36-42 | pushing an entry for an unseen date keeps one correct entry per date seen so far, and adds exactly that date |
| `DailySeries.GroupByDate` | src/components/Dashboard.tsx:25-44 | the accumulator ends with exactly one entry per distinct date of the input, each holding that date's income, expense and their difference |
| `DailySeries.DistinctDatesCount` | src/components/Dashboard.tsx:25-44 | entries without a repeated date have as many dates as entries |
| `DailySeries.CoversCount` | src/components/Dashboard.tsx:25-44 | the number of entries equals the number of distinct dates in the input |
| `DailySeries.SwapDays` | src/components/Dashboard.tsx:45 | exchanging two neighbouring entries keeps the same entries and no repeated date |
| `DailySeries.SinkDay` | src/components/Dashboard.tsx:45 | one insertion pass extends the sorted prefix by one entry without adding or losing any, and leaves the entries after it untouched |
| `DailySeries.SortByDate` | src/components/Dashboard.tsx:45 | the in-place sort leaves the entries in strictly ascending date order and as a permutation of the input |
| `DailySeries.CoversPermutation` | src/components/Dashboard.tsx:45 | sorting does not change which entries the series holds |
| `DailySeries.BuildDailySeries` | src/components/Dashboard.tsx:25-45 | `chartData` holds exactly one entry per distinct date, each with that date's totals and balance = income - expense, in strictly ascending date order |
| `DailySeries.DailySeriesEntry` | src/components/Dashboard.tsx:29-42 | each entry of the series holds the income and expense totals of its date's records and their signed balance, and that date has at least one record |
| `DailySeries.AscendingDistinct` | src/components/Dashboard.tsx:45 | a strictly ascending series has no date twice |
| `DailySeries.AscendingUnique` | src/components/Dashboard.tsx:45 | two strictly ascending series with the same entries are equal |
| `DailySeries.SummaryPermutation` | src/components/Dashboard.tsx:29-42 | the entry of a date does not depend on the order of the records |
| `DailySeries.DailySeriesUnique` | src/components/Dashboard.tsx:25-45 | the daily series depends only on which records there are, not on their order |
| `DailySeries.ExampleTotals` | src/components/Dashboard.tsx:13-50 | incomes 100 and 50 and an expense of 40 give balance 110, income 150, expenses 40 and the split [Income 150, Expenses 40] |
| `DailySeries.ExampleSeries` | src/components/Dashboard.tsx:25-45 | the same records give the series [2024-01-01: 100, 40, 60; 2024-01-02: 50, 0, 50] |
| `App.WithoutId` | src/App.tsx:132 | the delete filter shortens the list exactly when some record has the id |
| `App.WithoutIdSpec` | src/App.tsx:132 | after the delete filter no record has the id, every other record occurs as often as before, and the order is kept |
| `App.WithoutAbsentId` | src/App.tsx:132 | deleting an id that no record has leaves the list as it is |
| `App.PrependTotals` | src/App.tsx:118 | after a successful add, the dashboard's income and expenses move by the new record's amount alone |
| `App.DeleteTotals` | src/App.tsx:132 | after a successful delete, each dashboard total is the old total less that of the removed records |
| `App.TransactionList.constructor` | src/App.tsx:18-28 | the component starts with no user and an empty list |
| `App.TransactionList.SetUser` | src/App.tsx:31-40 | the session callbacks change the user and leave the list alone |
| `App.TransactionList.FetchTransactions` | src/App.tsx:51-66 | with no user, or on an error, the list is unchanged; otherwise it becomes the returned rows, or empty when the rows are null |
| `App.TransactionList.HandleSignOut` | src/App.tsx:91-94 | sign-out leaves the list empty |
| `App.TransactionList.AddTransaction` | src/App.tsx:96-119 | with no user nothing is sent and nothing changes; otherwise the row sent carries the user's id and today's date; on an error the list is unchanged; on success it is one longer, with the stored record first and the old list as its tail |
| `App.TransactionList.DeleteTransaction` | src/App.tsx:121-133 | on an error the list is unchanged; on success it is the old list without the records of that id, in their original order |

## Findings

| source | as written | input that shows it | evidently intended | confidence | as-written member | corrected member |
|---|---|---|---|---|---|---|
| src/components/Dashboard.tsx:100 | the bar width is `Math.min(savingsPercentage, 100)`, with no lower bound | income 100, expenses 120: savings -20, so the inline style is `width: -20%`. Browsers reject a negative width and drop the declaration, so the bar shows at its automatic width (the full track) when first drawn overspent, or keeps its previous width | a width within [0, 100]: the bar is a percentage of an `overflow-hidden` progress track (Dashboard.tsx:96-101), so 0% is the emptiest it can meaningfully be | medium, not executed | `Dashboard.BarWidth`, `Dashboard.BarWidthNegativeWhenOverspent` | `Dashboard.ClampedBarWidth` |

## Left out

- The hosted backend is not modelled. This covers the session, sign-up and
  sign-in, sign-out, and the select, insert and delete queries. Only each
  call's reply enters the model, as a method parameter. The owner filter and
  the descending date order of the fetch are the backend's, and are not checked.
- The async/await sequencing and the React effects and subscriptions are not
  modelled. `SetUser` stands for the session callbacks. Each handler is one
  atomic step here. In the source, add and delete build the new list from the
  list as it was when the handler was created, so an update that lands while a
  call is pending can be overwritten. The model does not capture that.
- JavaScript `number` arithmetic is not modelled. Amounts are exact integers,
  and the savings percentage is an exact `real`. `toFixed` formatting and
  `Number(amount)` parsing are left out.
- The clock is not modelled: `new Date().toISOString()` becomes the `today`
  parameter. Date parsing (`new Date(...).getTime()`) becomes the
  lexicographic order of well-formed `YYYY-MM-DD` strings. A malformed date,
  which would compare as NaN, is not modelled.
- `GroupByDate` keeps the per-day entries as values in a sequence. In the
  source they are objects that are mutated through a reference, which the
  model does not capture. No other code can see those objects.
- The order of entries before sorting (first appearance) is not stated. Only
  the sorted result is specified.
- The `console.error` logging on each error path of fetch, add and delete
  (App.tsx:61, 114, 128) is output only. It changes no state, and the model
  keeps just the early return that follows it.
- The authentication form (`handleAuth`, `authMode`, `authError`), the loading
  flag and the screen switch are UI state, and are left out. So is the
  report stub (`handleSendReport`).
- `src/components/Transactions.tsx` and `src/components/Settings.tsx` are not
  part of this model. They are form state and rendering.
- All JSX, charts, icons and styling are left out.
