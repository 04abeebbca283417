# Expense tracker ledger — a Dafny model

This project models the ledger arithmetic of a browser expense tracker
(`script.js`). The tracker keeps an array of transactions. Each one has an id,
a date, a description, a category, an amount and a type label. The model
covers what the tracker does to that array and what it derives from it:

- the submit handler validates five form fields and appends one record;
- the renderer filters the list by category;
- the delete handler finds the first record with the clicked id and splices it out;
- `calculateSummary` computes the income and expense totals, the net balance,
  and the per-category expense map that feeds the chart;
- `initChart` hides the chart when that map is empty;
- `loadFromLocalStorage` gives an id to stored records that lack one.

All of it is pure functions over an immutable `seq<Transaction>`:

| file | module | contents |
|---|---|---|
| `wrappers.dfy` | `Wrappers` | `Option` |
| `transactions.dfy` | `Transactions` | the record, `Keep` (the source's `filter`), `SumAmounts` (its `reduce`), and the reference sum `AmountWhere` |
| `ledger.dfy` | `LedgerStore` | submit, category filter, find-index, delete |
| `summary.dfy` | `SummaryEngine` | totals, category map, chart visibility |
| `persistence.dfy` | `Persistence` | stored records, save, id backfill, load |
| `controller.dfy` | `Controller` | the page state and the load, submit, delete and resize handlers |

Representation choices:

- Amounts are `real`, and sums are exact.
- The result of `parseFloat` is an `Option<real>`, where `None` stands for NaN.
- A type label is a plain string. Only `"Income"` and `"Expense"` count towards a total.
- A stored id is an `Option<int>`. Both `None` and `0` are falsy.
- Fresh ids come in as a parameter: `Date.now()` for a submission, and a
  function `newId` for the load backfill.
- The user's confirmation and the selected category filter are also parameters.

Each operation comes with a partner that the proofs tie it to:

- The totals and the category map are proved equal to a direct reference
  sum, `AmountWhere`, written without any filtering step.
- The category map's values are proved to add up to the expense total.
- Delete is proved to undo a submit whose id no record already carries.
  When the new id collides with an older record's, the delete removes the
  older record instead (see **Ids** below).
- Save followed by load is proved to give back the ledger when no id is 0.
- Every handler is proved to keep the summary equal to that of the ledger.

Behaviours of the code that the model keeps as they are:

- **Stored data.** A missing key, or a stored value that parses to a falsy
  JSON value (`null`, `false`, `0`, `""`), falls back to `[]`. Unparsable
  text throws in `JSON.parse`, and a truthy value that is not an array throws
  in `.map`.
- **Amounts.** Negative amounts pass the submit guard. The guard rejects only
  0 and NaN (`Rejects`).
- **Type labels.** The type label is a free string. A label other than
  `"Income"` or `"Expense"` counts towards neither total.
- **Ids.** Nothing in the code keeps ids unique. `Delete` removes only the
  first record with a given id, and later duplicates stay
  (`DeleteRemovesFirst`).
- **Filter on submit.** After an accepted submission the list is redrawn
  without the selected category filter (`renderTransactions()` with no
  argument). Delete and resize redraw with the filter (`OnSubmit`, `OnDelete`).
- **Filter changes.** `script.js` registers no handler for a change of the
  category filter. Within `script.js` the filter only takes effect when a
  delete or a resize redraws the list. A handler declared in the page's
  markup, if any, is not modelled.
- **Load.** Load does not write the backfilled ids back to storage
  (`OnLoad` keeps `stored == saved`). A legacy record therefore gets a new id on
  every load until the next submit or delete saves the ledger.

## Model

| member | source | states |
|---|---|---|
| `LedgerStore.Submit` | script.js:120-147 | If the date, description, category or type is empty, or the amount is NaN or 0, the ledger is unchanged. Otherwise exactly one record is appended at the end, with the given id and the form's fields, and every earlier record is unchanged. |
| `LedgerStore.FilterByCategory` | script.js:168-171 | An empty filter returns the whole ledger. A non-empty filter returns the records whose category equals it, each with its full multiplicity and no others, as a subsequence of the ledger in the original order. |
| `Transactions.Keep` | script.js:169-171 | Array filtering keeps exactly the accepted records (in the multiset sense) and preserves their relative order. |
| `LedgerStore.FindIndex` | script.js:280 | Returns no index exactly when no record has the id. Otherwise it returns the position of a record with the id, and no earlier record has it. |
| `LedgerStore.Delete` | script.js:274-292 | If the user declines or the id is absent, the ledger is unchanged. The length drops by one exactly when the user confirms and the id is present. The result is always a subsequence of the ledger. |
| `LedgerStore.DeleteRemovesFirst` | script.js:280-285 | A confirmed delete splices out precisely the first record with the id. All other records, later duplicates included, keep their order. |
| `LedgerStore.DeleteUndoesSubmit` | script.js:137-285 | Submitting a valid form under an id that no record has, then confirming the delete of that id, gives back the original ledger. |
| `Transactions.SumOfKept` | script.js:300-307 | Filter-then-reduce adds up exactly the amounts of the accepted records, as the reference sum defines them. |
| `SummaryEngine.Total` | script.js:300-307 | The total for a type label is the sum of the amounts of the records with exactly that label. |
| `SummaryEngine.ExpensesByCategory` | script.js:327-332 | The map's keys are exactly the categories of the `"Expense"` records. Each value is the sum of that category's expense amounts. The values add up to the expense total. |
| `SummaryEngine.Summarize` | script.js:298-332 | Income and expenses are the sums over the `"Income"` and `"Expense"` records, and the balance is income minus expenses. The category map has the keys, values and value total above, so no income record appears in it. |
| `SummaryEngine.GroupKeys` | script.js:329-331 | The reduce into an object creates a key for every category it meets, and no other key. |
| `SummaryEngine.GroupValue` | script.js:329-331 | Each entry of the reduced object is the sum of the amounts in its category. A category that is absent stands for 0. |
| `SummaryEngine.GroupSum` | script.js:329-331 | The entries of the reduced object add up to the sum of all amounts reduced. |
| `SummaryEngine.ChartHiddenIffNoExpense` | script.js:27-29 | The chart is hidden exactly when the ledger has no `"Expense"` record. |
| `SummaryEngine.EmptyLedger` | script.js:298-335 | The empty ledger gives income, expenses and balance of 0, an empty category map, and a hidden chart. |
| `SummaryEngine.SummaryAfterAppend` | script.js:300-332 | Appending a record raises only the total its type label names, by its amount. A record that is not an expense leaves the category map unchanged. An expense updates only its own category's entry. |
| `SummaryEngine.ExpensesAfterAppend` | script.js:327-332 | Appending a non-expense leaves the category map unchanged. Appending an expense adds its amount to its own category. |
| `SummaryEngine.SummaryAfterSplice` | script.js:300-309 | Removing the record at a position lowers only the total its type label names, by its amount. |
| `SummaryEngine.SalaryAndRent` | script.js:298-332 | A salary of 3000 (income) and a rent of 1200 (expense, Housing) give totals 3000 and 1200, balance 1800, and the map {Housing: 1200}. |
| `Persistence.Backfill` | script.js:352-357 | Length and order are preserved and every field except the id is kept. A truthy stored id is kept. A missing or zero id is replaced by the id supplied for that position. |
| `Persistence.Load` | script.js:349-357 | A missing key gives the empty ledger. Stored records give one in-memory record each, in order, with the same fields. A truthy stored id is kept, and a missing or zero id becomes the id supplied for that position. |
| `Persistence.LoadAfterSave` | script.js:341-357 | Saving a ledger whose ids are all non-zero and loading it back gives the same ledger, whatever ids would have been supplied. |
| `Persistence.ZeroIdIsReplaced` | script.js:353-355 | A record saved with id 0 does not survive the round trip, because 0 is falsy and is replaced. |
| `Persistence.ReloadIsStable` | script.js:348-357 | If the supplied ids are non-zero, every loaded record has a truthy id, and saving and loading again changes nothing. |
| `Controller.OnLoad` | script.js:348-361 | The ledger is the migrated stored records. The summary matches the ledger and the whole ledger is listed. Storage is not rewritten. A missing key gives the empty ledger with zero totals. |
| `Controller.OnSubmit` | script.js:120-155 | A rejected form changes nothing. An accepted form gives the ledger of an accepted `Submit` (one record with the given id and the form's fields appended, earlier records unchanged), lists the whole ledger, brings the summary in line, and stores the new ledger. |
| `Controller.OnDelete` | script.js:274-292 | The ledger is the one `LedgerStore.Delete` gives. A declined confirmation or an absent id changes nothing. Otherwise precisely the first record carrying the id is spliced out, the result is a subsequence, the list is filtered by the selected category, the summary is in line, and storage holds the new ledger. |
| `Controller.OnResize` | script.js:264-271 | Ledger, summary and storage are unchanged. The list is the category filter applied to the ledger: every record of the selected category and no other, in ledger order. |
| `Controller.HandlersKeepSync` | script.js:146-288 | Submit, delete and resize each keep the summary figures equal to those of the current ledger. |
| `Controller.SubmitMovesTotals` | script.js:146-149 | An accepted submission raises the total its type label names by the amount entered. The other total is unchanged. |
| `Controller.DeleteMovesTotals` | script.js:284-287 | A confirmed delete lowers the total named by the first matching record's type label, by that record's amount. |

## Left out

- `SummaryEngine.ExpensesByCategory`: a category whose name is a property of `Object.prototype` (`__proto__`, `constructor`, `toString`, `valueOf`, ...) is not modelled. The source's `{}` accumulator inherits those names. It drops a `__proto__` entry and turns the others into strings. The model treats every category name as a plain key, because those names are not meaningful expense categories and a string-valued entry has no place in a map of amounts.
- `SummaryEngine.Summarize`: the category-map clauses do not cover categories named after `Object.prototype` properties, for the reason given for `ExpensesByCategory`.
- `SummaryEngine.GroupKeys`: a category named `__proto__` gets a key in the model, but not in the source's object. Other `Object.prototype` names are not modelled either, as for `ExpensesByCategory`.
- `SummaryEngine.GroupValue`: for categories named after `Object.prototype` properties, the source's entry is a concatenated string, not the sum. This is not modelled, as for `ExpensesByCategory`.
- `SummaryEngine.GroupSum`: the sum of the entries equals the total only for categories not named after `Object.prototype` properties in the source. The model does not distinguish them, as for `ExpensesByCategory`.
- `SummaryEngine.ChartHiddenIffNoExpense`: in the source, a ledger whose only expenses are filed under `__proto__` also hides the chart. The model does not cover this, as for `ExpensesByCategory`.
- `SummaryEngine.SummaryAfterAppend`: the category-map clause does not cover categories named after `Object.prototype` properties, as for `ExpensesByCategory`.
- `SummaryEngine.ExpensesAfterAppend`: an expense filed under a name of an `Object.prototype` property does not add its amount in the source. This is not modelled, as for `ExpensesByCategory`.
- `SummaryEngine.Summarize`: sums are exact `real` sums. The source adds IEEE-754 doubles, so the rounding of JavaScript arithmetic is not modelled.
- `LedgerStore.Submit`: `parseFloat` is taken as an already parsed `Option<real>`. Its prefix parsing (`"12abc"` gives 12), and infinite results, are not modelled.
- `LedgerStore.Delete`: the clicked id is taken as an integer. The source gets it from `parseInt` of the button's `data-id`, a round trip through text that is not modelled.
- `Persistence.HasId`: only a missing, null or zero id counts as falsy. Other falsy JSON values (an empty string, `false`) are not modelled.
- DOM building, the table and card templates, and the style changes after rendering (script.js:161-261, 312-324): presentation only.
- Chart.js construction, palette slicing, tooltip percentages and `chart.resize()` (script.js:18-95, 264-271): calls into an external library. Only the decision to hide the chart is modelled.
- `formatCurrency` and `formatDate` (script.js:102-117): locale formatting through `Intl` and `Date`.
- JSON text and `localStorage` (script.js:341-349): the model works with the decoded array of records. A missing key and a stored value that parses to a falsy JSON value both read as `None`. Unparsable text, which makes `JSON.parse` throw, is not modelled. Neither is a truthy value that is not an array, which makes `.map` throw.
- Id generation from `Date.now()` and `Math.random()` (script.js:138, 354): the ids are parameters. Nothing is claimed about their freshness or uniqueness, since the code guarantees neither.
- `alert`, `confirm`, focus, `form.reset` and the default date on page load: UI side effects. The confirmation is a boolean input.
- The key order of the JavaScript object behind the category map: it affects only the chart's colour order. The map is a Dafny `map`.
