# Expense tracker: the expense hook as a verified Dafny model

The expense tracker keeps one signed-in user's expenses in memory. Its
expense hook (`useExpenses`) does four things. It turns optional filter
criteria into a query for the remote record store. It holds the state
`(expenses, loading, error)`. After each remote call resolves, it patches
the list: a fetch replaces it, an add prepends, an update replaces by id,
and a delete filters by id. It also folds the list into a summary: the
total, the count and a per-category subtotal.

This project models that hook and the record shapes it uses. The remote
store is not modelled. Each remote call's outcome is an input to the
transition: `Ok(data)` or `Err(message)`.

- `types.dfy` (`ExpenseTypes`): `Expense`, `NewExpense`, the partial update
  payload `ExpensePatch`, `Filter` and `Summary`; the closed set of four
  categories; and the insert row (the payload stamped with the user id).
- `query.dfy` (`ExpenseQuery`): the query a fetch builds. It has a fixed
  table, columns and ordering, plus one `Eq`/`Gte`/`Lte`/`ILike`
  constraint for each filter field that is set. `CriteriaFrom` reads the
  criteria back out of a query.
- `patches.dfy` (`ListPatches`): `Prepend`, `ReplaceById` and `RemoveById`
  on `seq<Expense>`, with lemmas about order, idempotence and undo.
- `summary.dfy` (`Summaries`): the two left folds of the summary and their
  reference definitions. It proves that the per-category values sum to
  the total, using `SumValues`, a sum over any map's values.
- `hook.dfy` (`ExpenseHook`): the state, the initial state `Initial`
  (empty list, `loading` true, no error, as the hook's `useState` calls
  set it up), and the transitions `Fetch`, `Add`, `Update`, `Delete` and
  `GetSummary`.

Amounts are `real`. The original stores them in IEEE doubles, so its sums
round; the model's sums are exact. A filter field counts as set when it is
present and not the empty string. This matches JavaScript truthiness on an
optional string.

`fetchExpenses` never resets `error` on success, and neither do the
mutations, so a successful `Fetch`, `Add`, `Update` or `Delete` keeps the
previous `error`.

## Model

| member | source | states |
|---|---|---|
| `ExpenseTypes.CategoryNamesDistinct` | sb1-djpzu5tu/src/types/expense.ts:4 | The four category values are stored under four distinct strings, so the per-category map never merges two categories. |
| `ExpenseTypes.ToInsertRow` | sb1-djpzu5tu/src/hooks/useExpenses.ts:50 | The inserted row is exactly the payload's four fields plus the acting user's id (absent when nobody is signed in); the payload can be read back from it unchanged. |
| `ExpenseQuery.BuildQuery` | sb1-djpzu5tu/src/hooks/useExpenses.ts:13-33 | Every query selects `*` from `expenses`, ordered by `date` descending and then `created_at` descending; it has exactly one constraint per set filter field. |
| `ExpenseQuery.QueryConstraintsIff` | sb1-djpzu5tu/src/hooks/useExpenses.ts:19-33 | `eq category v`, `gte date v`, `lte date v` and `ilike description %v%` are in the query if and only if the matching filter field is present and equals the non-empty `v`; no other constraint appears. |
| `ExpenseQuery.CriteriaRoundTrip` | sb1-djpzu5tu/src/hooks/useExpenses.ts:19-33 | Reading the criteria back from the built query gives the filter with its unset fields made absent, so the query loses nothing the filter set. |
| `ExpenseQuery.QueryIgnoresUnsetFields` | sb1-djpzu5tu/src/hooks/useExpenses.ts:19-31 | A field that is absent and a field that is the empty string build the same query. |
| `ExpenseQuery.SameQueryIffSameCriteria` | sb1-djpzu5tu/src/hooks/useExpenses.ts:13-33 | Two filters build the same query exactly when they set the same fields to the same values. |
| `ExpenseQuery.NoCriteriaNoConstraints` | sb1-djpzu5tu/src/hooks/useExpenses.ts:10-33 | Calling with no filter, with an empty filter, or with all four fields empty builds the same unconstrained query. |
| `ListPatches.Prepend` | sb1-djpzu5tu/src/hooks/useExpenses.ts:56 | After an add, the list is one longer, the created row comes first, and every old entry follows in its old order. |
| `ListPatches.ReplaceById` | sb1-djpzu5tu/src/hooks/useExpenses.ts:76 | After an update, the length and positions are kept, every entry with the target id is the returned row, and every other entry is untouched. |
| `ListPatches.RemoveById` | sb1-djpzu5tu/src/hooks/useExpenses.ts:94 | After a delete, no entry has the id, the length drops by the number of entries that had it, and an entry survives exactly when it was present and had another id. |
| `ListPatches.ReplaceAbsentIsIdentity` | sb1-djpzu5tu/src/hooks/useExpenses.ts:76 | Updating an id that no entry has leaves the list unchanged. |
| `ListPatches.ReplaceIdempotent` | sb1-djpzu5tu/src/hooks/useExpenses.ts:76 | Applying the same successful update twice gives the same list as applying it once. |
| `ListPatches.RemoveAbsentIsIdentity` | sb1-djpzu5tu/src/hooks/useExpenses.ts:94 | Deleting an id that no entry has leaves the list unchanged. |
| `ListPatches.RemoveIdempotent` | sb1-djpzu5tu/src/hooks/useExpenses.ts:94 | Deleting the same id twice gives the same list as deleting it once. |
| `ListPatches.RemoveUniquePresent` | sb1-djpzu5tu/src/hooks/useExpenses.ts:94 | When ids are unique and the id is present, a delete removes exactly one entry. |
| `ListPatches.RemoveKeepsOrder` | sb1-djpzu5tu/src/hooks/useExpenses.ts:94 | The surviving entries keep their relative order: the result maps onto the input along strictly increasing positions. |
| `ListPatches.RemoveAfterReplace` | sb1-djpzu5tu/src/hooks/useExpenses.ts:76-94 | Updating an entry (the returned row keeps its id) and then deleting that id gives the same list as deleting it straight away. |
| `ListPatches.RemoveUndoesPrepend` | sb1-djpzu5tu/src/hooks/useExpenses.ts:56-94 | Deleting the id of a row just added, when that id was new to the list, restores the list from before the add. |
| `Summaries.Tally` | sb1-djpzu5tu/src/hooks/useExpenses.ts:105-108 | The per-category fold's keys are exactly the categories present in the list, and each key maps to the sum of that category's amounts. |
| `Summaries.CategoriesPresent` | sb1-djpzu5tu/src/hooks/useExpenses.ts:105-108 | A key is among the categories present exactly when some entry of the list has that category. |
| `Summaries.CategoriesWithinClosedSet` | sb1-djpzu5tu/src/types/expense.ts:26-30 | Every key of the string-keyed per-category map is one of the four category names. |
| `Summaries.Summarize` | sb1-djpzu5tu/src/hooks/useExpenses.ts:103-115 | The count is the list's length; the per-category keys and subtotals are as for `Tally`; the per-category values sum to the total. |
| `Summaries.TallySumsToTotal` | sb1-djpzu5tu/src/hooks/useExpenses.ts:104-108 | The values of the per-category map, summed in any key order, equal the sum of all amounts. |
| `Summaries.Total` | sb1-djpzu5tu/src/hooks/useExpenses.ts:104-108 | The `reduce` total of the amounts equals the sum of the Food, Travel, Shopping and Other subtotals, so the summary's total and its breakdown agree. |
| `Summaries.TotalFront` | sb1-djpzu5tu/src/hooks/useExpenses.ts:104 | The left fold also equals the first amount plus the total of the rest. |
| `Summaries.EmptySummary` | sb1-djpzu5tu/src/hooks/useExpenses.ts:103-115 | The empty list summarises to total 0, count 0 and an empty map. |
| `Summaries.TwoEntryExample` | sb1-djpzu5tu/src/hooks/useExpenses.ts:103-115 | A list of 50 on Food and 30 on Travel summarises to total 80, count 2 and `{Food: 50, Travel: 30}`. |
| `Summaries.SummaryAfterPrepend` | sb1-djpzu5tu/src/hooks/useExpenses.ts:103-115 | Prepending a row adds its amount to the total and one to the count. |
| `Summaries.RemoveTotal` | sb1-djpzu5tu/src/hooks/useExpenses.ts:94-104 | Deleting an id takes exactly the amounts of the entries with that id off the total. |
| `Summaries.SummaryAfterRemove` | sb1-djpzu5tu/src/hooks/useExpenses.ts:94-115 | After a delete, the count drops by the number of entries with that id, and the total drops by their amounts. |
| `ExpenseHook.Fetch` | sb1-djpzu5tu/src/hooks/useExpenses.ts:10-43 | A fetch sends the built query and raises `loading` while it runs. On success, the list becomes the returned rows (empty when the data is null) and the error is left as it was. On failure, the list is kept and the message is recorded. `loading` ends false either way. |
| `ExpenseHook.Add` | sb1-djpzu5tu/src/hooks/useExpenses.ts:46-63 | An add submits the stamped payload. On success, the created row is prepended and returned with a null error. On failure, the list is kept, the message is recorded and returned, and the data is null. `loading` is untouched. |
| `ExpenseHook.Update` | sb1-djpzu5tu/src/hooks/useExpenses.ts:65-83 | An update sends the id and the partial payload. On success, entries with that id are replaced in place by the returned row, which is returned with a null error. On failure, the list is kept, the message is recorded and returned, and the data is null. |
| `ExpenseHook.Delete` | sb1-djpzu5tu/src/hooks/useExpenses.ts:85-101 | On success, a delete drops the entries with that id and returns a null error. On failure, it keeps the list and records and returns the message. `loading` is untouched. |
| `ExpenseHook.GetSummary` | sb1-djpzu5tu/src/hooks/useExpenses.ts:103-115 | The hook's summary counts the current list, and its per-category values add up to its total. |
| `ExpenseHook.MountFetch` | sb1-djpzu5tu/src/hooks/useExpenses.ts:6-12 | The hook starts from `Initial`: an empty list, `loading` true and a null error. The fetch it runs on mount, with no filter, sends the unconstrained query, keeps that state while pending, and settles with `loading` false to the returned rows and a null error, or to the empty list and the message. |
| `ExpenseHook.FetchReplacesList` | sb1-djpzu5tu/src/hooks/useExpenses.ts:35-43 | After a successful fetch, the list depends only on the returned rows, not on the list before; fetching the same rows again changes nothing. |
| `ExpenseHook.FailedMutationsKeepList` | sb1-djpzu5tu/src/hooks/useExpenses.ts:46-101 | A failed add, update or delete changes only `error`, to the message; each returns a non-null error, and add and update return null data. |
| `ExpenseHook.AddThenDelete` | sb1-djpzu5tu/src/hooks/useExpenses.ts:46-101 | After a successful add, the list is one longer with the old entries behind the new row; deleting the new row's id (which was new to the list) restores the whole state. |
| `ExpenseHook.UpdateAbsentOrRepeated` | sb1-djpzu5tu/src/hooks/useExpenses.ts:65-83 | A successful update of an id absent from the list leaves the state unchanged, and repeating a successful update changes nothing further. |
| `ExpenseHook.DeleteShrinksSummary` | sb1-djpzu5tu/src/hooks/useExpenses.ts:85-115 | After a successful delete, no entry has the id, and the summary's count and total drop by the count and amounts of the removed entries. |
| `ExpenseHook.AddGrowsSummary` | sb1-djpzu5tu/src/hooks/useExpenses.ts:46-115 | After a successful add, the summary counts one more entry, and its total grows by the created row's amount. |

## Left out

- Remote record store: the Supabase client and its calls are not modelled. This covers the query itself, insert, update, delete, and `auth.getUser()`. Each outcome is an input to the transition. `src/lib/supabase.ts` is not part of this model.
- Server-side query evaluation: not modelled. This covers `ilike` matching, where `%` and `_` in the search text are not escaped and so act as wildcards. It also covers date-string comparison and row ownership. The model describes only the query the client builds.
- Merging a partial update into a stored row: this happens in the backend. The model takes the returned row as given.
- Error-message extraction: not modelled. This covers the `instanceof Error` test and the fallback texts ("An error occurred", "Failed to add expense", "Failed to update expense", "Failed to delete expense"). The message is an opaque string carried by `Err`.
- Concurrency and React scheduling: not modelled. This covers overlapping fetches, functional state updaters and when React runs the mount-time effect; the fetch that effect makes is `MountFetch`. Transitions are applied one at a time.
- Key order of `byCategory`: the original object lists its categories in the order each first appears in the list, and the summary cards show them in that order. A Dafny map is unordered, so the model keeps only the keys and their subtotals.
- Floating point: not modelled. Amounts are exact reals, so the per-category values sum to the total exactly. In the original, that holds only up to rounding.
- Presentation: the form, the list, the summary cards and the App component are not modelled. This includes `parseFloat`, the average, the rounded percentages, confirmation dialogs and the edit-selection guard.
- `ExpenseHook.GetSummary`: states only the count and the sum identity. The keys and per-category values are stated on `Summaries.Summarize`, which it returns unchanged.
