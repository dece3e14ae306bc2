# finsas ledger engine in Dafny

This project models the client-side ledger engine of finsas, a personal-finance web app. Everything the engine does is sequential logic over plain records:

- **Balance engine** (`calculateAccountBalances`): each account's current balance is derived from its opening balance and the signed effect of every transaction on it.
- **Budget engine** (`calculateBudgetsSpent`): each budget's spent amount is the sum of the expenses of its month, restricted to its category unless the budget is global.
- **Filter engine** (`getFilteredTransactions`): a stable AND of optional criteria, with JavaScript truthiness deciding which criteria are set.
- **In-memory reducer** (`appReducer`) and the **ledger coordinator** built on it. The coordinator's create, update and delete operations are pure transitions on the pair (in-memory state, persistent store).
- **Persistence adapter** (`storage`): a key/value store. The account, transaction and budget collections are written merge-by-owner; categories are written whole.
- **Dashboard aggregation**: total balance, the month's income, expenses and net, the expenses grouped by category name, and a twelve-month trend.
- **Session state machine** (`authReducer`), with session restore, sign-in, sign-out and profile edits.

Modules:

| file | module | what it holds |
|---|---|---|
| `calendar.dfy` | `Calendar` | Instants as milliseconds on a proleptic-Gregorian timeline; `YearMonth`, month starts, the twelve-month list. |
| `types.dfy` | `Types` | The records (User, Account, Category, Transaction, Budget), `Partial<T>` patches and how they merge. |
| `collections.dfy` | `Collections` | Filter, update-by-key, remove-by-key and sums over sequences, with their laws. |
| `storage.dfy` | `Storage` | The store and its getters and setters. |
| `balances.dfy` | `Balances` | The balance engine and the balance invariant. |
| `budgets.dfy` | `Budgets` | The budget engine. |
| `filter.dfy` | `TransactionFilter` | The filter engine. |
| `reducer.dfy` | `AppReducer` | The in-memory reducer. |
| `ledger.dfy` | `Coordinator` | The create/update/delete operations and data loading. |
| `dashboard.dfy` | `Dashboard` | The dashboard aggregation. |
| `auth.dfy` | `Auth` | The session reducer and the operations around it. |

Representation:

- Amounts are exact `real`s.
- Dates are integer millisecond instants on one local timeline. Outside `Dashboard.ParsedMonth` the UTC offset is zero.
- A budget month is a `(year, month)` pair. `MonthStart` is its first instant. `NextMonthStart` is the first instant of the following month. `MonthEnd`, the dashboard's end of month, is one millisecond before `NextMonthStart`.
- JSON encoding is the identity, and a storage key never written reads as empty.
- A nullable string is "set" when it is present and non-empty (`Present`).
- The current user, each fresh identifier, the current instant and the remote sign-in outcome are parameters.

Deleting a user's only account (or only transaction, or only budget) writes an empty list. An empty list names no owner, so the merge-by-owner write keeps the old records: the deleted record stays in the store and returns on the next load. The model keeps this behaviour as the code has it; `Coordinator.DeleteLastAccountStaysStored` states it, and the sync lemmas carry the matching precondition.

## Model

| member | source | states |
|---|---|---|
| Calendar.MonthLength | src/utils/budgets.ts:6-8 | The month after `m` starts exactly `DaysInMonth` days after `m` does, so every month window is non-empty and December rolls into January of the next year. |
| Calendar.Last12Months | src/utils/date.ts:20-30 | Exactly twelve months, oldest first, ending with the current month, each the successor of the one before. |
| Collections.SelectionIsFilter | src/contexts/AppContext.tsx:66-70 | An order-preserving subsequence of accepted elements as long as the count of accepted elements is the `filter` result itself, so the contracts stated that way fix the result completely. |
| Collections.FilterCounts | src/contexts/AppContext.tsx:66-70 | `filter` keeps every copy of an accepted element and no copy of a rejected one. |
| Collections.UpdateWhere | src/contexts/AppContext.tsx:58-64 | Same length; every record with the key is changed, every other record is kept; no record with the key means no change. |
| Collections.RemoveWhere | src/contexts/AppContext.tsx:66-70 | The result is an order-preserving subsequence: it holds no record with the key, keeps every record without it, and is as long as the number of records without the key (so every copy is kept); no record with the key means no change. |
| Collections.RemoveAfterAppend | src/contexts/AppContext.tsx:100-104 | Removing the key of a record just appended with a fresh key restores the original list. |
| Collections.RemoveUnique | src/contexts/AppContext.tsx:100-104 | With unique keys, removing the key at index `i` slices out exactly that record. |
| Storage.OwnedBy | src/utils/storage.ts:33-37 | Reading a user's records gives exactly the stored records with that owner, in stored order and with every copy (its length is the number of such records). |
| Storage.MergeByOwner | src/utils/storage.ts:39-45 | After a write, each owner reads back the written records if the write names that owner, and the stored ones otherwise; an empty write changes nothing. |
| Storage.ReadAfterWrite | src/utils/storage.ts:33-45 | Writing a non-empty list owned by one user and reading that user back gives exactly that list. |
| Storage.LastWriterWins | src/utils/storage.ts:39-45 | A second write that covers every owner of the first erases every trace of the first. |
| Storage.SetUser | src/utils/storage.ts:15-22 | The user read back is the one written; no other key changes. |
| Storage.SetToken | src/utils/storage.ts:24-30 | The token read back is the one written; no other key changes. |
| Storage.SetAccounts | src/utils/storage.ts:39-45 | Each user's accounts read back follow the merge-by-owner rule; an empty write keeps the stored accounts; no other key changes. |
| Storage.SetCategories | src/utils/storage.ts:47-54 | Categories are overwritten whole and read back unfiltered; no other key changes. |
| Storage.SetTransactions | src/utils/storage.ts:56-68 | Each user's transactions read back follow the merge-by-owner rule; an empty write keeps the stored list; no other key changes. |
| Storage.SetBudgets | src/utils/storage.ts:70-82 | Each user's budgets read back follow the merge-by-owner rule; an empty write keeps the stored list; no other key changes. |
| Storage.SetTheme | src/utils/storage.ts:84-90 | The theme read back is the one written; no other key changes. |
| Storage.ClearAll | src/utils/storage.ts:92-96 | Afterwards there is no user and no token, every collection reads empty, and the theme reads light. |
| Balances.UntouchedHaveNoEffect | src/contexts/AppContext.tsx:157-159 | Pre-filtering to the transactions that touch the account does not change the sum of effects. |
| Balances.BalanceInvariant | src/contexts/AppContext.tsx:155-181 | The source's filter-and-accumulate loop yields opening + income − expenses − outgoing transfers + incoming transfers. |
| Balances.UntouchedKeepsOpening | src/contexts/AppContext.tsx:157-161 | An account no transaction touches keeps its opening balance. |
| Balances.RecomputeBalances | src/contexts/AppContext.tsx:155-181 | Same accounts in the same order; each differs from its input only in `currentBalance`, which meets the balance invariant. |
| Balances.RecomputeIdempotent | src/contexts/AppContext.tsx:155-181 | Recomputing twice is recomputing once; the result is balanced; recomputing is the identity exactly on balanced lists. |
| Balances.SelfTransferNetsZero | src/contexts/AppContext.tsx:163-176 | A transfer from an account to itself leaves its balance unchanged. |
| Balances.AppendEffect | src/contexts/AppContext.tsx:163-176 | Appending one transaction moves an expected balance by exactly that transaction's effect on the account. |
| Balances.TransferConservesTotal | src/contexts/AppContext.tsx:163-176 | With unique ids, a transfer between two listed accounts leaves the total of the recomputed balances unchanged. |
| Balances.ExpenseExample | src/contexts/AppContext.tsx:155-181 | An opening balance of 500000 and one expense of 30000 give 470000. |
| Budgets.AccumulateIsSum | src/utils/budgets.ts:10-16 | The `reduce` from a running sum adds the sum of the amounts of exactly the counting transactions. |
| Budgets.SpentMatchesExpectation | src/utils/budgets.ts:10-16 | The `reduce` from zero is the expense total of the budget's half-open month, restricted to its category when it has one. |
| Budgets.CalculateBudgetsSpent | src/utils/budgets.ts:4-20 | Same budgets in the same order; only `spent` changes, and it is the expected spent amount. |
| Budgets.RecomputeSpentIdempotent | src/utils/budgets.ts:10-18 | The result ignores the incoming `spent`, so applying it twice equals applying it once. |
| Budgets.NonExpenseIgnored | src/utils/budgets.ts:11 | Inserting an income or transfer anywhere in the list changes no budget. |
| Budgets.MonthWindowHalfOpen | src/utils/budgets.ts:6-13 | An expense at the first instant of the month counts in full; one at the first instant of the next month counts nothing. |
| Budgets.CategoryScope | src/utils/budgets.ts:14 | A categorised budget counts only its category; a global budget counts every expense of the month, uncategorised ones included. |
| Budgets.RemovalSubtractsContribution | src/utils/budgets.ts:10-16 | Deleting a transaction lowers spent by exactly what it contributed. |
| Budgets.SpentExample | src/utils/__tests__/budgets.test.ts:5-22 | Expenses of 50 in c1 and 30 in c2 plus an income of 200 give 50 to the c1 budget and 80 to the global one. |
| Budgets.DeleteExample | src/pages/__tests__/budgets.crud.test.ts:44-65 | Two expenses of 40 and 20 give 60; without the 20 the budget has 40. |
| TransactionFilter.Lower | src/contexts/AppContext.tsx:327-329 | Lower-casing keeps the length, leaves no capital letter, turns each capital into its small letter and keeps every other character. |
| TransactionFilter.LowerIdempotent | src/contexts/AppContext.tsx:327-329 | Lower-casing an already lower-cased string changes nothing. |
| TransactionFilter.ChainIsConjunction | src/contexts/AppContext.tsx:304-340 | The chain of early rejections accepts a transaction exactly when it passes each criterion taken alone. |
| TransactionFilter.FilterTransactions | src/contexts/AppContext.tsx:303-341 | The result is an order-preserving subsequence holding exactly the transactions that meet every set criterion, each copy included (its length is the number accepted); no criteria returns every transaction. |
| TransactionFilter.SameVerdicts | src/contexts/AppContext.tsx:303-341 | Two filters that accept the same transactions select the same list. |
| TransactionFilter.ZeroAmountBoundIgnored | src/contexts/AppContext.tsx:322-323 | An amount bound of 0 is falsy and filters like an absent bound. |
| TransactionFilter.EmptySearchAndTagsIgnored | src/contexts/AppContext.tsx:326-337 | An empty search string and an empty tag list filter like absent ones. |
| TransactionFilter.SearchIgnoresCase | src/contexts/AppContext.tsx:326-331 | Search terms that differ only in letter case select the same transactions. |
| TransactionFilter.AccountMatchesSourceOnly | src/contexts/AppContext.tsx:313 | An account filter never selects a transaction whose source is another account, even a transfer into the filtered account. |
| TransactionFilter.DateBoundsInclusive | src/contexts/AppContext.tsx:306-310 | Both bounds are inclusive: a transaction dated anywhere in the closed window, end points included, is judged as if there were no date bounds. |
| AppReducer.Reduce | src/contexts/AppContext.tsx:50-126 | SET_DATA replaces the state; every other action touches only its own collection; for accounts and transactions, ADD appends at the end, UPDATE keeps the length and DELETE leaves no record with the id; an unknown action changes nothing. The same facts for all four collections are `AddAppends`, `UpdateMergesMatching` and `DeleteRemovesMatching`. |
| AppReducer.AddAppends | src/contexts/AppContext.tsx:55-107 | Each ADD appends its record at the end of its own collection. |
| AppReducer.UpdateMergesMatching | src/contexts/AppContext.tsx:58-115 | An UPDATE merges its patch into exactly the records with the id and leaves the others as they were. |
| AppReducer.DeleteRemovesMatching | src/contexts/AppContext.tsx:66-121 | A DELETE removes exactly the records with the id and keeps the others in order, every copy included (the result is as long as the number of records without the id). |
| AppReducer.UnknownIdIsNoop | src/contexts/AppContext.tsx:58-121 | An update or delete of an id that is not there changes nothing. |
| AppReducer.DeleteIdempotent | src/contexts/AppContext.tsx:66-121 | Deleting twice is deleting once. |
| AppReducer.AddThenDelete | src/contexts/AppContext.tsx:55-121 | Adding a record with a fresh id and then deleting that id restores the state. |
| AppReducer.DeleteTransactionSlices | src/contexts/AppContext.tsx:100-104 | With unique ids, deleting the transaction at index `i` slices out that one transaction. |
| AppReducer.UpdateKeepsIds | src/contexts/AppContext.tsx:92-98 | A patch without an id keeps every id in place and every non-target transaction unchanged. |
| Coordinator.DispatchBalances | src/contexts/AppContext.tsx:268-270 | The per-account balance dispatches change only the accounts and keep their number. |
| Coordinator.DispatchFrom | src/contexts/AppContext.tsx:268-270 | With unique ids, dispatching the remaining balance patches brings the accounts to exactly the patched list. |
| Coordinator.DispatchRecomputed | src/contexts/AppContext.tsx:264-270 | With unique ids, the balance dispatches leave the in-memory accounts equal to the recomputed list. |
| Coordinator.SaveAccounts | src/contexts/AppContext.tsx:183-187 | The store receives the accounts with balances recomputed against the in-memory transactions, merged by owner; no other key changes. |
| Coordinator.CreateAccount | src/contexts/AppContext.tsx:190-205 | Without a user nothing changes. With one, the appended account is the whole form record (name, kind, currency, opening balance) with the fresh id, the user's id, `currentBalance` equal to `openingBalance` and both timestamps `now`; the store gets the recomputed list. |
| Coordinator.UpdateAccount | src/contexts/AppContext.tsx:207-213 | Exactly the accounts with the id get the patch and a fresh `updatedAt`; the store gets recomputed balances while the in-memory balance is what the patch leaves. |
| Coordinator.DeleteAccount | src/contexts/AppContext.tsx:215-219 | The accounts become exactly the old list without the records with the id, in order; the store gets the recomputed remainder; nothing else in memory changes. |
| Coordinator.CreateCategory | src/contexts/AppContext.tsx:222-232 | The new category is appended with the fresh id and `createdAt`; the store holds the whole new list; no user is needed; no other store key changes. |
| Coordinator.UpdateCategory | src/contexts/AppContext.tsx:234-240 | Exactly the categories with the id get the patch, with no timestamp added; the store holds the whole list and no other store key changes. |
| Coordinator.DeleteCategory | src/contexts/AppContext.tsx:242-246 | The categories become exactly the old list without the records with the id, in order; the store holds the whole list and no other store key changes. |
| Coordinator.CommitTransactions | src/contexts/AppContext.tsx:260-270 | Transactions and recomputed accounts are written merged by owner; nothing else in the store changes; with unique ids the in-memory accounts equal the recomputed ones. |
| Coordinator.CreateTransaction | src/contexts/AppContext.tsx:249-271 | Without a user nothing changes. With one, the appended transaction is the whole form record (note, tags and attachment included) with the fresh id, the user and `now` as both timestamps, and with unique ids every balance is recomputed over the new list. The store gets the new list and the recomputed accounts, each merged by owner, and no other key changes. |
| Coordinator.UpdateTransaction | src/contexts/AppContext.tsx:273-287 | Exactly the transactions with the id get the patch and a fresh `updatedAt`; with unique ids every balance is recomputed over the new list; the store gets the new list and the recomputed accounts, each merged by owner, and no other key changes. |
| Coordinator.DeleteTransaction | src/contexts/AppContext.tsx:289-301 | The transactions lose exactly the id, and with unique ids the balances equal those recomputed over the list without it; the store gets the remaining list and the recomputed accounts, each merged by owner, and no other key changes. |
| Coordinator.CreateBudget | src/contexts/AppContext.tsx:344-359 | Without a user nothing changes. With one, the budget is appended with `spent` 0 and both timestamps `now`, and the store gets the new list. |
| Coordinator.UpdateBudget | src/contexts/AppContext.tsx:361-367 | Exactly the budgets with the id get the patch and a fresh `updatedAt`; the store gets the new list. |
| Coordinator.DeleteBudget | src/contexts/AppContext.tsx:369-373 | The budgets become exactly the old list without the records with the id, in order, and the store gets the new list. |
| Coordinator.LoadData | src/contexts/AppContext.tsx:137-146 | Without a user nothing changes. With one, the state becomes that user's slice of the store, and the store is untouched. |
| Coordinator.ReloadIsNoop | src/contexts/AppContext.tsx:137-146 | Loading again into a ledger already in sync with the store changes nothing. |
| Coordinator.WriteShowsOwned | src/utils/storage.ts:39-45 | A write of records all owned by `u` leaves `u`'s view equal to the write, unless an empty write would hide stored records. |
| Coordinator.CommitKeepsSync | src/contexts/AppContext.tsx:260-270 | A transaction commit keeps an in-sync ledger in sync and leaves its accounts balanced. |
| Coordinator.CreateTransactionKeepsSync | src/contexts/AppContext.tsx:249-271 | Creating a transaction keeps an in-sync ledger in sync and balanced. |
| Coordinator.UpdateTransactionKeepsSync | src/contexts/AppContext.tsx:273-287 | Updating a transaction with a patch that keeps the owner keeps the ledger in sync and balanced. |
| Coordinator.DeleteTransactionKeepsSync | src/contexts/AppContext.tsx:289-301 | Deleting a transaction, other than the user's last one, keeps the ledger in sync and balanced. |
| Coordinator.DeleteUnknownTransactionIsNoop | src/contexts/AppContext.tsx:289-301 | Deleting an unknown id from a balanced ledger with unique account ids leaves the in-memory state unchanged. |
| Coordinator.CreateAccountKeepsSync | src/contexts/AppContext.tsx:190-205 | A new account that no transaction mentions keeps an in-sync, balanced ledger in sync and balanced. |
| Coordinator.DeleteLastAccountStaysStored | src/contexts/AppContext.tsx:215-219 | Deleting a user's only account empties the in-memory list, but the account stays in the store and comes back on the next load. |
| Dashboard.MonthTotalIsSum | src/pages/Dashboard.tsx:24-30 | A month's income (or expense) total is the sum of exactly the transactions of that kind in the window. |
| Dashboard.WindowsAgree | src/utils/date.ts:12-18 | The dashboard's closed window ending at the month's last millisecond equals the budget engine's half-open window, at a UTC offset of zero or more. |
| Dashboard.ExpensesMatchGlobalBudget | src/pages/Dashboard.tsx:28-30 | The dashboard's monthly expenses equal what a global budget for that month has spent, at a UTC offset of zero or more. |
| Dashboard.CategoryIndex | src/pages/Dashboard.tsx:35-38 | The index holds exactly the category ids, each mapped to a category of the list with that id. |
| Dashboard.LastCategoryWins | src/pages/Dashboard.tsx:35-38 | When ids repeat, the index keeps the last category with that id. |
| Dashboard.AddTo | src/pages/Dashboard.tsx:45-54 | An existing name grows in place, so existing entries keep their position, name and colour; a new name is appended with its amount and colour. |
| Dashboard.AddToNames | src/pages/Dashboard.tsx:45-54 | Adding under a name adds that name to the names and no other. |
| Dashboard.AddToDistinct | src/pages/Dashboard.tsx:45-54 | Adding never creates a second entry for a name. |
| Dashboard.AddToAmounts | src/pages/Dashboard.tsx:45-54 | The added amount lands on its name only, and the total grows by exactly that amount. |
| Dashboard.GroupNames | src/pages/Dashboard.tsx:40-57 | The grouped names are the starting names plus the names of the filed expenses. |
| Dashboard.GroupDistinct | src/pages/Dashboard.tsx:40-57 | Grouping onto entries with distinct names never gives a name a second entry. |
| Dashboard.GroupAmounts | src/pages/Dashboard.tsx:40-57 | Each name holds the sum of the amounts filed under it, and the total is the sum of all filed amounts. |
| Dashboard.GroupSnoc | src/pages/Dashboard.tsx:42-57 | Grouping one more transaction is one more step of the `reduce`. |
| Dashboard.Trend | src/pages/Dashboard.tsx:60-77 | One point per month, in order, each holding that month's income and expense totals. |
| Dashboard.Summarize | src/pages/Dashboard.tsx:11-87 | The total balance is the sum of the current balances; income and expenses are the sums of their kind in the current month, net is their difference, the trend has twelve consecutive months ending with the current one, each holding its own month's income and expense sums; the breakdown has distinct names, a name exactly when some charted expense of the month is filed under it, and each name's sum of those expenses. |
| Dashboard.TransferKeepsTotalBalance | src/pages/Dashboard.tsx:16 | With unique account ids, a transfer between two listed accounts leaves the dashboard's total balance unchanged once balances are recomputed. |
| Dashboard.ParsedMonth | src/utils/date.ts:12-18 | At a UTC offset under a day either way, the window `getMonthRange` returns for `m` is the local month holding UTC midnight of the first of `m`. |
| Dashboard.WestOfUtcMissesMonthStart | src/utils/date.ts:12-18 | West of UTC that window is the month before `m`: a transaction at the first local instant of `m` counts for a budget of `m` but falls outside the dashboard's window. |
| Dashboard.BreakdownNames | src/pages/Dashboard.tsx:40-57 | One entry per category name, and a name has an entry exactly when some charted expense of the month is filed under it. |
| Dashboard.BreakdownAmounts | src/pages/Dashboard.tsx:40-57 | Each name's entry is the sum of the charted expenses filed under that name. |
| Dashboard.BreakdownWithinExpenses | src/pages/Dashboard.tsx:28-57 | With non-negative amounts, the breakdown adds up to at most the monthly expenses. |
| Dashboard.TransfersIgnored | src/pages/Dashboard.tsx:24-32 | A transfer changes none of the month's income, expenses, net or breakdown. |
| Dashboard.TransferNotCharted | src/pages/Dashboard.tsx:40-41 | A transfer never enters the breakdown. |
| Dashboard.UnfiledExpenseDropped | src/pages/Dashboard.tsx:40-44 | An expense with no category, or with a category that is not in the list, is left out of the breakdown. |
| Auth.AuthReduce | src/contexts/AuthContext.tsx:21-51 | LOGIN_SUCCESS signs in and stops loading; LOGOUT resets everything from any state; UPDATE_PROFILE merges into a present user and keeps a missing one missing, changing nothing else; SET_LOADING changes only the loading flag; an unknown action changes nothing. |
| Auth.ReducePreservesConsistency | src/contexts/AuthContext.tsx:21-51 | Every action keeps "authenticated exactly when a user is present, never without a token". |
| Auth.Restore | src/contexts/AuthContext.tsx:61-71 | Start-up authenticates with the stored user and token exactly when both are there and the token is non-empty; otherwise it only stops loading. |
| Auth.SignIn | src/contexts/AuthContext.tsx:73-99 | Login and register report success exactly when the remote call succeeds; on success the user and token are stored and signed in, and no other store key changes; on failure the session only stops loading and the store is untouched. |
| Auth.SignOut | src/contexts/AuthContext.tsx:101-104 | From any state: signed out, and the store holds no user, no token, no accounts, transactions, budgets or categories, and the default light theme. |
| Auth.EditProfile | src/contexts/AuthContext.tsx:106-112 | With a user, the merged user is both stored and in the session; without one nothing changes; no other session field and no store key other than the user changes. |
| Auth.SignInSurvivesRestart | src/contexts/AuthContext.tsx:61-85 | After a successful sign-in with a non-empty token, a restart restores that same user and token, signed in. |
| Auth.EmptyTokenNotRestored | src/contexts/AuthContext.tsx:61-85 | A sign-in whose token is empty is authenticated for the current run, but a restart finds no session. |
| Auth.SignOutSurvivesRestart | src/contexts/AuthContext.tsx:61-104 | After signing out, a restart comes up signed out. |
| Auth.EditSurvivesRestart | src/contexts/AuthContext.tsx:61-112 | After a profile edit, a restart restores the edited user. |

## Findings

| source | as written | input that shows it | evidently intended | confidence | as-written member | corrected member |
|---|---|---|---|---|---|---|
| src/utils/date.ts:12-18 | `new Date(month + '-01')` reads the month as UTC midnight, then `startOfMonth`/`endOfMonth` take the local month holding that instant | at UTC−3, month 2024-03: the parsed instant is 29 February 21:00 local, so the window is February, and a transaction at 1 March 00:00 local is left out of March while `calculateBudgetsSpent` counts it. The entry form stores a date as UTC midnight (`src/components/Transactions/QuickTransactionModal.tsx:45`), so west of UTC the budget engine also files an expense entered on the 1st under the previous month; that reading is covered by the time-zone line under "## Left out" | the named month in local time, as `src/utils/budgets.ts:6-8` reads it | not executed | Dashboard.ParsedMonth, Dashboard.WestOfUtcMissesMonthStart | Dashboard.WindowsAgree |

The rest of the dashboard model uses the corrected window (`InWindow` of the named month), for which `Dashboard.WindowsAgree` and `Dashboard.ExpensesMatchGlobalBudget` prove agreement with the budget engine.

## Left out

- React rendering, hooks, routing, forms and toasts. The form checks (such as a positive amount) are not re-checked by the engine, so the model does not require them either.
- The server, the network clients and password hashing. The outcome of the remote login or register call is a parameter of `Auth.SignIn`.
- `uuidv4()` and `new Date()` are parameters (`newId`, `now`). Where the source calls `new Date()` twice in one operation (the stored and the dispatched `updatedAt`), the model reads both as the same instant.
- Time zones, daylight saving and date-string parsing. Dates are integer instants on one local timeline, and a date string that fails to parse is not modelled. The UTC offset is taken as zero everywhere except in `Dashboard.ParsedMonth`, which shows how `getMonthRange` reads its month at other offsets (see "## Findings").
- Dashboard.WindowsAgree: the agreement of the dashboard's window with the budget engine's month holds in the source only at a UTC offset of zero or more. West of UTC, `getMonthRange` returns the previous local month, for the current month and for every trend point.
- Dashboard.ExpensesMatchGlobalBudget: as for `Dashboard.WindowsAgree`, the source's dashboard matches a global budget's spending only at a UTC offset of zero or more.
- TransactionFilter.Lower: lower-cases ASCII letters only; JavaScript's full Unicode `toLowerCase` is not modelled.
- IEEE-754 rounding of JavaScript numbers: amounts are exact reals.
- `JSON.stringify`/`JSON.parse` and storage failures: the store is total and encoding is the identity.
- The demo-data seeding and `refreshData` (which only calls `loadData`).
- React's batching and stale closures: within one operation every list is computed from the state the operation started from (its closure), and its dispatches are applied one after another, each to the result of the previous one. Two operations issued before a re-render would both read the same stale state, so the second's storage write can undo the first's; the model runs operations one at a time against the latest state and does not model that lost update.
- Budget `spent` is not recomputed by the coordinator. The source does not call `calculateBudgetsSpent` from the ledger operations, and neither does the model.
- Coordinator.CreateTransaction, Coordinator.UpdateTransaction, Coordinator.DeleteTransaction: the in-memory balances are stated only when account ids are unique. With duplicate ids, the per-account `UPDATE_ACCOUNT` dispatches patch every account with that id, and the model computes that fold but states nothing about it.
- Dashboard.AddTo: the first-occurrence order of the breakdown is stated one step at a time (existing entries keep their position, a new name goes last), not as a closed form over the whole list.
