/** The ledger coordinator: every create/update/delete operation as a pure
    transition on the pair (in-memory state, persistent store). The signed-in
    user, the fresh identifier and the current instant are parameters. Each
    operation computes the new collection from the in-memory state, writes it
    to the store, and dispatches the matching reducer action; transaction
    operations additionally recompute every balance, write the accounts, and
    dispatch one balance patch per account. */
module Coordinator {
  import opened Calendar
  import opened Types
  import opened Collections
  import opened Storage
  import opened Balances
  import AppReducer

  datatype Ledger = Ledger(state: AppState, store: Store)

  /** The form data of each `create*` operation: the record without the
      fields the coordinator fills in. */
  datatype NewAccount = NewAccount(name: string, kind: AccountKind, currency: string, openingBalance: real)
  datatype NewCategory = NewCategory(name: string, parentId: Option<Id>, color: string, icon: string)
  datatype NewTransaction = NewTransaction(
    date: Instant,
    accountId: Id,
    toAccountId: Option<Id>,
    kind: TxKind,
    categoryId: Option<Id>,
    amount: real,
    note: string,
    tags: seq<string>,
    attachmentUrl: Option<string>)
  datatype NewBudget = NewBudget(month: YearMonth, categoryId: Option<Id>, amount: real)

  /** The patch with `updatedAt` overridden, as `{ ...updates, updatedAt }`. */
  function StampAccount(p: AccountPatch, now: Instant): AccountPatch { p.(updatedAt := Some(now)) }
  function StampTransaction(p: TransactionPatch, now: Instant): TransactionPatch { p.(updatedAt := Some(now)) }
  function StampBudget(p: BudgetPatch, now: Instant): BudgetPatch { p.(updatedAt := Some(now)) }

  /** One `UPDATE_ACCOUNT { currentBalance }` dispatch per recomputed
      account, in list order. Only the accounts change. */
  function DispatchBalances(s: AppState, us: seq<Account>): (r: AppState)
    ensures r.(accounts := s.accounts) == s
    ensures |r.accounts| == |s.accounts|
    decreases |us|
  {
    if us == [] then s
    else
      var next := AppReducer.Reduce(s, AppReducer.UpdateAccount(us[0].id, BalancePatch(us[0].currentBalance)));
      DispatchBalances(next, us[1..])
  }

  /** After the first `k` patches of `us` have been dispatched, the rest
      bring the accounts to exactly `us`, provided ids are unique and `us`
      differs from the accounts only in balances. */
  lemma {:induction false} DispatchFrom(s: AppState, us: seq<Account>, k: nat)
    requires k <= |us| == |s.accounts|
    requires UniqueBy(s.accounts, AccountId)
    requires forall i :: 0 <= i < |us| ==> us[i].id == s.accounts[i].id
    requires forall i :: 0 <= i < k ==> s.accounts[i] == us[i]
    requires forall i :: k <= i < |us| ==> us[i] == s.accounts[i].(currentBalance := us[i].currentBalance)
    ensures DispatchBalances(s, us[k..]).accounts == us
    decreases |us| - k
  {
    if k == |us| {
      assert us[k..] == [];
    } else {
      var patch := AppReducer.PatchAccount(BalancePatch(us[k].currentBalance));
      var next := AppReducer.Reduce(s, AppReducer.UpdateAccount(us[k].id, BalancePatch(us[k].currentBalance)));
      assert next.accounts == UpdateWhere(s.accounts, AccountId, us[k].id, patch);
      assert forall i :: 0 <= i < |us| ==> next.accounts[i] == if i == k then us[k] else s.accounts[i];
      assert us[k..][1..] == us[k + 1..];
      DispatchFrom(next, us, k + 1);
    }
  }

  /** The balance dispatches leave the in-memory accounts equal to the
      recomputed list, when account ids are unique. */
  lemma DispatchRecomputed(s: AppState, txs: seq<Transaction>)
    requires UniqueBy(s.accounts, AccountId)
    ensures DispatchBalances(s, RecomputeBalances(s.accounts, txs)) == s.(accounts := RecomputeBalances(s.accounts, txs))
  {
    var us := RecomputeBalances(s.accounts, txs);
    DispatchFrom(s, us, 0);
    assert us[0..] == us;
  }

  /** `saveAccounts`: write the accounts with balances recomputed against
      the in-memory transactions. */
  function SaveAccounts(L: Ledger, accounts: seq<Account>): (r: Store)
    ensures forall u :: GetAccounts(r, u) ==
              ViewAfterWrite(Stored(L.store.accounts), RecomputeBalances(accounts, L.state.transactions), AccountOwner, u)
    ensures r.(accounts := L.store.accounts) == L.store
  {
    SetAccounts(L.store, RecomputeBalances(accounts, L.state.transactions))
  }

  function CreateAccount(L: Ledger, user: Option<User>, data: NewAccount, newId: Id, now: Instant): (r: Ledger)
    ensures user.None? ==> r == L
    ensures user.Some? ==>
              |r.state.accounts| == |L.state.accounts| + 1 && r.state.accounts[..|L.state.accounts|] == L.state.accounts
    ensures user.Some? ==>
              r.state.accounts[|L.state.accounts|] ==
              Account(newId, user.value.id, data.name, data.kind, data.currency,
                      data.openingBalance, data.openingBalance, now, now)
    ensures user.Some? ==> r.store == SaveAccounts(L, r.state.accounts)
    ensures r.state.(accounts := L.state.accounts) == L.state
  {
    if user.None? then L
    else
      var a := Account(newId, user.value.id, data.name, data.kind, data.currency,
                       data.openingBalance, data.openingBalance, now, now);
      var store := SaveAccounts(L, L.state.accounts + [a]);
      Ledger(AppReducer.Reduce(L.state, AppReducer.AddAccount(a)), store)
  }

  /** `updateAccount`: the patch is merged with `updatedAt` refreshed. The
      store receives recomputed balances; the in-memory `currentBalance` is
      whatever the patch leaves. */
  function UpdateAccount(L: Ledger, id: Id, p: AccountPatch, now: Instant): (r: Ledger)
    ensures |r.state.accounts| == |L.state.accounts|
    ensures forall i :: 0 <= i < |L.state.accounts| ==>
              r.state.accounts[i] ==
                if L.state.accounts[i].id == id then MergeAccount(L.state.accounts[i], p).(updatedAt := now)
                else L.state.accounts[i]
    ensures r.store == SaveAccounts(L, r.state.accounts)
    ensures r.state.(accounts := L.state.accounts) == L.state
  {
    var patched := StampAccount(p, now);
    var accounts := UpdateWhere(L.state.accounts, AccountId, id, AppReducer.PatchAccount(patched));
    var store := SaveAccounts(L, accounts);
    Ledger(AppReducer.Reduce(L.state, AppReducer.UpdateAccount(id, patched)), store)
  }

  function DeleteAccount(L: Ledger, id: Id): (r: Ledger)
    ensures r.state.accounts == RemoveWhere(L.state.accounts, AccountId, id)
    ensures IsSubsequence(r.state.accounts, L.state.accounts)
    ensures forall i :: 0 <= i < |r.state.accounts| ==> r.state.accounts[i].id != id && r.state.accounts[i] in L.state.accounts
    ensures forall i :: 0 <= i < |L.state.accounts| && L.state.accounts[i].id != id ==> L.state.accounts[i] in r.state.accounts
    ensures r.store == SaveAccounts(L, r.state.accounts)
    ensures r.state.(accounts := L.state.accounts) == L.state
  {
    var accounts := RemoveWhere(L.state.accounts, AccountId, id);
    var store := SaveAccounts(L, accounts);
    Ledger(AppReducer.Reduce(L.state, AppReducer.DeleteAccount(id)), store)
  }

  /** Categories are global: no user is needed and the whole list is
      written. */
  function CreateCategory(L: Ledger, data: NewCategory, newId: Id, now: Instant): (r: Ledger)
    ensures |r.state.categories| == |L.state.categories| + 1
    ensures r.state.categories[..|L.state.categories|] == L.state.categories
    ensures r.state.categories[|L.state.categories|] == Category(newId, data.name, data.parentId, data.color, data.icon, now)
    ensures GetCategories(r.store) == r.state.categories
    ensures r.store == SetCategories(L.store, r.state.categories)
    ensures r.state.(categories := L.state.categories) == L.state
  {
    var c := Category(newId, data.name, data.parentId, data.color, data.icon, now);
    Ledger(AppReducer.Reduce(L.state, AppReducer.AddCategory(c)), SetCategories(L.store, L.state.categories + [c]))
  }

  /** `updateCategory` merges the patch as given: categories carry no
      `updatedAt`. */
  function UpdateCategory(L: Ledger, id: Id, p: CategoryPatch): (r: Ledger)
    ensures |r.state.categories| == |L.state.categories|
    ensures forall i :: 0 <= i < |L.state.categories| ==>
              r.state.categories[i] ==
                if L.state.categories[i].id == id then MergeCategory(L.state.categories[i], p) else L.state.categories[i]
    ensures GetCategories(r.store) == r.state.categories
    ensures r.store == SetCategories(L.store, r.state.categories)
    ensures r.state.(categories := L.state.categories) == L.state
  {
    var categories := UpdateWhere(L.state.categories, CategoryId, id, AppReducer.PatchCategory(p));
    Ledger(AppReducer.Reduce(L.state, AppReducer.UpdateCategory(id, p)), SetCategories(L.store, categories))
  }

  function DeleteCategory(L: Ledger, id: Id): (r: Ledger)
    ensures r.state.categories == RemoveWhere(L.state.categories, CategoryId, id)
    ensures forall i :: 0 <= i < |r.state.categories| ==> r.state.categories[i].id != id
    ensures IsSubsequence(r.state.categories, L.state.categories)
    ensures GetCategories(r.store) == r.state.categories
    ensures r.store == SetCategories(L.store, r.state.categories)
    ensures r.state.(categories := L.state.categories) == L.state
  {
    var categories := RemoveWhere(L.state.categories, CategoryId, id);
    Ledger(AppReducer.Reduce(L.state, AppReducer.DeleteCategory(id)), SetCategories(L.store, categories))
  }

  /** The common tail of the transaction operations: write `txs`, recompute
      every balance against it, write the accounts, dispatch `action`, then
      dispatch one balance patch per account. */
  function CommitTransactions(L: Ledger, txs: seq<Transaction>, action: AppReducer.Action): (r: Ledger)
    requires AppReducer.OnTransactions(action)
    ensures r.store.(accounts := L.store.accounts, transactions := L.store.transactions) == L.store
    ensures forall u :: GetTransactions(r.store, u) == ViewAfterWrite(Stored(L.store.transactions), txs, TransactionOwner, u)
    ensures forall u :: GetAccounts(r.store, u) ==
              ViewAfterWrite(Stored(L.store.accounts), RecomputeBalances(L.state.accounts, txs), AccountOwner, u)
    ensures r.state.transactions == AppReducer.Reduce(L.state, action).transactions
    ensures r.state.categories == L.state.categories && r.state.budgets == L.state.budgets
    ensures UniqueBy(L.state.accounts, AccountId) ==> r.state.accounts == RecomputeBalances(L.state.accounts, txs)
  {
    var accounts := RecomputeBalances(L.state.accounts, txs);
    var store := SetAccounts(SetTransactions(L.store, txs), accounts);
    var dispatched := AppReducer.Reduce(L.state, action);
    assert dispatched.(transactions := L.state.transactions) == L.state;
    var state := DispatchBalances(dispatched, accounts);
    if UniqueBy(L.state.accounts, AccountId) then
      DispatchRecomputed(dispatched, txs);
      Ledger(state, store)
    else
      Ledger(state, store)
  }

  function CreateTransaction(L: Ledger, user: Option<User>, data: NewTransaction, newId: Id, now: Instant): (r: Ledger)
    ensures user.None? ==> r == L
    ensures user.Some? ==>
              |r.state.transactions| == |L.state.transactions| + 1
              && r.state.transactions[..|L.state.transactions|] == L.state.transactions
    ensures user.Some? ==>
              r.state.transactions[|L.state.transactions|] ==
              Transaction(newId, user.value.id, data.date, data.accountId, data.toAccountId, data.kind,
                          data.categoryId, data.amount, data.note, data.tags, data.attachmentUrl, now, now)
    ensures user.Some? && UniqueBy(L.state.accounts, AccountId) ==>
              r.state.accounts == RecomputeBalances(L.state.accounts, r.state.transactions)
    ensures r.state.categories == L.state.categories && r.state.budgets == L.state.budgets
    ensures user.Some? ==> r.store.(accounts := L.store.accounts, transactions := L.store.transactions) == L.store
    ensures user.Some? ==>
              forall u :: GetTransactions(r.store, u) ==
                ViewAfterWrite(Stored(L.store.transactions), r.state.transactions, TransactionOwner, u)
    ensures user.Some? ==>
              forall u :: GetAccounts(r.store, u) ==
                ViewAfterWrite(Stored(L.store.accounts), RecomputeBalances(L.state.accounts, r.state.transactions), AccountOwner, u)
  {
    if user.None? then L
    else
      var t := Transaction(newId, user.value.id, data.date, data.accountId, data.toAccountId, data.kind,
                           data.categoryId, data.amount, data.note, data.tags, data.attachmentUrl, now, now);
      ReduceAddsTransaction(L.state, t);
      CommitTransactions(L, L.state.transactions + [t], AppReducer.AddTransaction(t))
  }

  lemma ReduceAddsTransaction(s: AppState, t: Transaction)
    ensures AppReducer.Reduce(s, AppReducer.AddTransaction(t)).transactions == s.transactions + [t]
  {
  }

  function UpdateTransaction(L: Ledger, id: Id, p: TransactionPatch, now: Instant): (r: Ledger)
    ensures |r.state.transactions| == |L.state.transactions|
    ensures forall i :: 0 <= i < |L.state.transactions| ==>
              r.state.transactions[i] ==
                if L.state.transactions[i].id == id then MergeTransaction(L.state.transactions[i], p).(updatedAt := now)
                else L.state.transactions[i]
    ensures UniqueBy(L.state.accounts, AccountId) ==>
              r.state.accounts == RecomputeBalances(L.state.accounts, r.state.transactions)
    ensures r.state.categories == L.state.categories && r.state.budgets == L.state.budgets
    ensures r.store.(accounts := L.store.accounts, transactions := L.store.transactions) == L.store
    ensures forall u :: GetTransactions(r.store, u) ==
              ViewAfterWrite(Stored(L.store.transactions), r.state.transactions, TransactionOwner, u)
    ensures forall u :: GetAccounts(r.store, u) ==
              ViewAfterWrite(Stored(L.store.accounts), RecomputeBalances(L.state.accounts, r.state.transactions), AccountOwner, u)
  {
    var patched := StampTransaction(p, now);
    var txs := UpdateWhere(L.state.transactions, TransactionId, id, AppReducer.PatchTransaction(patched));
    var r := CommitTransactions(L, txs, AppReducer.UpdateTransaction(id, patched));
    ReduceUpdatesTransactions(L.state, id, patched);
    assert forall i :: 0 <= i < |L.state.transactions| && L.state.transactions[i].id == id ==>
             txs[i] == MergeTransaction(L.state.transactions[i], p).(updatedAt := now) by {
      forall i | 0 <= i < |L.state.transactions| && L.state.transactions[i].id == id
        ensures txs[i] == MergeTransaction(L.state.transactions[i], p).(updatedAt := now)
      {
        StampedMerge(L.state.transactions[i], p, now);
      }
    }
    r
  }

  lemma StampedMerge(t: Transaction, p: TransactionPatch, now: Instant)
    ensures MergeTransaction(t, StampTransaction(p, now)) == MergeTransaction(t, p).(updatedAt := now)
  {
  }

  lemma ReduceUpdatesTransactions(s: AppState, id: Id, p: TransactionPatch)
    ensures AppReducer.Reduce(s, AppReducer.UpdateTransaction(id, p)).transactions ==
            UpdateWhere(s.transactions, TransactionId, id, AppReducer.PatchTransaction(p))
  {
  }

  /** `deleteTransaction`: the balances afterwards are those recomputed over
      the list without the transaction. */
  function DeleteTransaction(L: Ledger, id: Id): (r: Ledger)
    ensures r.state.transactions == RemoveWhere(L.state.transactions, TransactionId, id)
    ensures UniqueBy(L.state.accounts, AccountId) ==>
              r.state.accounts == RecomputeBalances(L.state.accounts, RemoveWhere(L.state.transactions, TransactionId, id))
    ensures r.state.categories == L.state.categories && r.state.budgets == L.state.budgets
    ensures r.store.(accounts := L.store.accounts, transactions := L.store.transactions) == L.store
    ensures forall u :: GetTransactions(r.store, u) ==
              ViewAfterWrite(Stored(L.store.transactions), r.state.transactions, TransactionOwner, u)
    ensures forall u :: GetAccounts(r.store, u) ==
              ViewAfterWrite(Stored(L.store.accounts), RecomputeBalances(L.state.accounts, r.state.transactions), AccountOwner, u)
  {
    var txs := RemoveWhere(L.state.transactions, TransactionId, id);
    ReduceDeletesTransaction(L.state, id);
    CommitTransactions(L, txs, AppReducer.DeleteTransaction(id))
  }

  lemma ReduceDeletesTransaction(s: AppState, id: Id)
    ensures AppReducer.Reduce(s, AppReducer.DeleteTransaction(id)).transactions == RemoveWhere(s.transactions, TransactionId, id)
  {
  }

  function CreateBudget(L: Ledger, user: Option<User>, data: NewBudget, newId: Id, now: Instant): (r: Ledger)
    ensures user.None? ==> r == L
    ensures user.Some? ==>
              |r.state.budgets| == |L.state.budgets| + 1 && r.state.budgets[..|L.state.budgets|] == L.state.budgets
    ensures user.Some? ==>
              r.state.budgets[|L.state.budgets|] ==
                Budget(newId, user.value.id, data.month, data.categoryId, data.amount, 0.0, now, now)
    ensures user.Some? ==> r.store == SetBudgets(L.store, r.state.budgets)
    ensures r.state.(budgets := L.state.budgets) == L.state
  {
    if user.None? then L
    else
      var b := Budget(newId, user.value.id, data.month, data.categoryId, data.amount, 0.0, now, now);
      Ledger(AppReducer.Reduce(L.state, AppReducer.AddBudget(b)), SetBudgets(L.store, L.state.budgets + [b]))
  }

  function UpdateBudget(L: Ledger, id: Id, p: BudgetPatch, now: Instant): (r: Ledger)
    ensures |r.state.budgets| == |L.state.budgets|
    ensures forall i :: 0 <= i < |L.state.budgets| ==>
              r.state.budgets[i] ==
                if L.state.budgets[i].id == id then MergeBudget(L.state.budgets[i], p).(updatedAt := now)
                else L.state.budgets[i]
    ensures r.store == SetBudgets(L.store, r.state.budgets)
    ensures r.state.(budgets := L.state.budgets) == L.state
  {
    var patched := StampBudget(p, now);
    var budgets := UpdateWhere(L.state.budgets, BudgetId, id, AppReducer.PatchBudget(patched));
    Ledger(AppReducer.Reduce(L.state, AppReducer.UpdateBudget(id, patched)), SetBudgets(L.store, budgets))
  }

  function DeleteBudget(L: Ledger, id: Id): (r: Ledger)
    ensures r.state.budgets == RemoveWhere(L.state.budgets, BudgetId, id)
    ensures forall i :: 0 <= i < |r.state.budgets| ==> r.state.budgets[i].id != id
    ensures IsSubsequence(r.state.budgets, L.state.budgets)
    ensures r.store == SetBudgets(L.store, r.state.budgets)
    ensures r.state.(budgets := L.state.budgets) == L.state
  {
    var budgets := RemoveWhere(L.state.budgets, BudgetId, id);
    Ledger(AppReducer.Reduce(L.state, AppReducer.DeleteBudget(id)), SetBudgets(L.store, budgets))
  }

  /** The in-memory state mirrors what the store holds for user `u`. */
  ghost predicate InSync(L: Ledger, u: Id) {
    L.state.accounts == GetAccounts(L.store, u)
    && L.state.categories == GetCategories(L.store)
    && L.state.transactions == GetTransactions(L.store, u)
    && L.state.budgets == GetBudgets(L.store, u)
  }

  /** `loadData`: with a signed-in user, replace the state by that user's
      slice of the store. */
  function LoadData(L: Ledger, user: Option<User>): (r: Ledger)
    ensures user.None? ==> r == L
    ensures user.Some? ==> InSync(r, user.value.id)
    ensures r.store == L.store
  {
    if user.None? then L
    else
      var u := user.value.id;
      var loaded := AppState(GetAccounts(L.store, u), GetCategories(L.store), GetTransactions(L.store, u), GetBudgets(L.store, u));
      Ledger(AppReducer.Reduce(L.state, AppReducer.SetData(loaded)), L.store)
  }

  /** Reloading a synchronised ledger changes nothing. */
  lemma ReloadIsNoop(L: Ledger, user: User)
    requires InSync(L, user.id)
    ensures LoadData(L, Some(user)) == L
  {
  }

  /** Every record of `xs` belongs to `u`, and none is hidden by an empty
      write: writing `xs` leaves `u`'s view equal to `xs`. */
  lemma {:induction false} WriteShowsOwned<T>(existing: seq<T>, xs: seq<T>, owner: T -> Id, u: Id)
    requires forall i :: 0 <= i < |xs| ==> owner(xs[i]) == u
    requires xs != [] || OwnedBy(existing, owner, u) == []
    ensures ViewAfterWrite(existing, xs, owner, u) == xs
  {
    if xs != [] {
      assert owner(xs[0]) == u;
      FilterKeepsAll(xs, OwnerIs(owner, u));
    }
  }

  /** A transaction operation on a synchronised ledger keeps it
      synchronised and leaves the accounts balanced, provided the written
      list belongs to the user and is not an empty write hiding stored
      records. */
  lemma CommitKeepsSync(L: Ledger, u: Id, txs: seq<Transaction>, action: AppReducer.Action)
    requires InSync(L, u) && UniqueBy(L.state.accounts, AccountId)
    requires AppReducer.OnTransactions(action) && AppReducer.Reduce(L.state, action).transactions == txs
    requires forall i :: 0 <= i < |txs| ==> txs[i].userId == u
    requires txs != [] || L.state.transactions == []
    ensures var r := CommitTransactions(L, txs, action);
            InSync(r, u) && Balanced(r.state.accounts, r.state.transactions)
  {
    var r := CommitTransactions(L, txs, action);
    CommitShowsTransactions(L, u, txs, action);
    CommitShowsAccounts(L, u, txs, action);
    assert r.store.categories == L.store.categories && r.store.budgets == L.store.budgets;
    RecomputeIdempotent(L.state.accounts, txs);
  }

  lemma CommitShowsTransactions(L: Ledger, u: Id, txs: seq<Transaction>, action: AppReducer.Action)
    requires InSync(L, u) && AppReducer.OnTransactions(action)
    requires forall i :: 0 <= i < |txs| ==> txs[i].userId == u
    requires txs != [] || L.state.transactions == []
    ensures GetTransactions(CommitTransactions(L, txs, action).store, u) == txs
  {
    WriteShowsOwned(Stored(L.store.transactions), txs, TransactionOwner, u);
  }

  lemma CommitShowsAccounts(L: Ledger, u: Id, txs: seq<Transaction>, action: AppReducer.Action)
    requires InSync(L, u) && UniqueBy(L.state.accounts, AccountId) && AppReducer.OnTransactions(action)
    ensures var r := CommitTransactions(L, txs, action);
            GetAccounts(r.store, u) == r.state.accounts == RecomputeBalances(L.state.accounts, txs)
  {
    var accounts := RecomputeBalances(L.state.accounts, txs);
    assert forall i :: 0 <= i < |accounts| ==> accounts[i].userId == L.state.accounts[i].userId == u;
    WriteShowsOwned(Stored(L.store.accounts), accounts, AccountOwner, u);
  }

  lemma CreateTransactionKeepsSync(L: Ledger, user: User, data: NewTransaction, newId: Id, now: Instant)
    requires InSync(L, user.id) && UniqueBy(L.state.accounts, AccountId)
    ensures var r := CreateTransaction(L, Some(user), data, newId, now);
            InSync(r, user.id) && Balanced(r.state.accounts, r.state.transactions)
  {
    var t := Transaction(newId, user.id, data.date, data.accountId, data.toAccountId, data.kind,
                         data.categoryId, data.amount, data.note, data.tags, data.attachmentUrl, now, now);
    var txs := L.state.transactions + [t];
    ReduceAddsTransaction(L.state, t);
    assert CreateTransaction(L, Some(user), data, newId, now) == CommitTransactions(L, txs, AppReducer.AddTransaction(t));
    forall i | 0 <= i < |txs|
      ensures txs[i].userId == user.id
    {
      if i < |L.state.transactions| {
        assert txs[i] == L.state.transactions[i];
        assert txs[i] in GetTransactions(L.store, user.id);
      }
    }
    CommitKeepsSync(L, user.id, txs, AppReducer.AddTransaction(t));
  }

  lemma UpdateTransactionKeepsSync(L: Ledger, u: Id, id: Id, p: TransactionPatch, now: Instant)
    requires InSync(L, u) && UniqueBy(L.state.accounts, AccountId)
    requires p.userId.None?
    ensures var r := UpdateTransaction(L, id, p, now);
            InSync(r, u) && Balanced(r.state.accounts, r.state.transactions)
  {
    var patched := StampTransaction(p, now);
    var txs := UpdateWhere(L.state.transactions, TransactionId, id, AppReducer.PatchTransaction(patched));
    ReduceUpdatesTransactions(L.state, id, patched);
    forall i | 0 <= i < |txs|
      ensures txs[i].userId == u
    {
      assert TransactionOwner(L.state.transactions[i]) == u;
    }
    CommitKeepsSync(L, u, txs, AppReducer.UpdateTransaction(id, patched));
  }

  /** Deleting keeps the ledger synchronised unless it removes the user's
      last transaction (see `DeleteLastAccountStaysStored` for why). */
  lemma DeleteTransactionKeepsSync(L: Ledger, u: Id, id: Id)
    requires InSync(L, u) && UniqueBy(L.state.accounts, AccountId)
    requires RemoveWhere(L.state.transactions, TransactionId, id) != [] || L.state.transactions == []
    ensures var r := DeleteTransaction(L, id);
            InSync(r, u) && Balanced(r.state.accounts, r.state.transactions)
  {
    var txs := RemoveWhere(L.state.transactions, TransactionId, id);
    ReduceDeletesTransaction(L.state, id);
    assert DeleteTransaction(L, id) == CommitTransactions(L, txs, AppReducer.DeleteTransaction(id));
    forall i | 0 <= i < |txs|
      ensures txs[i].userId == u
    {
      assert txs[i] in L.state.transactions;
      assert txs[i] in GetTransactions(L.store, u);
    }
    CommitKeepsSync(L, u, txs, AppReducer.DeleteTransaction(id));
  }

  /** Deleting an id that no transaction has, from a balanced state with
      unique account ids, leaves the in-memory state unchanged. */
  lemma DeleteUnknownTransactionIsNoop(L: Ledger, id: Id)
    requires UniqueBy(L.state.accounts, AccountId) && Balanced(L.state.accounts, L.state.transactions)
    requires forall i :: 0 <= i < |L.state.transactions| ==> L.state.transactions[i].id != id
    ensures DeleteTransaction(L, id).state == L.state
  {
    RecomputeIdempotent(L.state.accounts, L.state.transactions);
  }

  /** A new account whose id no transaction mentions keeps a synchronised,
      balanced ledger synchronised and balanced. */
  lemma CreateAccountKeepsSync(L: Ledger, user: User, data: NewAccount, newId: Id, now: Instant)
    requires InSync(L, user.id) && Balanced(L.state.accounts, L.state.transactions)
    requires forall i :: 0 <= i < |L.state.transactions| ==> !Touches(L.state.transactions[i], newId)
    ensures var r := CreateAccount(L, Some(user), data, newId, now);
            InSync(r, user.id) && Balanced(r.state.accounts, r.state.transactions)
  {
    var r := CreateAccount(L, Some(user), data, newId, now);
    var txs := L.state.transactions;
    var n := |L.state.accounts|;
    var a := r.state.accounts[n];
    assert r.state.accounts == L.state.accounts + [a];
    assert r.state.transactions == txs;
    AppendUntouchedBalanced(L.state.accounts, txs, a);
    RecomputeIdempotent(r.state.accounts, txs);
    assert forall i :: 0 <= i < n ==> L.state.accounts[i].userId == user.id by {
      forall i | 0 <= i < n
        ensures L.state.accounts[i].userId == user.id
      {
        assert L.state.accounts[i] in GetAccounts(L.store, user.id);
      }
    }
    AppendOwned(L.state.accounts, a, user.id);
    WriteShowsOwned(Stored(L.store.accounts), r.state.accounts, AccountOwner, user.id);
    assert GetAccounts(r.store, user.id) == r.state.accounts;
    assert r.store.(accounts := L.store.accounts) == L.store;
  }

  /** A balanced list stays balanced when an account at its opening balance
      that no transaction touches is appended. */
  lemma AppendUntouchedBalanced(accounts: seq<Account>, txs: seq<Transaction>, a: Account)
    requires Balanced(accounts, txs)
    requires a.currentBalance == a.openingBalance
    requires forall i :: 0 <= i < |txs| ==> !Touches(txs[i], a.id)
    ensures Balanced(accounts + [a], txs)
  {
    UntouchedKeepsOpening(a, txs);
    var all := accounts + [a];
    forall i | 0 <= i < |all|
      ensures all[i].currentBalance == ExpectedBalance(all[i], txs)
    {
      if i < |accounts| {
        assert all[i] == accounts[i];
      }
    }
  }

  lemma AppendOwned(accounts: seq<Account>, a: Account, u: Id)
    requires forall i :: 0 <= i < |accounts| ==> accounts[i].userId == u
    requires a.userId == u
    ensures forall i :: 0 <= i < |accounts + [a]| ==> AccountOwner((accounts + [a])[i]) == u
  {
  }

  /** Deleting a user's only account empties the in-memory list, but the
      empty write cannot clear the user's slice of the store: the account is
      still stored and comes back on the next load. */
  lemma DeleteLastAccountStaysStored(L: Ledger, user: User, a: Account)
    requires InSync(L, user.id) && L.state.accounts == [a]
    ensures var r := DeleteAccount(L, a.id);
            r.state.accounts == [] && GetAccounts(r.store, user.id) == [a]
            && LoadData(r, Some(user)).state.accounts == [a]
  {
  }
}
