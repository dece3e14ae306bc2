/** The in-memory state machine of the ledger coordinator: a pure reducer
    from (state, action) to state. Each action touches exactly one of the
    four collections, except `SetData`, which replaces all of them. */
module AppReducer {
  import opened Types
  import opened Collections

  datatype Action =
    | SetData(payload: AppState)
    | AddAccount(account: Account)
    | UpdateAccount(accountId: Id, accountUpdates: AccountPatch)
    | DeleteAccount(accountId: Id)
    | AddCategory(category: Category)
    | UpdateCategory(categoryId: Id, categoryUpdates: CategoryPatch)
    | DeleteCategory(categoryId: Id)
    | AddTransaction(transaction: Transaction)
    | UpdateTransaction(transactionId: Id, transactionUpdates: TransactionPatch)
    | DeleteTransaction(transactionId: Id)
    | AddBudget(budget: Budget)
    | UpdateBudget(budgetId: Id, budgetUpdates: BudgetPatch)
    | DeleteBudget(budgetId: Id)
    | Unrecognised

  predicate OnAccounts(a: Action) {
    a.AddAccount? || a.UpdateAccount? || a.DeleteAccount?
  }

  predicate OnCategories(a: Action) {
    a.AddCategory? || a.UpdateCategory? || a.DeleteCategory?
  }

  predicate OnTransactions(a: Action) {
    a.AddTransaction? || a.UpdateTransaction? || a.DeleteTransaction?
  }

  predicate OnBudgets(a: Action) {
    a.AddBudget? || a.UpdateBudget? || a.DeleteBudget?
  }

  function PatchAccount(p: AccountPatch): Account -> Account {
    (x: Account) => MergeAccount(x, p)
  }

  function PatchCategory(p: CategoryPatch): Category -> Category {
    (x: Category) => MergeCategory(x, p)
  }

  function PatchTransaction(p: TransactionPatch): Transaction -> Transaction {
    (x: Transaction) => MergeTransaction(x, p)
  }

  function PatchBudget(p: BudgetPatch): Budget -> Budget {
    (x: Budget) => MergeBudget(x, p)
  }

  /** `appReducer`. Add appends, update merges the patch into every record
      with the id, delete keeps the records without it; an unrecognised
      action leaves the state as it is. */
  function Reduce(s: AppState, a: Action): (r: AppState)
    ensures a.SetData? ==> r == a.payload
    ensures !a.SetData? && !OnAccounts(a) ==> r.accounts == s.accounts
    ensures !a.SetData? && !OnCategories(a) ==> r.categories == s.categories
    ensures !a.SetData? && !OnTransactions(a) ==> r.transactions == s.transactions
    ensures !a.SetData? && !OnBudgets(a) ==> r.budgets == s.budgets
    ensures a.AddAccount? ==> |r.accounts| == |s.accounts| + 1 && r.accounts[..|s.accounts|] == s.accounts && r.accounts[|s.accounts|] == a.account
    ensures a.AddTransaction? ==>
              |r.transactions| == |s.transactions| + 1 && r.transactions[..|s.transactions|] == s.transactions
              && r.transactions[|s.transactions|] == a.transaction
    ensures a.UpdateAccount? ==> |r.accounts| == |s.accounts|
    ensures a.UpdateTransaction? ==> |r.transactions| == |s.transactions|
    ensures a.DeleteAccount? ==> forall i :: 0 <= i < |r.accounts| ==> r.accounts[i].id != a.accountId
    ensures a.DeleteTransaction? ==> forall i :: 0 <= i < |r.transactions| ==> r.transactions[i].id != a.transactionId
  {
    match a
    case SetData(payload) => payload
    case AddAccount(x) => s.(accounts := s.accounts + [x])
    case UpdateAccount(id, p) => s.(accounts := UpdateWhere(s.accounts, AccountId, id, PatchAccount(p)))
    case DeleteAccount(id) => s.(accounts := RemoveWhere(s.accounts, AccountId, id))
    case AddCategory(x) => s.(categories := s.categories + [x])
    case UpdateCategory(id, p) => s.(categories := UpdateWhere(s.categories, CategoryId, id, PatchCategory(p)))
    case DeleteCategory(id) => s.(categories := RemoveWhere(s.categories, CategoryId, id))
    case AddTransaction(x) => s.(transactions := s.transactions + [x])
    case UpdateTransaction(id, p) => s.(transactions := UpdateWhere(s.transactions, TransactionId, id, PatchTransaction(p)))
    case DeleteTransaction(id) => s.(transactions := RemoveWhere(s.transactions, TransactionId, id))
    case AddBudget(x) => s.(budgets := s.budgets + [x])
    case UpdateBudget(id, p) => s.(budgets := UpdateWhere(s.budgets, BudgetId, id, PatchBudget(p)))
    case DeleteBudget(id) => s.(budgets := RemoveWhere(s.budgets, BudgetId, id))
    case Unrecognised => s
  }

  /** An add appends its record at the end of its collection. */
  lemma AddAppends(s: AppState, a: Action)
    requires a.AddAccount? || a.AddCategory? || a.AddTransaction? || a.AddBudget?
    ensures a.AddAccount? ==> Reduce(s, a).accounts == s.accounts + [a.account]
    ensures a.AddCategory? ==> Reduce(s, a).categories == s.categories + [a.category]
    ensures a.AddTransaction? ==> Reduce(s, a).transactions == s.transactions + [a.transaction]
    ensures a.AddBudget? ==> Reduce(s, a).budgets == s.budgets + [a.budget]
  {
  }

  /** An update merges its patch into exactly the records with the id and
      leaves every other record as it was. */
  lemma UpdateMergesMatching(s: AppState, a: Action)
    requires a.UpdateAccount? || a.UpdateCategory? || a.UpdateTransaction? || a.UpdateBudget?
    ensures a.UpdateAccount? ==>
              |Reduce(s, a).accounts| == |s.accounts|
              && forall i :: 0 <= i < |s.accounts| ==>
                   Reduce(s, a).accounts[i] == if s.accounts[i].id == a.accountId then MergeAccount(s.accounts[i], a.accountUpdates) else s.accounts[i]
    ensures a.UpdateCategory? ==>
              |Reduce(s, a).categories| == |s.categories|
              && forall i :: 0 <= i < |s.categories| ==>
                   Reduce(s, a).categories[i] == if s.categories[i].id == a.categoryId then MergeCategory(s.categories[i], a.categoryUpdates) else s.categories[i]
    ensures a.UpdateTransaction? ==>
              |Reduce(s, a).transactions| == |s.transactions|
              && forall i :: 0 <= i < |s.transactions| ==>
                   Reduce(s, a).transactions[i] ==
                     if s.transactions[i].id == a.transactionId then MergeTransaction(s.transactions[i], a.transactionUpdates) else s.transactions[i]
    ensures a.UpdateBudget? ==>
              |Reduce(s, a).budgets| == |s.budgets|
              && forall i :: 0 <= i < |s.budgets| ==>
                   Reduce(s, a).budgets[i] == if s.budgets[i].id == a.budgetId then MergeBudget(s.budgets[i], a.budgetUpdates) else s.budgets[i]
  {
    match a
    case UpdateAccount(id, p) =>
      assert Reduce(s, a).accounts == UpdateWhere(s.accounts, AccountId, id, PatchAccount(p));
    case UpdateCategory(id, p) =>
      assert Reduce(s, a).categories == UpdateWhere(s.categories, CategoryId, id, PatchCategory(p));
    case UpdateTransaction(id, p) =>
      assert Reduce(s, a).transactions == UpdateWhere(s.transactions, TransactionId, id, PatchTransaction(p));
    case UpdateBudget(id, p) =>
      assert Reduce(s, a).budgets == UpdateWhere(s.budgets, BudgetId, id, PatchBudget(p));
  }

  /** A delete removes exactly the records with the id and keeps the rest in
      order. */
  lemma DeleteRemovesMatching(s: AppState, a: Action)
    requires a.DeleteAccount? || a.DeleteCategory? || a.DeleteTransaction? || a.DeleteBudget?
    ensures a.DeleteAccount? ==>
              IsSubsequence(Reduce(s, a).accounts, s.accounts)
              && (forall i :: 0 <= i < |Reduce(s, a).accounts| ==> Reduce(s, a).accounts[i].id != a.accountId)
              && (forall i :: 0 <= i < |s.accounts| && s.accounts[i].id != a.accountId ==> s.accounts[i] in Reduce(s, a).accounts)
              && |Reduce(s, a).accounts| == CountWhere(s.accounts, KeyIsNot(AccountId, a.accountId))
    ensures a.DeleteCategory? ==>
              IsSubsequence(Reduce(s, a).categories, s.categories)
              && (forall i :: 0 <= i < |Reduce(s, a).categories| ==> Reduce(s, a).categories[i].id != a.categoryId)
              && (forall i :: 0 <= i < |s.categories| && s.categories[i].id != a.categoryId ==> s.categories[i] in Reduce(s, a).categories)
              && |Reduce(s, a).categories| == CountWhere(s.categories, KeyIsNot(CategoryId, a.categoryId))
    ensures a.DeleteTransaction? ==>
              IsSubsequence(Reduce(s, a).transactions, s.transactions)
              && (forall i :: 0 <= i < |Reduce(s, a).transactions| ==> Reduce(s, a).transactions[i].id != a.transactionId)
              && (forall i :: 0 <= i < |s.transactions| && s.transactions[i].id != a.transactionId ==> s.transactions[i] in Reduce(s, a).transactions)
              && |Reduce(s, a).transactions| == CountWhere(s.transactions, KeyIsNot(TransactionId, a.transactionId))
    ensures a.DeleteBudget? ==>
              IsSubsequence(Reduce(s, a).budgets, s.budgets)
              && (forall i :: 0 <= i < |Reduce(s, a).budgets| ==> Reduce(s, a).budgets[i].id != a.budgetId)
              && (forall i :: 0 <= i < |s.budgets| && s.budgets[i].id != a.budgetId ==> s.budgets[i] in Reduce(s, a).budgets)
              && |Reduce(s, a).budgets| == CountWhere(s.budgets, KeyIsNot(BudgetId, a.budgetId))
  {
    match a
    case DeleteAccount(id) => DeleteRemovesAccounts(s, id);
    case DeleteCategory(id) => DeleteRemovesCategories(s, id);
    case DeleteTransaction(id) => DeleteRemovesTransactions(s, id);
    case DeleteBudget(id) => DeleteRemovesBudgets(s, id);
  }

  lemma DeleteRemovesAccounts(s: AppState, id: Id)
    ensures var r := Reduce(s, DeleteAccount(id)).accounts;
            IsSubsequence(r, s.accounts)
            && (forall i :: 0 <= i < |r| ==> r[i].id != id)
            && (forall i :: 0 <= i < |s.accounts| && s.accounts[i].id != id ==> s.accounts[i] in r)
            && |r| == CountWhere(s.accounts, KeyIsNot(AccountId, id))
  {
    assert Reduce(s, DeleteAccount(id)).accounts == RemoveWhere(s.accounts, AccountId, id);
  }

  lemma DeleteRemovesCategories(s: AppState, id: Id)
    ensures var r := Reduce(s, DeleteCategory(id)).categories;
            IsSubsequence(r, s.categories)
            && (forall i :: 0 <= i < |r| ==> r[i].id != id)
            && (forall i :: 0 <= i < |s.categories| && s.categories[i].id != id ==> s.categories[i] in r)
            && |r| == CountWhere(s.categories, KeyIsNot(CategoryId, id))
  {
    assert Reduce(s, DeleteCategory(id)).categories == RemoveWhere(s.categories, CategoryId, id);
  }

  lemma DeleteRemovesTransactions(s: AppState, id: Id)
    ensures var r := Reduce(s, DeleteTransaction(id)).transactions;
            IsSubsequence(r, s.transactions)
            && (forall i :: 0 <= i < |r| ==> r[i].id != id)
            && (forall i :: 0 <= i < |s.transactions| && s.transactions[i].id != id ==> s.transactions[i] in r)
            && |r| == CountWhere(s.transactions, KeyIsNot(TransactionId, id))
  {
    assert Reduce(s, DeleteTransaction(id)).transactions == RemoveWhere(s.transactions, TransactionId, id);
  }

  lemma DeleteRemovesBudgets(s: AppState, id: Id)
    ensures var r := Reduce(s, DeleteBudget(id)).budgets;
            IsSubsequence(r, s.budgets)
            && (forall i :: 0 <= i < |r| ==> r[i].id != id)
            && (forall i :: 0 <= i < |s.budgets| && s.budgets[i].id != id ==> s.budgets[i] in r)
            && |r| == CountWhere(s.budgets, KeyIsNot(BudgetId, id))
  {
    assert Reduce(s, DeleteBudget(id)).budgets == RemoveWhere(s.budgets, BudgetId, id);
  }

  /** Whether the collection an update or delete targets holds a record with
      its id. */
  predicate Mentions(s: AppState, a: Action) {
    match a
    case UpdateAccount(id, _) => exists i :: 0 <= i < |s.accounts| && s.accounts[i].id == id
    case DeleteAccount(id) => exists i :: 0 <= i < |s.accounts| && s.accounts[i].id == id
    case UpdateCategory(id, _) => exists i :: 0 <= i < |s.categories| && s.categories[i].id == id
    case DeleteCategory(id) => exists i :: 0 <= i < |s.categories| && s.categories[i].id == id
    case UpdateTransaction(id, _) => exists i :: 0 <= i < |s.transactions| && s.transactions[i].id == id
    case DeleteTransaction(id) => exists i :: 0 <= i < |s.transactions| && s.transactions[i].id == id
    case UpdateBudget(id, _) => exists i :: 0 <= i < |s.budgets| && s.budgets[i].id == id
    case DeleteBudget(id) => exists i :: 0 <= i < |s.budgets| && s.budgets[i].id == id
    case _ => true
  }

  /** An update or delete of an id that is not there changes nothing. */
  lemma UnknownIdIsNoop(s: AppState, a: Action)
    requires !Mentions(s, a)
    ensures Reduce(s, a) == s
  {
  }

  /** Deleting twice is deleting once. */
  lemma DeleteIdempotent(s: AppState, a: Action)
    requires a.DeleteAccount? || a.DeleteCategory? || a.DeleteTransaction? || a.DeleteBudget?
    ensures Reduce(Reduce(s, a), a) == Reduce(s, a)
  {
  }

  /** The delete action that undoes an add. */
  function Undo(a: Action): Action
    requires a.AddAccount? || a.AddCategory? || a.AddTransaction? || a.AddBudget?
  {
    match a
    case AddAccount(x) => DeleteAccount(x.id)
    case AddCategory(x) => DeleteCategory(x.id)
    case AddTransaction(x) => DeleteTransaction(x.id)
    case AddBudget(x) => DeleteBudget(x.id)
  }

  /** Adding a record with a fresh id and deleting that id restores the
      state. */
  lemma AddThenDelete(s: AppState, a: Action)
    requires a.AddAccount? || a.AddCategory? || a.AddTransaction? || a.AddBudget?
    requires a.AddAccount? ==> forall i :: 0 <= i < |s.accounts| ==> s.accounts[i].id != a.account.id
    requires a.AddCategory? ==> forall i :: 0 <= i < |s.categories| ==> s.categories[i].id != a.category.id
    requires a.AddTransaction? ==> forall i :: 0 <= i < |s.transactions| ==> s.transactions[i].id != a.transaction.id
    requires a.AddBudget? ==> forall i :: 0 <= i < |s.budgets| ==> s.budgets[i].id != a.budget.id
    ensures Reduce(Reduce(s, a), Undo(a)) == s
  {
    match a
    case AddAccount(x) => AddThenDeleteAccount(s, x);
    case AddCategory(x) => AddThenDeleteCategory(s, x);
    case AddTransaction(x) => AddThenDeleteTransaction(s, x);
    case AddBudget(x) => AddThenDeleteBudget(s, x);
  }

  lemma AddThenDeleteAccount(s: AppState, x: Account)
    requires forall i :: 0 <= i < |s.accounts| ==> s.accounts[i].id != x.id
    ensures Reduce(Reduce(s, AddAccount(x)), DeleteAccount(x.id)) == s
  {
    AddThenDeleteAccountUnfolds(s, x);
    assert forall i :: 0 <= i < |s.accounts| ==> AccountId(s.accounts[i]) != AccountId(x);
    RemoveAfterAppend(s.accounts, x, AccountId);
  }

  lemma AddThenDeleteAccountUnfolds(s: AppState, x: Account)
    ensures Reduce(Reduce(s, AddAccount(x)), DeleteAccount(x.id)) == s.(accounts := RemoveWhere(s.accounts + [x], AccountId, x.id))
  {
  }

  lemma AddThenDeleteCategory(s: AppState, x: Category)
    requires forall i :: 0 <= i < |s.categories| ==> s.categories[i].id != x.id
    ensures Reduce(Reduce(s, AddCategory(x)), DeleteCategory(x.id)) == s
  {
    AddThenDeleteCategoryUnfolds(s, x);
    assert forall i :: 0 <= i < |s.categories| ==> CategoryId(s.categories[i]) != CategoryId(x);
    RemoveAfterAppend(s.categories, x, CategoryId);
  }

  lemma AddThenDeleteCategoryUnfolds(s: AppState, x: Category)
    ensures Reduce(Reduce(s, AddCategory(x)), DeleteCategory(x.id)) == s.(categories := RemoveWhere(s.categories + [x], CategoryId, x.id))
  {
  }

  lemma AddThenDeleteTransaction(s: AppState, x: Transaction)
    requires forall i :: 0 <= i < |s.transactions| ==> s.transactions[i].id != x.id
    ensures Reduce(Reduce(s, AddTransaction(x)), DeleteTransaction(x.id)) == s
  {
    AddThenDeleteTransactionUnfolds(s, x);
    assert forall i :: 0 <= i < |s.transactions| ==> TransactionId(s.transactions[i]) != TransactionId(x);
    RemoveAfterAppend(s.transactions, x, TransactionId);
  }

  lemma AddThenDeleteTransactionUnfolds(s: AppState, x: Transaction)
    ensures Reduce(Reduce(s, AddTransaction(x)), DeleteTransaction(x.id)) == s.(transactions := RemoveWhere(s.transactions + [x], TransactionId, x.id))
  {
  }

  lemma AddThenDeleteBudget(s: AppState, x: Budget)
    requires forall i :: 0 <= i < |s.budgets| ==> s.budgets[i].id != x.id
    ensures Reduce(Reduce(s, AddBudget(x)), DeleteBudget(x.id)) == s
  {
    AddThenDeleteBudgetUnfolds(s, x);
    assert forall i :: 0 <= i < |s.budgets| ==> BudgetId(s.budgets[i]) != BudgetId(x);
    RemoveAfterAppend(s.budgets, x, BudgetId);
  }

  lemma AddThenDeleteBudgetUnfolds(s: AppState, x: Budget)
    ensures Reduce(Reduce(s, AddBudget(x)), DeleteBudget(x.id)) == s.(budgets := RemoveWhere(s.budgets + [x], BudgetId, x.id))
  {
  }

  /** With unique ids, deleting the transaction at index `i` slices out that
      one transaction and keeps the others in order. */
  lemma DeleteTransactionSlices(s: AppState, i: nat)
    requires UniqueBy(s.transactions, TransactionId)
    requires i < |s.transactions|
    ensures Reduce(s, DeleteTransaction(s.transactions[i].id)).transactions ==
            s.transactions[..i] + s.transactions[i + 1..]
  {
    ReduceDeleteUnfolds(s, s.transactions[i].id);
    RemoveUnique(s.transactions, TransactionId, i);
  }

  lemma ReduceDeleteUnfolds(s: AppState, id: Id)
    ensures Reduce(s, DeleteTransaction(id)).transactions == RemoveWhere(s.transactions, TransactionId, id)
  {
  }

  /** Updating with a patch that leaves the id alone keeps the ids, in
      order, and every record other than the target as it was. */
  lemma UpdateKeepsIds(s: AppState, id: Id, p: TransactionPatch)
    requires p.id.None?
    ensures var r := Reduce(s, UpdateTransaction(id, p)).transactions;
            forall i :: 0 <= i < |r| ==>
              r[i].id == s.transactions[i].id && (s.transactions[i].id != id ==> r[i] == s.transactions[i])
  {
  }
}
