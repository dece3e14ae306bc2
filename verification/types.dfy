/** The entity model of the ledger: users, accounts, categories, transactions
    and budgets as plain immutable records, plus the "partial update" patches
    that the coordinator merges into them with object spread. */
module Types {
  import opened Calendar

  /** A nullable value (`T | null`, or an optional property). */
  datatype Option<+T> = None | Some(value: T)

  /** Identifiers are opaque strings (uuids in the running system). */
  type Id = string

  /** JavaScript truthiness of a nullable string: null and "" are falsy. */
  predicate Present(o: Option<string>) {
    o.Some? && o.value != ""
  }

  /** The value of an optional field of a patch, or the current value when the
      patch does not mention the field (`{ ...old, ...patch }`). */
  function Or<T>(o: Option<T>, current: T): T {
    match o
    case Some(v) => v
    case None => current
  }

  datatype Theme = Light | Dark

  datatype User = User(
    id: Id,
    email: string,
    name: string,
    currency: string,
    locale: string,
    theme: Theme,
    createdAt: Instant)

  datatype AccountKind = Cash | Bank | Card

  /** `currentBalance` is derived: see module Balances. */
  datatype Account = Account(
    id: Id,
    userId: Id,
    name: string,
    kind: AccountKind,
    currency: string,
    openingBalance: real,
    currentBalance: real,
    createdAt: Instant,
    updatedAt: Instant)

  /** Categories are global: they carry no owner. */
  datatype Category = Category(
    id: Id,
    name: string,
    parentId: Option<Id>,
    color: string,
    icon: string,
    createdAt: Instant)

  datatype TxKind = Income | Expense | Transfer

  /** `amount` is a magnitude; its sign comes from `kind`. `toAccountId` is
      only meaningful for transfers. */
  datatype Transaction = Transaction(
    id: Id,
    userId: Id,
    date: Instant,
    accountId: Id,
    toAccountId: Option<Id>,
    kind: TxKind,
    categoryId: Option<Id>,
    amount: real,
    note: string,
    tags: seq<string>,
    attachmentUrl: Option<string>,
    createdAt: Instant,
    updatedAt: Instant)

  /** `spent` is derived: see module Budgets. A budget whose `categoryId` is
      not present is a global budget for its month. */
  datatype Budget = Budget(
    id: Id,
    userId: Id,
    month: YearMonth,
    categoryId: Option<Id>,
    amount: real,
    spent: real,
    createdAt: Instant,
    updatedAt: Instant)

  /** The in-memory snapshot of the coordinator. */
  datatype AppState = AppState(
    accounts: seq<Account>,
    categories: seq<Category>,
    transactions: seq<Transaction>,
    budgets: seq<Budget>)

  const EmptyAppState := AppState([], [], [], [])

  function AccountId(a: Account): Id { a.id }
  function AccountOwner(a: Account): Id { a.userId }
  function CategoryId(c: Category): Id { c.id }
  function TransactionId(t: Transaction): Id { t.id }
  function TransactionOwner(t: Transaction): Id { t.userId }
  function BudgetId(b: Budget): Id { b.id }
  function BudgetOwner(b: Budget): Id { b.userId }
  function Amount(t: Transaction): real { t.amount }
  function CurrentBalance(a: Account): real { a.currentBalance }

  // Partial<T>: every field optional; a present field overrides on merge.

  datatype UserPatch = UserPatch(
    id: Option<Id>,
    email: Option<string>,
    name: Option<string>,
    currency: Option<string>,
    locale: Option<string>,
    theme: Option<Theme>,
    createdAt: Option<Instant>)

  datatype AccountPatch = AccountPatch(
    id: Option<Id>,
    userId: Option<Id>,
    name: Option<string>,
    kind: Option<AccountKind>,
    currency: Option<string>,
    openingBalance: Option<real>,
    currentBalance: Option<real>,
    createdAt: Option<Instant>,
    updatedAt: Option<Instant>)

  datatype CategoryPatch = CategoryPatch(
    id: Option<Id>,
    name: Option<string>,
    parentId: Option<Option<Id>>,
    color: Option<string>,
    icon: Option<string>,
    createdAt: Option<Instant>)

  datatype TransactionPatch = TransactionPatch(
    id: Option<Id>,
    userId: Option<Id>,
    date: Option<Instant>,
    accountId: Option<Id>,
    toAccountId: Option<Option<Id>>,
    kind: Option<TxKind>,
    categoryId: Option<Option<Id>>,
    amount: Option<real>,
    note: Option<string>,
    tags: Option<seq<string>>,
    attachmentUrl: Option<Option<string>>,
    createdAt: Option<Instant>,
    updatedAt: Option<Instant>)

  datatype BudgetPatch = BudgetPatch(
    id: Option<Id>,
    userId: Option<Id>,
    month: Option<YearMonth>,
    categoryId: Option<Option<Id>>,
    amount: Option<real>,
    spent: Option<real>,
    createdAt: Option<Instant>,
    updatedAt: Option<Instant>)

  function MergeUser(u: User, p: UserPatch): User {
    User(Or(p.id, u.id), Or(p.email, u.email), Or(p.name, u.name),
         Or(p.currency, u.currency), Or(p.locale, u.locale),
         Or(p.theme, u.theme), Or(p.createdAt, u.createdAt))
  }

  function MergeAccount(a: Account, p: AccountPatch): Account {
    Account(Or(p.id, a.id), Or(p.userId, a.userId), Or(p.name, a.name),
            Or(p.kind, a.kind), Or(p.currency, a.currency),
            Or(p.openingBalance, a.openingBalance),
            Or(p.currentBalance, a.currentBalance),
            Or(p.createdAt, a.createdAt), Or(p.updatedAt, a.updatedAt))
  }

  function MergeCategory(c: Category, p: CategoryPatch): Category {
    Category(Or(p.id, c.id), Or(p.name, c.name), Or(p.parentId, c.parentId),
             Or(p.color, c.color), Or(p.icon, c.icon),
             Or(p.createdAt, c.createdAt))
  }

  function MergeTransaction(t: Transaction, p: TransactionPatch): Transaction {
    Transaction(Or(p.id, t.id), Or(p.userId, t.userId), Or(p.date, t.date),
                Or(p.accountId, t.accountId), Or(p.toAccountId, t.toAccountId),
                Or(p.kind, t.kind), Or(p.categoryId, t.categoryId),
                Or(p.amount, t.amount), Or(p.note, t.note), Or(p.tags, t.tags),
                Or(p.attachmentUrl, t.attachmentUrl),
                Or(p.createdAt, t.createdAt), Or(p.updatedAt, t.updatedAt))
  }

  function MergeBudget(b: Budget, p: BudgetPatch): Budget {
    Budget(Or(p.id, b.id), Or(p.userId, b.userId), Or(p.month, b.month),
           Or(p.categoryId, b.categoryId), Or(p.amount, b.amount),
           Or(p.spent, b.spent), Or(p.createdAt, b.createdAt),
           Or(p.updatedAt, b.updatedAt))
  }

  /** The patch `{ currentBalance: b }` the coordinator dispatches after a
      balance recompute. */
  function BalancePatch(b: real): AccountPatch {
    AccountPatch(None, None, None, None, None, None, Some(b), None, None)
  }
}
