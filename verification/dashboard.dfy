/** The dashboard aggregation: total balance, the current month's income,
    expenses and net, the month's expenses grouped by category name, and a
    twelve-month income/expense trend. A pure function of the accounts,
    categories and transactions and of the current month. */
module Dashboard {
  import opened Calendar
  import opened Types
  import opened Collections
  import Budgets
  import Balances

  /** One entry of the per-category breakdown. */
  datatype Slice = Slice(category: string, amount: real, color: string)

  datatype TrendPoint = TrendPoint(month: YearMonth, income: real, expenses: real)

  datatype DashboardData = DashboardData(
    totalBalance: real,
    monthlyIncome: real,
    monthlyExpenses: real,
    monthlyNet: real,
    expensesByCategory: seq<Slice>,
    monthlyTrend: seq<TrendPoint>)

  /** The dashboard's month window is closed: from the first to the last
      instant of the month. */
  predicate InWindow(m: YearMonth, t: Transaction) {
    MonthStart(m) <= t.date <= MonthEnd(m)
  }

  function WithinMonth(m: YearMonth): Transaction -> bool {
    (t: Transaction) => InWindow(m, t)
  }

  function OfKind(k: TxKind): Transaction -> bool {
    (t: Transaction) => t.kind == k
  }

  /** `transactions.filter(in month).filter(type === k).reduce(+)`. */
  function MonthTotal(txs: seq<Transaction>, m: YearMonth, k: TxKind): real {
    Sum(Filter(Filter(txs, WithinMonth(m)), OfKind(k)), Amount)
  }

  function KindInMonth(m: YearMonth, k: TxKind): Transaction -> bool {
    (t: Transaction) => t.kind == k && InWindow(m, t)
  }

  /** A month's total of one kind is the sum of the amounts of exactly the
      transactions of that kind dated inside the month. */
  lemma MonthTotalIsSum(txs: seq<Transaction>, m: YearMonth, k: TxKind)
    ensures MonthTotal(txs, m, k) == SumWhere(txs, KindInMonth(m, k), Amount)
  {
    SumOfFilter(Filter(txs, WithinMonth(m)), OfKind(k), Amount);
    SumWhereOfFilter(txs, WithinMonth(m), OfKind(k), KindInMonth(m, k), Amount);
  }

  /** On integer instants the closed window ending one millisecond before
      the next month is the budget engine's half-open window. Both are read
      on one local timeline; `ParsedMonth` shows where the dashboard's
      parsing of the month departs from it. */
  lemma WindowsAgree(m: YearMonth, t: Transaction)
    ensures InWindow(m, t) <==> Budgets.InMonth(m, t.date)
  {
  }

  /** The month's expenses on the dashboard equal what a global budget for
      that month has spent, when the dashboard's window is the named local
      month (a UTC offset of zero or more; see `ParsedMonth`). */
  lemma ExpensesMatchGlobalBudget(txs: seq<Transaction>, b: Budget)
    requires !Present(b.categoryId)
    ensures MonthTotal(txs, b.month, Expense) == Budgets.ExpectedSpent(b, txs)
  {
    MonthTotalIsSum(txs, b.month, Expense);
    SumWhereCongruent(txs, KindInMonth(b.month, Expense), Budgets.ExpensesIn(b.month), Amount);
  }

  /** The local month whose window `getMonthRange` returns for `m` as
      written: `"YYYY-MM-01"` is read as UTC midnight, which at a UTC offset
      of `offset` milliseconds (local minus UTC, less than a day either way)
      is the local instant `MonthStart(m) + offset`; `startOfMonth` and
      `endOfMonth` then take the local month holding that instant. */
  function ParsedMonth(m: YearMonth, offset: int): (k: YearMonth)
    requires -MsPerDay < offset < MsPerDay
    ensures MonthStart(k) <= MonthStart(m) + offset < NextMonthStart(k)
  {
    MonthLength(m);
    if offset < 0 then
      var p := Predecessor(m);
      MonthLength(p);
      SuccessorOfPredecessor(m);
      p
    else
      m
  }

  /** West of UTC the dashboard counts the wrong month: a transaction at
      the first local instant of `m` is in the budget engine's month `m`
      but outside the window `getMonthRange` gives for `m`. */
  lemma WestOfUtcMissesMonthStart(m: YearMonth, offset: int, t: Transaction)
    requires -MsPerDay < offset < 0
    requires t.date == MonthStart(m)
    ensures Budgets.InMonth(m, t.date)
    ensures !InWindow(ParsedMonth(m, offset), t)
    ensures ParsedMonth(m, offset) == Predecessor(m)
  {
  }

  /** `categoryMap`: category id to category, a later category replacing
      an earlier one with the same id. */
  function CategoryIndex(cs: seq<Category>): (r: map<Id, Category>)
    ensures forall id :: id in r <==> exists i :: 0 <= i < |cs| && cs[i].id == id
    ensures forall id :: id in r ==> r[id].id == id && r[id] in cs
    decreases |cs|
  {
    if cs == [] then map[]
    else
      var init := cs[..|cs| - 1];
      var last := cs[|cs| - 1];
      assert cs == init + [last];
      CategoryIndex(init)[last.id := last]
  }

  /** The category the index keeps for an id is the last one with that id. */
  lemma {:induction false} LastCategoryWins(cs: seq<Category>, i: nat)
    requires i < |cs|
    requires forall j :: i < j < |cs| ==> cs[j].id != cs[i].id
    ensures CategoryIndex(cs)[cs[i].id] == cs[i]
    decreases |cs|
  {
    if i < |cs| - 1 {
      var init := cs[..|cs| - 1];
      LastCategoryWins(init, i);
    }
  }

  /** An expense the breakdown can file: its category id is set and known. */
  predicate Filed(index: map<Id, Category>, t: Transaction) {
    t.categoryId.Some? && t.categoryId.value in index
  }

  function NameOf(index: map<Id, Category>, t: Transaction): string
    requires Filed(index, t)
  {
    index[t.categoryId.value].name
  }

  predicate IsFiledUnder(index: map<Id, Category>, n: string, t: Transaction) {
    Filed(index, t) && NameOf(index, t) == n
  }

  function FiledUnder(index: map<Id, Category>, n: string): Transaction -> bool {
    (t: Transaction) => IsFiledUnder(index, n, t)
  }

  function FiledIn(index: map<Id, Category>): Transaction -> bool {
    (t: Transaction) => Filed(index, t)
  }

  function SliceAmount(s: Slice): real { s.amount }

  function SliceNamed(n: string): Slice -> bool {
    (s: Slice) => s.category == n
  }

  /** The amount recorded under name `n` (zero when there is no entry). */
  function AmountOf(acc: seq<Slice>, n: string): real {
    SumWhere(acc, SliceNamed(n), SliceAmount)
  }

  predicate HasName(acc: seq<Slice>, n: string) {
    exists i :: 0 <= i < |acc| && acc[i].category == n
  }

  ghost predicate DistinctNames(acc: seq<Slice>) {
    forall i, j :: 0 <= i < j < |acc| ==> acc[i].category != acc[j].category
  }

  lemma HasNameTail(acc: seq<Slice>, n: string)
    requires acc != [] && acc[0].category != n
    ensures HasName(acc, n) <==> HasName(acc[1..], n)
  {
    if HasName(acc, n) {
      var i :| 0 <= i < |acc| && acc[i].category == n;
      assert acc[1..][i - 1] == acc[i];
    }
    if HasName(acc[1..], n) {
      var i :| 0 <= i < |acc[1..]| && acc[1..][i].category == n;
      assert acc[i + 1] == acc[1..][i];
    }
  }

  /** `acc.find(same name)`: add to the first entry with the name, or push
      a new entry at the end. Existing entries keep their position, name and
      colour, so entries stay in order of first occurrence. */
  function AddTo(acc: seq<Slice>, name: string, amount: real, color: string): (r: seq<Slice>)
    ensures |r| == if HasName(acc, name) then |acc| else |acc| + 1
    ensures forall i :: 0 <= i < |acc| ==> r[i].category == acc[i].category && r[i].color == acc[i].color
    ensures !HasName(acc, name) ==> r[|acc|] == Slice(name, amount, color)
    decreases |acc|
  {
    if acc == [] then [Slice(name, amount, color)]
    else if acc[0].category == name then
      [acc[0].(amount := acc[0].amount + amount)] + acc[1..]
    else
      HasNameTail(acc, name);
      [acc[0]] + AddTo(acc[1..], name, amount, color)
  }

  /** Adding under `name` adds `name` to the names and nothing else. */
  lemma AddToNames(acc: seq<Slice>, name: string, amount: real, color: string, n: string)
    ensures HasName(AddTo(acc, name, amount, color), n) <==> HasName(acc, n) || n == name
  {
    if HasName(acc, n) || n == name {
      AddToGains(acc, name, amount, color, n);
    }
    if HasName(AddTo(acc, name, amount, color), n) && n != name {
      AddToOnly(acc, name, amount, color, n);
    }
  }

  lemma AddToGains(acc: seq<Slice>, name: string, amount: real, color: string, n: string)
    requires HasName(acc, n) || n == name
    ensures HasName(AddTo(acc, name, amount, color), n)
  {
    var r := AddTo(acc, name, amount, color);
    if HasName(acc, n) {
      var i :| 0 <= i < |acc| && acc[i].category == n;
      assert r[i].category == n;
    } else {
      assert r[|acc|].category == n;
    }
  }

  lemma AddToOnly(acc: seq<Slice>, name: string, amount: real, color: string, n: string)
    requires HasName(AddTo(acc, name, amount, color), n) && n != name
    ensures HasName(acc, n)
  {
    var r := AddTo(acc, name, amount, color);
    var i :| 0 <= i < |r| && r[i].category == n;
    if !HasName(acc, name) {
      assert r[|acc|].category == name;
    }
    assert i < |acc|;
    assert acc[i].category == n;
  }

  /** Adding never creates a second entry for a name. */
  lemma AddToDistinct(acc: seq<Slice>, name: string, amount: real, color: string)
    requires DistinctNames(acc)
    ensures DistinctNames(AddTo(acc, name, amount, color))
  {
    var r := AddTo(acc, name, amount, color);
    forall i, j | 0 <= i < j < |r|
      ensures r[i].category != r[j].category
    {
      if j < |acc| {
        assert acc[i].category != acc[j].category;
      } else {
        assert acc[i].category == r[i].category;
      }
    }
  }

  lemma {:induction false} AddToAmounts(acc: seq<Slice>, name: string, amount: real, color: string, n: string)
    ensures AmountOf(AddTo(acc, name, amount, color), n) == AmountOf(acc, n) + (if n == name then amount else 0.0)
    ensures Sum(AddTo(acc, name, amount, color), SliceAmount) == Sum(acc, SliceAmount) + amount
    decreases |acc|
  {
    var r := AddTo(acc, name, amount, color);
    if acc == [] {
      SumWhereSingleton(Slice(name, amount, color), SliceNamed(n), SliceAmount);
      assert r[1..] == [];
    } else if acc[0].category == name {
      assert r[1..] == acc[1..];
    } else {
      AddToAmounts(acc[1..], name, amount, color, n);
      assert r[1..] == AddTo(acc[1..], name, amount, color);
    }
  }

  /** One step of the `reduce`: a filed expense is added under its
      category's name and with its colour; anything else is skipped. */
  function Step(acc: seq<Slice>, t: Transaction, index: map<Id, Category>): seq<Slice> {
    if Filed(index, t) then
      var c := index[t.categoryId.value];
      AddTo(acc, c.name, t.amount, c.color)
    else acc
  }

  function Group(acc: seq<Slice>, txs: seq<Transaction>, index: map<Id, Category>): seq<Slice>
    decreases |txs|
  {
    if txs == [] then acc else Group(Step(acc, txs[0], index), txs[1..], index)
  }

  predicate FiledSomewhere(index: map<Id, Category>, txs: seq<Transaction>, n: string) {
    exists i :: 0 <= i < |txs| && IsFiledUnder(index, n, txs[i])
  }

  /** The grouping's names are the names already there plus the names of
      the filed expenses. */
  lemma {:induction false} GroupNames(acc: seq<Slice>, txs: seq<Transaction>, index: map<Id, Category>, n: string)
    ensures HasName(Group(acc, txs, index), n) <==> HasName(acc, n) || FiledSomewhere(index, txs, n)
    decreases |txs|
  {
    if txs != [] {
      var t := txs[0];
      var next := Step(acc, t, index);
      assert Group(acc, txs, index) == Group(next, txs[1..], index);
      GroupNames(next, txs[1..], index, n);
      if Filed(index, t) {
        var c := index[t.categoryId.value];
        AddToNames(acc, c.name, t.amount, c.color, n);
      }
      if FiledSomewhere(index, txs, n) {
        var i :| 0 <= i < |txs| && IsFiledUnder(index, n, txs[i]);
        if i > 0 {
          assert txs[1..][i - 1] == txs[i];
        }
      }
      if FiledSomewhere(index, txs[1..], n) {
        var i :| 0 <= i < |txs[1..]| && IsFiledUnder(index, n, txs[1..][i]);
        assert txs[i + 1] == txs[1..][i];
      }
    }
  }

  /** Grouping never gives a name two entries. */
  lemma {:induction false} GroupDistinct(acc: seq<Slice>, txs: seq<Transaction>, index: map<Id, Category>)
    requires DistinctNames(acc)
    ensures DistinctNames(Group(acc, txs, index))
    decreases |txs|
  {
    if txs != [] {
      var t := txs[0];
      if Filed(index, t) {
        var c := index[t.categoryId.value];
        AddToDistinct(acc, c.name, t.amount, c.color);
      }
      GroupDistinct(Step(acc, t, index), txs[1..], index);
    }
  }

  /** Each name's entry holds the sum of the amounts filed under it, and
      the entries together hold the sum of all filed amounts. */
  lemma {:induction false} GroupAmounts(acc: seq<Slice>, txs: seq<Transaction>, index: map<Id, Category>, n: string)
    ensures AmountOf(Group(acc, txs, index), n) == AmountOf(acc, n) + SumWhere(txs, FiledUnder(index, n), Amount)
    ensures Sum(Group(acc, txs, index), SliceAmount) == Sum(acc, SliceAmount) + SumWhere(txs, FiledIn(index), Amount)
    decreases |txs|
  {
    if txs != [] {
      var t := txs[0];
      var next := Step(acc, t, index);
      GroupAmounts(next, txs[1..], index, n);
      if Filed(index, t) {
        var c := index[t.categoryId.value];
        AddToAmounts(acc, c.name, t.amount, c.color, n);
      }
    }
  }

  /** The expenses the breakdown considers: in the window, of kind expense,
      with a truthy category id. */
  function CategorisedExpense(): Transaction -> bool {
    (t: Transaction) => t.kind == Expense && Present(t.categoryId)
  }

  /** An expense the breakdown shows: dated in the window, with a truthy
      category id naming a known category. */
  predicate IsCharted(m: YearMonth, index: map<Id, Category>, t: Transaction) {
    InWindow(m, t) && t.kind == Expense && Present(t.categoryId) && Filed(index, t)
  }

  predicate ChartedAs(m: YearMonth, index: map<Id, Category>, n: string, t: Transaction) {
    IsCharted(m, index, t) && NameOf(index, t) == n
  }

  function ChartableUnder(index: map<Id, Category>, n: string): Transaction -> bool {
    (t: Transaction) => t.kind == Expense && Present(t.categoryId) && IsFiledUnder(index, n, t)
  }

  function ChartableIn(index: map<Id, Category>): Transaction -> bool {
    (t: Transaction) => t.kind == Expense && Present(t.categoryId) && Filed(index, t)
  }

  function ChartedIn(m: YearMonth, index: map<Id, Category>): Transaction -> bool {
    (t: Transaction) => IsCharted(m, index, t)
  }

  function ChartedUnder(m: YearMonth, index: map<Id, Category>, n: string): Transaction -> bool {
    (t: Transaction) => ChartedAs(m, index, n, t)
  }

  function Trend(txs: seq<Transaction>, months: seq<YearMonth>): (r: seq<TrendPoint>)
    ensures |r| == |months|
    ensures forall i :: 0 <= i < |r| ==>
              r[i].month == months[i]
              && r[i].income == SumWhere(txs, KindInMonth(months[i], Income), Amount)
              && r[i].expenses == SumWhere(txs, KindInMonth(months[i], Expense), Amount)
  {
    var r := seq(|months|, i requires 0 <= i < |months| =>
                  TrendPoint(months[i], MonthTotal(txs, months[i], Income), MonthTotal(txs, months[i], Expense)));
    assert forall i :: 0 <= i < |r| ==>
             r[i].income == SumWhere(txs, KindInMonth(months[i], Income), Amount)
             && r[i].expenses == SumWhere(txs, KindInMonth(months[i], Expense), Amount) by {
      forall i | 0 <= i < |r|
        ensures r[i].income == SumWhere(txs, KindInMonth(months[i], Income), Amount)
        ensures r[i].expenses == SumWhere(txs, KindInMonth(months[i], Expense), Amount)
      {
        MonthTotalIsSum(txs, months[i], Income);
        MonthTotalIsSum(txs, months[i], Expense);
      }
    }
    r
  }

  /** The expenses-by-category breakdown of month `m`. */
  function ByCategory(categories: seq<Category>, txs: seq<Transaction>, m: YearMonth): seq<Slice> {
    Group([], Filter(Filter(txs, WithinMonth(m)), CategorisedExpense()), CategoryIndex(categories))
  }

  /** The `useMemo` body of the dashboard, for the current month `current`. */
  function Summarize(accounts: seq<Account>, categories: seq<Category>, txs: seq<Transaction>, current: YearMonth): (r: DashboardData)
    ensures r.totalBalance == Sum(accounts, CurrentBalance)
    ensures r.monthlyIncome == SumWhere(txs, KindInMonth(current, Income), Amount)
    ensures r.monthlyExpenses == SumWhere(txs, KindInMonth(current, Expense), Amount)
    ensures r.monthlyNet == r.monthlyIncome - r.monthlyExpenses
    ensures |r.monthlyTrend| == 12 && r.monthlyTrend[11] == TrendPoint(current, r.monthlyIncome, r.monthlyExpenses)
    ensures forall k :: 0 <= k < 11 ==> Successor(r.monthlyTrend[k].month) == r.monthlyTrend[k + 1].month
    ensures forall k :: 0 <= k < |r.monthlyTrend| ==>
              r.monthlyTrend[k].income == SumWhere(txs, KindInMonth(r.monthlyTrend[k].month, Income), Amount)
              && r.monthlyTrend[k].expenses == SumWhere(txs, KindInMonth(r.monthlyTrend[k].month, Expense), Amount)
    ensures DistinctNames(r.expensesByCategory)
    ensures forall n :: HasName(r.expensesByCategory, n) <==>
              exists i :: 0 <= i < |txs| && ChartedAs(current, CategoryIndex(categories), n, txs[i])
    ensures forall n :: AmountOf(r.expensesByCategory, n) == SumWhere(txs, ChartedUnder(current, CategoryIndex(categories), n), Amount)
  {
    var monthTxs := Filter(txs, WithinMonth(current));
    var income := Sum(Filter(monthTxs, OfKind(Income)), Amount);
    var expenses := Sum(Filter(monthTxs, OfKind(Expense)), Amount);
    MonthTotalIsSum(txs, current, Income);
    MonthTotalIsSum(txs, current, Expense);
    var trend := Trend(txs, Last12Months(current));
    var breakdown := ByCategory(categories, txs, current);
    BreakdownSummary(categories, txs, current);
    DashboardData(Sum(accounts, CurrentBalance), income, expenses, income - expenses, breakdown, trend)
  }

  /** `BreakdownNames` and `BreakdownAmounts` for every name at once. */
  lemma BreakdownSummary(categories: seq<Category>, txs: seq<Transaction>, m: YearMonth)
    ensures DistinctNames(ByCategory(categories, txs, m))
    ensures forall n :: HasName(ByCategory(categories, txs, m), n) <==>
              exists i :: 0 <= i < |txs| && ChartedAs(m, CategoryIndex(categories), n, txs[i])
    ensures forall n :: AmountOf(ByCategory(categories, txs, m), n) == SumWhere(txs, ChartedUnder(m, CategoryIndex(categories), n), Amount)
  {
    BreakdownNames(categories, txs, m, "");
    forall n
      ensures HasName(ByCategory(categories, txs, m), n) <==>
              exists i :: 0 <= i < |txs| && ChartedAs(m, CategoryIndex(categories), n, txs[i])
      ensures AmountOf(ByCategory(categories, txs, m), n) == SumWhere(txs, ChartedUnder(m, CategoryIndex(categories), n), Amount)
    {
      BreakdownNames(categories, txs, m, n);
      BreakdownAmounts(categories, txs, m, n);
    }
  }

  /** A transfer between two listed accounts (ids unique) leaves the
      dashboard's total balance where it was once balances are recomputed. */
  lemma TransferKeepsTotalBalance(accounts: seq<Account>, categories: seq<Category>, txs: seq<Transaction>,
                                  t: Transaction, current: YearMonth)
    requires UniqueBy(accounts, AccountId)
    requires t.kind == Transfer && t.toAccountId.Some?
    requires exists i :: 0 <= i < |accounts| && accounts[i].id == t.accountId
    requires exists i :: 0 <= i < |accounts| && accounts[i].id == t.toAccountId.value
    ensures Summarize(Balances.RecomputeBalances(accounts, txs + [t]), categories, txs + [t], current).totalBalance ==
            Summarize(Balances.RecomputeBalances(accounts, txs), categories, txs, current).totalBalance
  {
    Balances.TransferConservesTotal(accounts, txs, t);
  }

  /** Per-category breakdown: one entry per category name, an entry for
      exactly the names of the month's charted expenses, each holding the
      sum of the amounts charted under its name. */
  lemma BreakdownNames(categories: seq<Category>, txs: seq<Transaction>, m: YearMonth, n: string)
    ensures DistinctNames(ByCategory(categories, txs, m))
    ensures HasName(ByCategory(categories, txs, m), n) <==>
            exists i :: 0 <= i < |txs| && ChartedAs(m, CategoryIndex(categories), n, txs[i])
  {
    var index := CategoryIndex(categories);
    var input := Filter(Filter(txs, WithinMonth(m)), CategorisedExpense());
    GroupNames([], input, index, n);
    GroupDistinct([], input, index);
    if FiledSomewhere(index, input, n) {
      var i :| 0 <= i < |input| && IsFiledUnder(index, n, input[i]);
      var l := ChartedIfGrouped(txs, m, index, n, input[i]);
    }
    if exists i :: 0 <= i < |txs| && ChartedAs(m, index, n, txs[i]) {
      var i :| 0 <= i < |txs| && ChartedAs(m, index, n, txs[i]);
      GroupedIfCharted(txs, m, index, n, i);
    }
  }

  lemma ChartedIfGrouped(txs: seq<Transaction>, m: YearMonth, index: map<Id, Category>, n: string, t: Transaction)
    returns (l: nat)
    requires t in Filter(Filter(txs, WithinMonth(m)), CategorisedExpense())
    requires IsFiledUnder(index, n, t)
    ensures l < |txs| && ChartedAs(m, index, n, txs[l])
  {
    var w, c := WithinMonth(m), CategorisedExpense();
    var monthTxs := Filter(txs, w);
    FilterMember(monthTxs, c, t);
    FilterMember(txs, w, t);
    l :| 0 <= l < |txs| && txs[l] == t;
  }

  lemma GroupedIfCharted(txs: seq<Transaction>, m: YearMonth, index: map<Id, Category>, n: string, i: nat)
    requires i < |txs| && ChartedAs(m, index, n, txs[i])
    ensures FiledSomewhere(index, Filter(Filter(txs, WithinMonth(m)), CategorisedExpense()), n)
  {
    var w, c := WithinMonth(m), CategorisedExpense();
    var monthTxs := Filter(txs, w);
    var input := Filter(monthTxs, c);
    assert w(txs[i]);
    assert txs[i] in monthTxs;
    var j :| 0 <= j < |monthTxs| && monthTxs[j] == txs[i];
    assert c(monthTxs[j]);
    assert txs[i] in input;
    var k :| 0 <= k < |input| && input[k] == txs[i];
    assert IsFiledUnder(index, n, input[k]);
  }

  lemma BreakdownAmounts(categories: seq<Category>, txs: seq<Transaction>, m: YearMonth, n: string)
    ensures AmountOf(ByCategory(categories, txs, m), n) == SumWhere(txs, ChartedUnder(m, CategoryIndex(categories), n), Amount)
  {
    var index := CategoryIndex(categories);
    var w, c := WithinMonth(m), CategorisedExpense();
    var monthTxs := Filter(txs, w);
    var input := Filter(monthTxs, c);
    GroupAmounts([], input, index, n);
    SumWhereOfFilter(monthTxs, c, FiledUnder(index, n), ChartableUnder(index, n), Amount);
    SumWhereOfFilter(txs, w, ChartableUnder(index, n), ChartedUnder(m, index, n), Amount);
  }

  /** With non-negative amounts, the breakdown's entries add up to at most
      the month's expenses: uncategorised expenses and expenses whose
      category is unknown are left out. */
  lemma BreakdownWithinExpenses(accounts: seq<Account>, categories: seq<Category>, txs: seq<Transaction>, m: YearMonth)
    requires forall i :: 0 <= i < |txs| ==> txs[i].amount >= 0.0
    ensures Sum(Summarize(accounts, categories, txs, m).expensesByCategory, SliceAmount) <=
            Summarize(accounts, categories, txs, m).monthlyExpenses
  {
    var index := CategoryIndex(categories);
    var w, c := WithinMonth(m), CategorisedExpense();
    var monthTxs := Filter(txs, w);
    var input := Filter(monthTxs, c);
    GroupAmounts([], input, index, "");
    SumWhereOfFilter(monthTxs, c, FiledIn(index), ChartableIn(index), Amount);
    SumWhereOfFilter(txs, w, ChartableIn(index), ChartedIn(m, index), Amount);
    SumWhereMonotone(txs, ChartedIn(m, index), KindInMonth(m, Expense), Amount);
  }

  /** A transfer changes none of the month's income, expense, net or
      breakdown figures. */
  lemma TransfersIgnored(accounts: seq<Account>, categories: seq<Category>, txs: seq<Transaction>, m: YearMonth, t: Transaction)
    requires t.kind == Transfer
    ensures var before, after := Summarize(accounts, categories, txs, m), Summarize(accounts, categories, txs + [t], m);
            after.monthlyIncome == before.monthlyIncome && after.monthlyExpenses == before.monthlyExpenses
            && after.monthlyNet == before.monthlyNet && after.expensesByCategory == before.expensesByCategory
  {
    SumWhereAppend(txs, [t], KindInMonth(m, Income), Amount);
    SumWhereAppend(txs, [t], KindInMonth(m, Expense), Amount);
    SumWhereSingleton(t, KindInMonth(m, Income), Amount);
    SumWhereSingleton(t, KindInMonth(m, Expense), Amount);
    TransferNotCharted(categories, txs, m, t);
  }

  lemma TransferNotCharted(categories: seq<Category>, txs: seq<Transaction>, m: YearMonth, t: Transaction)
    requires t.kind == Transfer
    ensures ByCategory(categories, txs + [t], m) == ByCategory(categories, txs, m)
  {
    var w, c := WithinMonth(m), CategorisedExpense();
    FilterSnoc(txs, t, w);
    FilterSnoc(Filter(txs, w), t, c);
  }

  lemma {:induction false} GroupSnoc(acc: seq<Slice>, txs: seq<Transaction>, t: Transaction, index: map<Id, Category>)
    ensures Group(acc, txs + [t], index) == Step(Group(acc, txs, index), t, index)
    decreases |txs|
  {
    if txs == [] {
      assert txs + [t] == [t];
      assert [t][1..] == [];
    } else {
      assert (txs + [t])[1..] == txs[1..] + [t];
      GroupSnoc(Step(acc, txs[0], index), txs[1..], t, index);
    }
  }

  /** An uncategorised expense, or one whose category is not known, is left
      out of the breakdown. */
  lemma UnfiledExpenseDropped(categories: seq<Category>, txs: seq<Transaction>, m: YearMonth, t: Transaction)
    requires !Present(t.categoryId) || t.categoryId.value !in CategoryIndex(categories)
    ensures ByCategory(categories, txs + [t], m) == ByCategory(categories, txs, m)
  {
    var w, c := WithinMonth(m), CategorisedExpense();
    FilterSnoc(txs, t, w);
    FilterSnoc(Filter(txs, w), t, c);
    GroupSnoc([], Filter(Filter(txs, w), c), t, CategoryIndex(categories));
  }
}
