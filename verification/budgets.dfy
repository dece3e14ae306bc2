/** The budget engine: each budget's `spent` is the sum of the expenses that
    fall in its month, restricted to its category unless it is a global
    budget. Recomputed from scratch over the whole transaction list. */
module Budgets {
  import opened Types
  import opened Calendar
  import opened Collections

  /** The half-open window of a budget month: from its first instant up to,
      but excluding, the first instant of the next month. */
  predicate InMonth(m: YearMonth, t: Instant) {
    MonthStart(m) <= t < NextMonthStart(m)
  }

  /** Whether `t` counts toward `b`, checked in the order the source checks
      it: the type, then the month window, then the category (skipped for a
      budget without a category). */
  predicate CountsToward(b: Budget, t: Transaction) {
    if t.kind != Expense then false
    else if t.date < MonthStart(b.month) || t.date >= NextMonthStart(b.month) then false
    else if Present(b.categoryId) && t.categoryId != b.categoryId then false
    else true
  }

  /** What `t` adds to `b`'s spent amount. */
  function Contribution(b: Budget, t: Transaction): real {
    if CountsToward(b, t) then t.amount else 0.0
  }

  /** The source's `reduce` over the transactions, from a running sum. */
  function Accumulate(sum: real, b: Budget, txs: seq<Transaction>): real
    decreases |txs|
  {
    if txs == [] then sum else Accumulate(sum + Contribution(b, txs[0]), b, txs[1..])
  }

  function ExpensesIn(m: YearMonth): Transaction -> bool {
    (t: Transaction) => t.kind == Expense && InMonth(m, t.date)
  }

  function ExpensesInCategory(m: YearMonth, c: Option<Id>): Transaction -> bool {
    (t: Transaction) => t.kind == Expense && InMonth(m, t.date) && t.categoryId == c
  }

  /** What a budget has spent: every expense of its month for a global
      budget, the expenses of its month in its category otherwise. */
  function ExpectedSpent(b: Budget, txs: seq<Transaction>): real {
    if Present(b.categoryId) then SumWhere(txs, ExpensesInCategory(b.month, b.categoryId), Amount)
    else SumWhere(txs, ExpensesIn(b.month), Amount)
  }

  function CountsFor(b: Budget): Transaction -> bool {
    (t: Transaction) => CountsToward(b, t)
  }

  lemma {:induction false} AccumulateIsSum(sum: real, b: Budget, txs: seq<Transaction>)
    ensures Accumulate(sum, b, txs) == sum + SumWhere(txs, CountsFor(b), Amount)
    decreases |txs|
  {
    if txs != [] {
      AccumulateIsSum(sum + Contribution(b, txs[0]), b, txs[1..]);
    }
  }

  lemma SpentMatchesExpectation(b: Budget, txs: seq<Transaction>)
    ensures Accumulate(0.0, b, txs) == ExpectedSpent(b, txs)
  {
    AccumulateIsSum(0.0, b, txs);
    if Present(b.categoryId) {
      SumWhereCongruent(txs, CountsFor(b), ExpensesInCategory(b.month, b.categoryId), Amount);
    } else {
      SumWhereCongruent(txs, CountsFor(b), ExpensesIn(b.month), Amount);
    }
  }

  /** `calculateBudgetsSpent`: the same budgets in the same order, only
      `spent` recomputed (the allocated `amount` and the incoming `spent`
      play no part). */
  function CalculateBudgetsSpent(txs: seq<Transaction>, budgets: seq<Budget>): (r: seq<Budget>)
    ensures |r| == |budgets|
    ensures forall i :: 0 <= i < |r| ==> r[i] == budgets[i].(spent := ExpectedSpent(budgets[i], txs))
  {
    var r := seq(|budgets|, i requires 0 <= i < |budgets| =>
                  budgets[i].(spent := Accumulate(0.0, budgets[i], txs)));
    assert forall i :: 0 <= i < |r| ==> r[i] == budgets[i].(spent := ExpectedSpent(budgets[i], txs)) by {
      forall i | 0 <= i < |r|
        ensures r[i] == budgets[i].(spent := ExpectedSpent(budgets[i], txs))
      {
        SpentMatchesExpectation(budgets[i], txs);
      }
    }
    r
  }

  /** The result ignores the incoming `spent`: recomputing twice is
      recomputing once. */
  lemma RecomputeSpentIdempotent(txs: seq<Transaction>, budgets: seq<Budget>)
    ensures CalculateBudgetsSpent(txs, CalculateBudgetsSpent(txs, budgets)) == CalculateBudgetsSpent(txs, budgets)
  {
    var r := CalculateBudgetsSpent(txs, budgets);
    var rr := CalculateBudgetsSpent(txs, r);
    assert forall i :: 0 <= i < |r| ==> rr[i] == r[i];
  }

  /** Income and transfers never change what a budget has spent, wherever
      they sit in the list. */
  lemma NonExpenseIgnored(xs: seq<Transaction>, t: Transaction, ys: seq<Transaction>, budgets: seq<Budget>)
    requires t.kind != Expense
    ensures CalculateBudgetsSpent(xs + [t] + ys, budgets) == CalculateBudgetsSpent(xs + ys, budgets)
  {
    var r1 := CalculateBudgetsSpent(xs + [t] + ys, budgets);
    var r2 := CalculateBudgetsSpent(xs + ys, budgets);
    forall i | 0 <= i < |budgets|
      ensures r1[i] == r2[i]
    {
      var b := budgets[i];
      var p := if Present(b.categoryId) then ExpensesInCategory(b.month, b.categoryId) else ExpensesIn(b.month);
      SumWhereAppend(xs + [t], ys, p, Amount);
      SumWhereAppend(xs, [t], p, Amount);
      SumWhereAppend(xs, ys, p, Amount);
      assert [t][1..] == [];
    }
  }

  /** The month window is half-open: an expense at the first instant of the
      budget's month counts in full, one at the first instant of the next
      month does not count. */
  lemma MonthWindowHalfOpen(b: Budget, t: Transaction)
    requires t.kind == Expense
    requires !Present(b.categoryId) || t.categoryId == b.categoryId
    ensures t.date == MonthStart(b.month) ==> CalculateBudgetsSpent([t], [b])[0].spent == t.amount
    ensures t.date == NextMonthStart(b.month) ==> CalculateBudgetsSpent([t], [b])[0].spent == 0.0
  {
    MonthLength(b.month);
    SumWhereSingleton(t, ExpensesInCategory(b.month, b.categoryId), Amount);
    SumWhereSingleton(t, ExpensesIn(b.month), Amount);
  }

  /** A budget with a category counts only that category; a global budget
      counts every expense of its month, uncategorized ones included. */
  lemma CategoryScope(b: Budget, t: Transaction)
    requires t.kind == Expense && InMonth(b.month, t.date)
    ensures Present(b.categoryId) && t.categoryId == b.categoryId ==>
              CalculateBudgetsSpent([t], [b])[0].spent == t.amount
    ensures Present(b.categoryId) && t.categoryId != b.categoryId ==>
              CalculateBudgetsSpent([t], [b])[0].spent == 0.0
    ensures !Present(b.categoryId) ==> CalculateBudgetsSpent([t], [b])[0].spent == t.amount
  {
    SumWhereSingleton(t, ExpensesInCategory(b.month, b.categoryId), Amount);
    SumWhereSingleton(t, ExpensesIn(b.month), Amount);
  }

  /** Deleting a transaction takes back exactly what it contributed. */
  lemma RemovalSubtractsContribution(b: Budget, txs: seq<Transaction>, i: nat)
    requires i < |txs|
    ensures ExpectedSpent(b, txs[..i] + txs[i + 1..]) == ExpectedSpent(b, txs) - Contribution(b, txs[i])
  {
    var p := if Present(b.categoryId) then ExpensesInCategory(b.month, b.categoryId) else ExpensesIn(b.month);
    assert txs == txs[..i] + [txs[i]] + txs[i + 1..];
    SumWhereAppend(txs[..i] + [txs[i]], txs[i + 1..], p, Amount);
    SumWhereAppend(txs[..i], [txs[i]], p, Amount);
    SumWhereAppend(txs[..i], txs[i + 1..], p, Amount);
    assert [txs[i]][1..] == [];
  }

  /** The instant `day - 1` days after the start of month `m`. */
  function DayOf(m: YearMonth, day: nat): Instant {
    MonthStart(m) + (day - 1) * MsPerDay
  }

  function SampleTransaction(id: Id, date: Instant, kind: TxKind, categoryId: Option<Id>, amount: real): Transaction {
    Transaction(id, "u", date, "a", None, kind, categoryId, amount, "", [], None, 0, 0)
  }

  function SampleBudget(id: Id, month: YearMonth, categoryId: Option<Id>, amount: real): Budget {
    Budget(id, "u", month, categoryId, amount, 0.0, 0, 0)
  }

  /** The unit-test scenario: expenses of 50 in c1 and 30 in c2 and an
      income of 200 in August 2025 give 50 to the c1 budget and 80 to the
      global one. */
  lemma SpentExample()
    ensures
      var aug := YearMonth(2025, 8);
      var txs := [SampleTransaction("t1", DayOf(aug, 5), Expense, Some("c1"), 50.0),
                  SampleTransaction("t2", DayOf(aug, 10), Expense, Some("c2"), 30.0),
                  SampleTransaction("t3", DayOf(aug, 12), Income, None, 200.0)];
      var r := CalculateBudgetsSpent(txs, [SampleBudget("b1", aug, Some("c1"), 100.0),
                                           SampleBudget("b2", aug, None, 500.0)]);
      r[0].spent == 50.0 && r[1].spent == 80.0
  {
    var aug := YearMonth(2025, 8);
    MonthLength(aug);
    var t1 := SampleTransaction("t1", DayOf(aug, 5), Expense, Some("c1"), 50.0);
    var t2 := SampleTransaction("t2", DayOf(aug, 10), Expense, Some("c2"), 30.0);
    var t3 := SampleTransaction("t3", DayOf(aug, 12), Income, None, 200.0);
    var txs := [t1, t2, t3];
    assert txs[1..] == [t2, t3] && txs[1..][1..] == [t3] && [t3][1..] == [];
    var c1 := ExpensesInCategory(aug, Some("c1"));
    assert InMonth(aug, t1.date) && InMonth(aug, t2.date);
    assert c1(t1) && !c1(t2) && !c1(t3);
    assert SumWhere([t3], c1, Amount) == 0.0;
    assert SumWhere([t2, t3], c1, Amount) == 0.0;
    assert SumWhere(txs, c1, Amount) == 50.0;
    var all := ExpensesIn(aug);
    assert all(t1) && all(t2) && !all(t3);
    assert SumWhere([t3], all, Amount) == 0.0;
    assert SumWhere([t2, t3], all, Amount) == 30.0;
    assert SumWhere(txs, all, Amount) == 80.0;
  }

  /** The persistence scenario: two expenses of 40 and 20 in the budget's
      category give 60, and deleting the 20 leaves 40. */
  lemma DeleteExample()
    ensures
      var aug := YearMonth(2025, 8);
      var tx1 := SampleTransaction("t2", DayOf(aug, 10), Expense, Some("cat2"), 40.0);
      var tx2 := SampleTransaction("t3", DayOf(aug, 12), Expense, Some("cat2"), 20.0);
      var b := SampleBudget("b2", aug, Some("cat2"), 100.0);
      && CalculateBudgetsSpent([tx1, tx2], [b])[0].spent == 60.0
      && CalculateBudgetsSpent([tx1], [b])[0].spent == 40.0
  {
    var aug := YearMonth(2025, 8);
    MonthLength(aug);
    var tx1 := SampleTransaction("t2", DayOf(aug, 10), Expense, Some("cat2"), 40.0);
    var tx2 := SampleTransaction("t3", DayOf(aug, 12), Expense, Some("cat2"), 20.0);
    var b := SampleBudget("b2", aug, Some("cat2"), 100.0);
    var p := ExpensesInCategory(aug, Some("cat2"));
    assert [tx1, tx2][1..] == [tx2] && [tx2][1..] == [] && [tx1][1..] == [];
    assert InMonth(aug, tx1.date) && InMonth(aug, tx2.date);
    assert p(tx1) && p(tx2);
    assert SumWhere([tx2], p, Amount) == 20.0;
    assert SumWhere([tx1, tx2], p, Amount) == 60.0;
    RemovalSubtractsContribution(b, [tx1, tx2], 1);
    assert [tx1, tx2][..1] + [tx1, tx2][2..] == [tx1];
  }
}
