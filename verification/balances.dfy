/** The balance engine: every account's `currentBalance` is derived from its
    `openingBalance` and the signed effect of every transaction on it. It is
    recomputed from scratch over the whole transaction list, never patched
    incrementally. */
module Balances {
  import opened Types
  import opened Collections

  /** Whether `t` involves account `id` at all, as source or destination. */
  predicate Touches(t: Transaction, id: Id) {
    t.accountId == id || t.toAccountId == Some(id)
  }

  function TouchesAccount(id: Id): Transaction -> bool {
    (t: Transaction) => Touches(t, id)
  }

  /** The signed change `t` makes to account `id`: income adds at the
      source, expenses and transfers subtract at the source, and a transfer
      adds at its destination. */
  function Effect(t: Transaction, id: Id): real {
    var outflow :=
      if t.accountId != id then 0.0
      else match t.kind
        case Income => t.amount
        case Expense => -t.amount
        case Transfer => -t.amount;
    var inflow := if t.toAccountId == Some(id) && t.kind == Transfer then t.amount else 0.0;
    outflow + inflow
  }

  function EffectOn(id: Id): Transaction -> real {
    (t: Transaction) => Effect(t, id)
  }

  /** The running balance of the source's `forEach`: each transaction's
      effect is applied in list order. */
  function Settle(balance: real, txs: seq<Transaction>, id: Id): real
    decreases |txs|
  {
    if txs == [] then balance else Settle(balance + Effect(txs[0], id), txs[1..], id)
  }

  /** One account's balance as the source computes it: the transactions that
      touch the account, settled from the opening balance. */
  function AccountBalance(a: Account, txs: seq<Transaction>): real {
    Settle(a.openingBalance, Filter(txs, TouchesAccount(a.id)), a.id)
  }

  function IncomeInto(id: Id): Transaction -> bool {
    (t: Transaction) => t.kind == Income && t.accountId == id
  }

  function ExpenseFrom(id: Id): Transaction -> bool {
    (t: Transaction) => t.kind == Expense && t.accountId == id
  }

  function TransferFrom(id: Id): Transaction -> bool {
    (t: Transaction) => t.kind == Transfer && t.accountId == id
  }

  function TransferTo(id: Id): Transaction -> bool {
    (t: Transaction) => t.kind == Transfer && t.toAccountId == Some(id)
  }

  /** The balance invariant: opening balance, plus income, minus expenses,
      minus outgoing transfers, plus incoming transfers. */
  function ExpectedBalance(a: Account, txs: seq<Transaction>): real {
    a.openingBalance
      + SumWhere(txs, IncomeInto(a.id), Amount)
      - SumWhere(txs, ExpenseFrom(a.id), Amount)
      - SumWhere(txs, TransferFrom(a.id), Amount)
      + SumWhere(txs, TransferTo(a.id), Amount)
  }

  lemma {:induction false} SettleIsSum(balance: real, txs: seq<Transaction>, id: Id)
    ensures Settle(balance, txs, id) == balance + Sum(txs, EffectOn(id))
    decreases |txs|
  {
    if txs != [] {
      SettleIsSum(balance + Effect(txs[0], id), txs[1..], id);
    }
  }

  /** Transactions that do not touch an account have no effect on it, so the
      source's pre-filter changes nothing. */
  lemma {:induction false} UntouchedHaveNoEffect(txs: seq<Transaction>, id: Id)
    ensures Sum(Filter(txs, TouchesAccount(id)), EffectOn(id)) == Sum(txs, EffectOn(id))
    decreases |txs|
  {
    if txs != [] {
      UntouchedHaveNoEffect(txs[1..], id);
      var rest := Filter(txs[1..], TouchesAccount(id));
      if Touches(txs[0], id) {
        assert ([txs[0]] + rest)[1..] == rest;
      }
    }
  }

  lemma {:induction false} EffectSplits(txs: seq<Transaction>, id: Id)
    ensures Sum(txs, EffectOn(id)) ==
            SumWhere(txs, IncomeInto(id), Amount) - SumWhere(txs, ExpenseFrom(id), Amount)
            - SumWhere(txs, TransferFrom(id), Amount) + SumWhere(txs, TransferTo(id), Amount)
    decreases |txs|
  {
    if txs != [] {
      EffectSplits(txs[1..], id);
    }
  }

  /** The source's filter-and-accumulate loop computes the balance
      invariant. */
  lemma BalanceInvariant(a: Account, txs: seq<Transaction>)
    ensures AccountBalance(a, txs) == ExpectedBalance(a, txs)
  {
    SettleIsSum(a.openingBalance, Filter(txs, TouchesAccount(a.id)), a.id);
    UntouchedHaveNoEffect(txs, a.id);
    EffectSplits(txs, a.id);
  }

  /** An account no transaction touches keeps its opening balance. */
  lemma UntouchedKeepsOpening(a: Account, txs: seq<Transaction>)
    requires forall i :: 0 <= i < |txs| ==> !Touches(txs[i], a.id)
    ensures ExpectedBalance(a, txs) == a.openingBalance
  {
    SumWhereNone(txs, IncomeInto(a.id), Amount);
    SumWhereNone(txs, ExpenseFrom(a.id), Amount);
    SumWhereNone(txs, TransferFrom(a.id), Amount);
    SumWhereNone(txs, TransferTo(a.id), Amount);
  }

  /** `calculateAccountBalances`: same accounts in the same order, each
      with its balance recomputed to the balance invariant and every other
      field (the old `currentBalance` included) ignored. */
  function RecomputeBalances(accounts: seq<Account>, txs: seq<Transaction>): (r: seq<Account>)
    ensures |r| == |accounts|
    ensures forall i :: 0 <= i < |r| ==>
              r[i] == accounts[i].(currentBalance := ExpectedBalance(accounts[i], txs))
  {
    var r := seq(|accounts|, i requires 0 <= i < |accounts| =>
                  accounts[i].(currentBalance := AccountBalance(accounts[i], txs)));
    assert forall i :: 0 <= i < |r| ==>
             r[i] == accounts[i].(currentBalance := ExpectedBalance(accounts[i], txs)) by {
      forall i | 0 <= i < |r|
        ensures r[i] == accounts[i].(currentBalance := ExpectedBalance(accounts[i], txs))
      {
        BalanceInvariant(accounts[i], txs);
      }
    }
    r
  }

  /** Every account satisfies the balance invariant. */
  ghost predicate Balanced(accounts: seq<Account>, txs: seq<Transaction>) {
    forall i :: 0 <= i < |accounts| ==> accounts[i].currentBalance == ExpectedBalance(accounts[i], txs)
  }

  /** Recomputing is idempotent, and it is the identity exactly on lists that
      already satisfy the invariant. */
  lemma RecomputeIdempotent(accounts: seq<Account>, txs: seq<Transaction>)
    ensures RecomputeBalances(RecomputeBalances(accounts, txs), txs) == RecomputeBalances(accounts, txs)
    ensures Balanced(RecomputeBalances(accounts, txs), txs)
    ensures RecomputeBalances(accounts, txs) == accounts <==> Balanced(accounts, txs)
  {
    var r := RecomputeBalances(accounts, txs);
    var rr := RecomputeBalances(r, txs);
    assert forall i :: 0 <= i < |r| ==> rr[i] == r[i];
    if Balanced(accounts, txs) {
      assert forall i :: 0 <= i < |r| ==> r[i] == accounts[i];
    }
  }

  /** A transfer from an account to itself leaves its balance unchanged. */
  lemma SelfTransferNetsZero(a: Account, txs: seq<Transaction>, t: Transaction)
    requires t.kind == Transfer && t.accountId == a.id && t.toAccountId == Some(a.id)
    ensures AccountBalance(a, txs + [t]) == AccountBalance(a, txs)
  {
    BalanceInvariant(a, txs + [t]);
    BalanceInvariant(a, txs);
    SumWhereAppend(txs, [t], IncomeInto(a.id), Amount);
    SumWhereAppend(txs, [t], ExpenseFrom(a.id), Amount);
    SumWhereAppend(txs, [t], TransferFrom(a.id), Amount);
    SumWhereAppend(txs, [t], TransferTo(a.id), Amount);
  }

  /** Appending one transaction moves each expected balance by exactly that
      transaction's effect. */
  lemma AppendEffect(a: Account, txs: seq<Transaction>, t: Transaction)
    ensures ExpectedBalance(a, txs + [t]) == ExpectedBalance(a, txs) + Effect(t, a.id)
  {
    SumWhereAppend(txs, [t], IncomeInto(a.id), Amount);
    SumWhereAppend(txs, [t], ExpenseFrom(a.id), Amount);
    SumWhereAppend(txs, [t], TransferFrom(a.id), Amount);
    SumWhereAppend(txs, [t], TransferTo(a.id), Amount);
  }

  function BalanceAfter(txs: seq<Transaction>): Account -> real {
    (a: Account) => ExpectedBalance(a, txs)
  }

  function EffectOfOn(t: Transaction): Account -> real {
    (a: Account) => Effect(t, a.id)
  }

  /** `w` on the accounts with id `id`, zero elsewhere. */
  function WeightOn(id: Id, w: real): Account -> real {
    (a: Account) => if a.id == id then w else 0.0
  }

  lemma {:induction false} SumCorresponding<A, B>(xs: seq<A>, ys: seq<B>, f: A -> real, g: B -> real)
    requires |xs| == |ys|
    requires forall i :: 0 <= i < |xs| ==> f(xs[i]) == g(ys[i])
    ensures Sum(xs, f) == Sum(ys, g)
    decreases |xs|
  {
    if xs != [] {
      SumCorresponding(xs[1..], ys[1..], f, g);
    }
  }

  lemma {:induction false} TotalAfterAppend(accounts: seq<Account>, txs: seq<Transaction>, t: Transaction)
    ensures Sum(accounts, BalanceAfter(txs + [t])) == Sum(accounts, BalanceAfter(txs)) + Sum(accounts, EffectOfOn(t))
    decreases |accounts|
  {
    if accounts != [] {
      AppendEffect(accounts[0], txs, t);
      TotalAfterAppend(accounts[1..], txs, t);
    }
  }

  /** A transfer's effects over a list of accounts: its amount arrives at
      every listed destination and leaves every listed source. */
  lemma {:induction false} TransferEffectTotal(accounts: seq<Account>, t: Transaction)
    requires t.kind == Transfer && t.toAccountId.Some?
    ensures Sum(accounts, EffectOfOn(t)) ==
            Sum(accounts, WeightOn(t.toAccountId.value, t.amount)) - Sum(accounts, WeightOn(t.accountId, t.amount))
    decreases |accounts|
  {
    if accounts != [] {
      TransferEffectTotal(accounts[1..], t);
    }
  }

  lemma {:induction false} AbsentIdWeighsZero(accounts: seq<Account>, id: Id, w: real)
    requires forall i :: 0 <= i < |accounts| ==> accounts[i].id != id
    ensures Sum(accounts, WeightOn(id, w)) == 0.0
    decreases |accounts|
  {
    if accounts != [] {
      AbsentIdWeighsZero(accounts[1..], id, w);
    }
  }

  lemma {:induction false} UniqueIdWeighsOnce(accounts: seq<Account>, id: Id, w: real)
    requires UniqueBy(accounts, AccountId)
    requires exists i :: 0 <= i < |accounts| && accounts[i].id == id
    ensures Sum(accounts, WeightOn(id, w)) == w
    decreases |accounts|
  {
    if accounts[0].id == id {
      assert forall i :: 1 <= i < |accounts| ==> AccountId(accounts[0]) != AccountId(accounts[i]);
      AbsentIdWeighsZero(accounts[1..], id, w);
    } else {
      var i :| 0 <= i < |accounts| && accounts[i].id == id;
      assert accounts[1..][i - 1] == accounts[i];
      UniqueIdWeighsOnce(accounts[1..], id, w);
    }
  }

  /** The total of the recomputed balances is the total of the expected
      ones. */
  lemma TotalOfRecomputed(accounts: seq<Account>, txs: seq<Transaction>)
    ensures Sum(RecomputeBalances(accounts, txs), CurrentBalance) == Sum(accounts, BalanceAfter(txs))
  {
    SumCorresponding(RecomputeBalances(accounts, txs), accounts, CurrentBalance, BalanceAfter(txs));
  }

  /** Money moved between two accounts of the list is conserved: a transfer
      whose source and destination are both listed (ids unique) leaves the
      total of the recomputed balances unchanged. */
  lemma TransferConservesTotal(accounts: seq<Account>, txs: seq<Transaction>, t: Transaction)
    requires UniqueBy(accounts, AccountId)
    requires t.kind == Transfer && t.toAccountId.Some?
    requires exists i :: 0 <= i < |accounts| && accounts[i].id == t.accountId
    requires exists i :: 0 <= i < |accounts| && accounts[i].id == t.toAccountId.value
    ensures Sum(RecomputeBalances(accounts, txs + [t]), CurrentBalance) ==
            Sum(RecomputeBalances(accounts, txs), CurrentBalance)
  {
    TotalOfRecomputed(accounts, txs + [t]);
    TotalOfRecomputed(accounts, txs);
    TotalAfterAppend(accounts, txs, t);
    TransferEffectTotal(accounts, t);
    UniqueIdWeighsOnce(accounts, t.accountId, t.amount);
    UniqueIdWeighsOnce(accounts, t.toAccountId.value, t.amount);
    assert Sum(accounts, EffectOfOn(t)) == 0.0;
  }

  /** The worked example: opening balance 500000 and one expense of 30000
      give a balance of 470000. */
  lemma ExpenseExample(a: Account, t: Transaction)
    requires a.openingBalance == 500000.0
    requires t.kind == Expense && t.accountId == a.id && t.amount == 30000.0
    ensures RecomputeBalances([a], [t])[0].currentBalance == 470000.0
  {
    var r := RecomputeBalances([a], [t]);
    assert r[0].currentBalance == ExpectedBalance(a, [t]);
    assert [t][1..] == [];
    assert SumWhere([t], ExpenseFrom(a.id), Amount) == 30000.0;
    assert SumWhere([t], IncomeInto(a.id), Amount) == 0.0;
    assert SumWhere([t], TransferFrom(a.id), Amount) == 0.0;
    assert SumWhere([t], TransferTo(a.id), Amount) == 0.0;
  }
}
