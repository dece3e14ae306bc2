/** The filter engine: a stable selection over the transaction list by an
    AND of optional criteria. JavaScript truthiness decides which criteria
    are "set": an empty string, an empty tag list and a zero amount bound
    all count as absent. */
module TransactionFilter {
  import opened Calendar
  import opened Types
  import opened Collections

  /** `TransactionFilter`: every criterion optional. A date bound is already
      parsed; `None` stands for an absent or empty date string. */
  datatype Criteria = Criteria(
    dateFrom: Option<Instant>,
    dateTo: Option<Instant>,
    accountId: Option<Id>,
    categoryId: Option<Id>,
    kind: Option<TxKind>,
    tags: Option<seq<string>>,
    amountFrom: Option<real>,
    amountTo: Option<real>,
    search: Option<string>)

  const NoCriteria := Criteria(None, None, None, None, None, None, None, None, None)

  /** `toLowerCase` on the ASCII letters. */
  function LowerChar(c: char): char {
    if 'A' <= c <= 'Z' then (c as int + 32) as char else c
  }

  /** `toLowerCase`: no capital letter survives, each capital becomes its
      small letter, and every other character is kept in place. */
  function Lower(s: string): (r: string)
    ensures |r| == |s|
    ensures forall i :: 0 <= i < |r| ==> !('A' <= r[i] <= 'Z')
    ensures forall i :: 0 <= i < |s| && 'A' <= s[i] <= 'Z' ==> r[i] as int == s[i] as int + 32
    ensures forall i :: 0 <= i < |s| && !('A' <= s[i] <= 'Z') ==> r[i] == s[i]
  {
    seq(|s|, i requires 0 <= i < |s| => LowerChar(s[i]))
  }

  /** Lowering twice is lowering once. */
  lemma LowerIdempotent(s: string)
    ensures Lower(Lower(s)) == Lower(s)
  {
  }

  /** `s.includes(sub)`. */
  predicate Includes(s: string, sub: string) {
    exists i :: 0 <= i <= |s| && sub <= s[i..]
  }

  /** A number is truthy unless it is zero. */
  predicate NonZero(o: Option<real>) {
    o.Some? && o.value != 0.0
  }

  predicate SearchHits(term: string, t: Transaction) {
    Includes(Lower(t.note), term) || exists i :: 0 <= i < |t.tags| && Includes(Lower(t.tags[i]), term)
  }

  predicate SharesTag(wanted: seq<string>, t: Transaction) {
    exists i :: 0 <= i < |wanted| && wanted[i] in t.tags
  }

  /** The source's chain of early rejections, in its order. */
  predicate Accepts(f: Criteria, t: Transaction) {
    if (f.dateFrom.Some? || f.dateTo.Some?)
       && ((f.dateFrom.Some? && t.date < f.dateFrom.value) || (f.dateTo.Some? && t.date > f.dateTo.value)) then false
    else if Present(f.accountId) && t.accountId != f.accountId.value then false
    else if Present(f.categoryId) && t.categoryId != f.categoryId then false
    else if f.kind.Some? && t.kind != f.kind.value then false
    else if NonZero(f.amountFrom) && t.amount < f.amountFrom.value then false
    else if NonZero(f.amountTo) && t.amount > f.amountTo.value then false
    else if Present(f.search) && !SearchHits(Lower(f.search.value), t) then false
    else if f.tags.Some? && |f.tags.value| > 0 && !SharesTag(f.tags.value, t) then false
    else true
  }

  function AcceptedBy(f: Criteria): Transaction -> bool {
    (t: Transaction) => Accepts(f, t)
  }

  // One predicate per criterion; an absent criterion accepts everything.

  /** Both date bounds are inclusive. */
  predicate DateOk(f: Criteria, t: Transaction) {
    (f.dateFrom.Some? ==> f.dateFrom.value <= t.date) && (f.dateTo.Some? ==> t.date <= f.dateTo.value)
  }

  /** Only the source account is compared, never a transfer's destination. */
  predicate AccountOk(f: Criteria, t: Transaction) {
    Present(f.accountId) ==> t.accountId == f.accountId.value
  }

  predicate CategoryOk(f: Criteria, t: Transaction) {
    Present(f.categoryId) ==> t.categoryId == f.categoryId
  }

  predicate KindOk(f: Criteria, t: Transaction) {
    f.kind.Some? ==> t.kind == f.kind.value
  }

  /** Inclusive bounds; a bound of zero is no bound. */
  predicate AmountOk(f: Criteria, t: Transaction) {
    (NonZero(f.amountFrom) ==> f.amountFrom.value <= t.amount)
    && (NonZero(f.amountTo) ==> t.amount <= f.amountTo.value)
  }

  /** Case-insensitive substring of the note or of some tag. */
  predicate SearchOk(f: Criteria, t: Transaction) {
    Present(f.search) ==> SearchHits(Lower(f.search.value), t)
  }

  /** At least one wanted tag, matched exactly; no wanted tags is no test. */
  predicate TagsOk(f: Criteria, t: Transaction) {
    f.tags.Some? && |f.tags.value| > 0 ==> SharesTag(f.tags.value, t)
  }

  predicate MatchesAll(f: Criteria, t: Transaction) {
    DateOk(f, t) && AccountOk(f, t) && CategoryOk(f, t) && KindOk(f, t)
    && AmountOk(f, t) && SearchOk(f, t) && TagsOk(f, t)
  }

  /** The chain of early rejections accepts exactly the transactions that
      pass every criterion on its own. */
  lemma ChainIsConjunction(f: Criteria, t: Transaction)
    ensures Accepts(f, t) <==> MatchesAll(f, t)
  {
  }

  /** `getFilteredTransactions`: the transactions meeting every set
      criterion, in their original order. */
  function FilterTransactions(txs: seq<Transaction>, f: Criteria): (r: seq<Transaction>)
    ensures IsSubsequence(r, txs)
    ensures forall i :: 0 <= i < |r| ==> r[i] in txs && MatchesAll(f, r[i])
    ensures forall i :: 0 <= i < |txs| && MatchesAll(f, txs[i]) ==> txs[i] in r
    ensures |r| == CountWhere(txs, AcceptedBy(f))
    ensures f == NoCriteria ==> r == txs
  {
    assert forall t :: AcceptedBy(f)(t) <==> MatchesAll(f, t) by {
      forall t
        ensures AcceptedBy(f)(t) <==> MatchesAll(f, t)
      {
        ChainIsConjunction(f, t);
      }
    }
    if f == NoCriteria then
      FilterKeepsAll(txs, AcceptedBy(f));
      Filter(txs, AcceptedBy(f))
    else
      Filter(txs, AcceptedBy(f))
  }

  lemma SameVerdicts(txs: seq<Transaction>, f: Criteria, g: Criteria)
    requires forall t :: Accepts(f, t) == Accepts(g, t)
    ensures FilterTransactions(txs, f) == FilterTransactions(txs, g)
  {
    FilterCongruent(txs, AcceptedBy(f), AcceptedBy(g));
  }

  /** A zero amount bound is falsy and filters nothing, like an absent one. */
  lemma ZeroAmountBoundIgnored(txs: seq<Transaction>, f: Criteria)
    ensures FilterTransactions(txs, f.(amountFrom := Some(0.0))) == FilterTransactions(txs, f.(amountFrom := None))
    ensures FilterTransactions(txs, f.(amountTo := Some(0.0))) == FilterTransactions(txs, f.(amountTo := None))
  {
    SameVerdicts(txs, f.(amountFrom := Some(0.0)), f.(amountFrom := None));
    SameVerdicts(txs, f.(amountTo := Some(0.0)), f.(amountTo := None));
  }

  /** An empty search string and an empty tag list match everything. */
  lemma EmptySearchAndTagsIgnored(txs: seq<Transaction>, f: Criteria)
    ensures FilterTransactions(txs, f.(search := Some(""))) == FilterTransactions(txs, f.(search := None))
    ensures FilterTransactions(txs, f.(tags := Some([]))) == FilterTransactions(txs, f.(tags := None))
  {
    SameVerdicts(txs, f.(search := Some("")), f.(search := None));
    SameVerdicts(txs, f.(tags := Some([])), f.(tags := None));
  }

  /** Search terms that differ only in letter case select the same
      transactions. */
  lemma SearchIgnoresCase(txs: seq<Transaction>, f: Criteria, s1: string, s2: string)
    requires Lower(s1) == Lower(s2)
    ensures FilterTransactions(txs, f.(search := Some(s1))) == FilterTransactions(txs, f.(search := Some(s2)))
  {
    assert |s1| == |Lower(s1)| == |Lower(s2)| == |s2|;
    SameVerdicts(txs, f.(search := Some(s1)), f.(search := Some(s2)));
  }

  /** Filtering by account never selects a transfer into that account from
      elsewhere. */
  lemma AccountMatchesSourceOnly(txs: seq<Transaction>, f: Criteria, t: Transaction)
    requires Present(f.accountId)
    requires t.accountId != f.accountId.value
    ensures t !in FilterTransactions(txs, f)
  {
  }

  /** Both date bounds are inclusive: a transaction dated anywhere in the
      closed window, its end points included, is judged as if no date
      criterion were set. */
  lemma DateBoundsInclusive(f: Criteria, t: Transaction)
    requires f.dateFrom.Some? ==> f.dateFrom.value <= t.date
    requires f.dateTo.Some? ==> t.date <= f.dateTo.value
    ensures Accepts(f, t) <==> Accepts(f.(dateFrom := None, dateTo := None), t)
  {
  }
}
