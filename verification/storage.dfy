/** The persistence adapter: the browser's key/value local storage holding
    one user record, one session token, the theme, and four collections.
    The account, transaction and budget collections are shared by every
    local user and are written with merge-by-owner semantics; categories
    are global and written whole. Values are held decoded (JSON encoding is
    the identity here). */
module Storage {
  import opened Types
  import opened Collections

  /** One slot per storage key; `None` is a key that was never written or
      has been removed. */
  datatype Store = Store(
    user: Option<User>,
    token: Option<string>,
    accounts: Option<seq<Account>>,
    categories: Option<seq<Category>>,
    transactions: Option<seq<Transaction>>,
    budgets: Option<seq<Budget>>,
    theme: Option<Theme>)

  const EmptyStore := Store(None, None, None, None, None, None, None)

  /** `JSON.parse(getItem(key) || '[]')`: a missing collection reads empty. */
  function Stored<T>(slot: Option<seq<T>>): seq<T> {
    Or(slot, [])
  }

  function OwnerIs<T>(owner: T -> Id, u: Id): T -> bool {
    x => owner(x) == u
  }

  /** `xs.some(x => owner(x) === u)`. */
  predicate HasOwner<T>(xs: seq<T>, owner: T -> Id, u: Id) {
    exists i :: 0 <= i < |xs| && owner(xs[i]) == u
  }

  /** The records of `all` owned by `u`, in stored order. */
  function OwnedBy<T>(all: seq<T>, owner: T -> Id, u: Id): (r: seq<T>)
    ensures forall i :: 0 <= i < |r| ==> owner(r[i]) == u && r[i] in all
    ensures forall i :: 0 <= i < |all| && owner(all[i]) == u ==> all[i] in r
    ensures IsSubsequence(r, all)
    ensures |r| == CountWhere(all, OwnerIs(owner, u))
  {
    Filter(all, OwnerIs(owner, u))
  }

  /** Keeps a stored record only if no incoming record has its owner. */
  function OwnerNotIn<T>(incoming: seq<T>, owner: T -> Id): T -> bool {
    x => !HasOwner(incoming, owner, owner(x))
  }

  /** What reading owner `u` back gives after `incoming` was merged into
      `existing`: the incoming records when `incoming` mentions `u`, the
      stored ones otherwise. */
  function ViewAfterWrite<T>(existing: seq<T>, incoming: seq<T>, owner: T -> Id, u: Id): seq<T> {
    if HasOwner(incoming, owner, u) then OwnedBy(incoming, owner, u)
    else OwnedBy(existing, owner, u)
  }

  /** The merge-by-owner write: the stored records of owners that do not
      appear in `incoming`, in stored order, followed by `incoming`. */
  function MergeByOwner<T>(existing: seq<T>, incoming: seq<T>, owner: T -> Id): (r: seq<T>)
    ensures forall u :: OwnedBy(r, owner, u) == ViewAfterWrite(existing, incoming, owner, u)
    ensures incoming == [] ==> r == existing
  {
    MergeLaw(existing, incoming, owner);
    Filter(existing, OwnerNotIn(incoming, owner)) + incoming
  }

  /** Filtering twice is filtering by the conjunction. */
  lemma {:induction false} FilterTwice<T>(xs: seq<T>, p: T -> bool, q: T -> bool, pq: T -> bool)
    requires forall x :: pq(x) == (p(x) && q(x))
    ensures Filter(Filter(xs, p), q) == Filter(xs, pq)
    decreases |xs|
  {
    if xs != [] {
      FilterTwice(xs[1..], p, q, pq);
      if p(xs[0]) {
        assert ([xs[0]] + Filter(xs[1..], p))[1..] == Filter(xs[1..], p);
      }
    }
  }

  lemma FilterNone<T>(xs: seq<T>, p: T -> bool)
    requires forall i :: 0 <= i < |xs| ==> !p(xs[i])
    ensures Filter(xs, p) == []
  {
  }

  lemma MergeOwned<T>(existing: seq<T>, incoming: seq<T>, owner: T -> Id, u: Id)
    ensures OwnedBy(Filter(existing, OwnerNotIn(incoming, owner)) + incoming, owner, u) ==
            ViewAfterWrite(existing, incoming, owner, u)
  {
    var keep := OwnerNotIn(incoming, owner);
    var mine := OwnerIs(owner, u);
    var kept := Filter(existing, keep);
    FilterAppend(kept, incoming, mine);
    if HasOwner(incoming, owner, u) {
      FilterNone(kept, mine);
    } else {
      FilterNone(incoming, mine);
      var both := x => keep(x) && mine(x);
      FilterTwice(existing, keep, mine, both);
      FilterCongruent(existing, both, mine);
    }
  }

  lemma MergeLaw<T>(existing: seq<T>, incoming: seq<T>, owner: T -> Id)
    ensures forall u :: OwnedBy(Filter(existing, OwnerNotIn(incoming, owner)) + incoming, owner, u) ==
                        ViewAfterWrite(existing, incoming, owner, u)
    ensures incoming == [] ==> Filter(existing, OwnerNotIn(incoming, owner)) + incoming == existing
  {
    forall u {
      MergeOwned(existing, incoming, owner, u);
    }
    if incoming == [] {
      FilterKeepsAll(existing, OwnerNotIn(incoming, owner));
    }
  }

  /** Read after write: writing a non-empty list that belongs to one owner
      and reading that owner back gives exactly the list written. */
  lemma ReadAfterWrite<T>(existing: seq<T>, xs: seq<T>, owner: T -> Id, u: Id)
    requires xs != []
    requires forall i :: 0 <= i < |xs| ==> owner(xs[i]) == u
    ensures OwnedBy(MergeByOwner(existing, xs, owner), owner, u) == xs
  {
    assert owner(xs[0]) == u;
    FilterKeepsAll(xs, OwnerIs(owner, u));
  }

  /** Last writer wins per owner: a second write that covers every owner of
      the first erases every trace of the first. */
  lemma LastWriterWins<T>(existing: seq<T>, xs: seq<T>, ys: seq<T>, owner: T -> Id)
    requires forall i :: 0 <= i < |xs| ==> HasOwner(ys, owner, owner(xs[i]))
    ensures MergeByOwner(MergeByOwner(existing, xs, owner), ys, owner) == MergeByOwner(existing, ys, owner)
  {
    var nx, ny := OwnerNotIn(xs, owner), OwnerNotIn(ys, owner);
    var kept := Filter(existing, nx);
    assert MergeByOwner(existing, xs, owner) == kept + xs;
    assert MergeByOwner(kept + xs, ys, owner) == Filter(kept + xs, ny) + ys;
    FilterAppend(kept, xs, ny);
    FilterNone(xs, ny);
    assert Filter(kept + xs, ny) == Filter(kept, ny);
    SecondWriteSubsumes(existing, xs, ys, owner);
  }

  /** Keeping the owners absent from the first write and then from the
      second is keeping the owners absent from the second, when the second
      covers every owner of the first. */
  lemma SecondWriteSubsumes<T>(existing: seq<T>, xs: seq<T>, ys: seq<T>, owner: T -> Id)
    requires forall i :: 0 <= i < |xs| ==> HasOwner(ys, owner, owner(xs[i]))
    ensures Filter(Filter(existing, OwnerNotIn(xs, owner)), OwnerNotIn(ys, owner)) == Filter(existing, OwnerNotIn(ys, owner))
  {
    var nx, ny := OwnerNotIn(xs, owner), OwnerNotIn(ys, owner);
    var both := x => nx(x) && ny(x);
    FilterTwice(existing, nx, ny, both);
    forall i | 0 <= i < |existing|
      ensures both(existing[i]) == ny(existing[i])
    {
      NotInLaterNotInEarlier(xs, ys, owner, owner(existing[i]));
    }
    FilterCongruent(existing, both, ny);
  }

  lemma NotInLaterNotInEarlier<T>(xs: seq<T>, ys: seq<T>, owner: T -> Id, o: Id)
    requires forall i :: 0 <= i < |xs| ==> HasOwner(ys, owner, owner(xs[i]))
    ensures HasOwner(xs, owner, o) ==> HasOwner(ys, owner, o)
  {
    if HasOwner(xs, owner, o) {
      var j :| 0 <= j < |xs| && owner(xs[j]) == o;
      assert HasOwner(ys, owner, owner(xs[j]));
    }
  }

  function GetUser(s: Store): Option<User> { s.user }

  function SetUser(s: Store, u: User): (r: Store)
    ensures GetUser(r) == Some(u)
    ensures r.(user := s.user) == s
  {
    s.(user := Some(u))
  }

  function GetToken(s: Store): Option<string> { s.token }

  function SetToken(s: Store, t: string): (r: Store)
    ensures GetToken(r) == Some(t)
    ensures r.(token := s.token) == s
  {
    s.(token := Some(t))
  }

  function GetAccounts(s: Store, u: Id): seq<Account> {
    OwnedBy(Stored(s.accounts), AccountOwner, u)
  }

  /** Replaces the stored accounts of every owner that `xs` mentions; other
      owners' accounts are untouched, and an empty `xs` changes nothing. */
  function SetAccounts(s: Store, xs: seq<Account>): (r: Store)
    ensures forall u :: GetAccounts(r, u) == ViewAfterWrite(Stored(s.accounts), xs, AccountOwner, u)
    ensures xs == [] ==> Stored(r.accounts) == Stored(s.accounts)
    ensures r.(accounts := s.accounts) == s
  {
    s.(accounts := Some(MergeByOwner(Stored(s.accounts), xs, AccountOwner)))
  }

  function GetCategories(s: Store): seq<Category> {
    Stored(s.categories)
  }

  /** Categories are global: the whole collection is overwritten. */
  function SetCategories(s: Store, cs: seq<Category>): (r: Store)
    ensures GetCategories(r) == cs
    ensures r.(categories := s.categories) == s
  {
    s.(categories := Some(cs))
  }

  function GetTransactions(s: Store, u: Id): seq<Transaction> {
    OwnedBy(Stored(s.transactions), TransactionOwner, u)
  }

  function SetTransactions(s: Store, xs: seq<Transaction>): (r: Store)
    ensures forall u :: GetTransactions(r, u) == ViewAfterWrite(Stored(s.transactions), xs, TransactionOwner, u)
    ensures xs == [] ==> Stored(r.transactions) == Stored(s.transactions)
    ensures r.(transactions := s.transactions) == s
  {
    s.(transactions := Some(MergeByOwner(Stored(s.transactions), xs, TransactionOwner)))
  }

  function GetBudgets(s: Store, u: Id): seq<Budget> {
    OwnedBy(Stored(s.budgets), BudgetOwner, u)
  }

  function SetBudgets(s: Store, xs: seq<Budget>): (r: Store)
    ensures forall u :: GetBudgets(r, u) == ViewAfterWrite(Stored(s.budgets), xs, BudgetOwner, u)
    ensures xs == [] ==> Stored(r.budgets) == Stored(s.budgets)
    ensures r.(budgets := s.budgets) == s
  {
    s.(budgets := Some(MergeByOwner(Stored(s.budgets), xs, BudgetOwner)))
  }

  /** A missing theme reads as light. */
  function GetTheme(s: Store): Theme {
    Or(s.theme, Light)
  }

  function SetTheme(s: Store, t: Theme): (r: Store)
    ensures GetTheme(r) == t
    ensures r.(theme := s.theme) == s
  {
    s.(theme := Some(t))
  }

  /** Removes every key: no session, empty collections, default theme. */
  function ClearAll(s: Store): (r: Store)
    ensures GetUser(r) == None && GetToken(r) == None
    ensures GetCategories(r) == []
    ensures forall u :: GetAccounts(r, u) == [] && GetTransactions(r, u) == [] && GetBudgets(r, u) == []
    ensures GetTheme(r) == Light
  {
    EmptyStore
  }
}
