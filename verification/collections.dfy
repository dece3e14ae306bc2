/** Sequence helpers shared by every engine: the stable `filter`, the
    id-keyed `map`/`filter` the reducers use, and sums (`reduce` with `+`). */
module Collections {

  /** `a` can be obtained from `b` by deleting elements (order preserved). */
  ghost predicate IsSubsequence<T>(a: seq<T>, b: seq<T>)
    decreases |b|
  {
    if a == [] then true
    else if b == [] then false
    else (a[0] == b[0] && IsSubsequence(a[1..], b[1..])) || IsSubsequence(a, b[1..])
  }

  /** Every element is kept: a sequence is a subsequence of itself. */
  lemma {:induction false} SubsequenceReflexive<T>(a: seq<T>)
    ensures IsSubsequence(a, a)
    decreases |a|
  {
    if a != [] {
      SubsequenceReflexive(a[1..]);
    }
  }

  /** How many elements of `xs` satisfy `p`, copies counted. */
  function CountWhere<T>(xs: seq<T>, p: T -> bool): (n: nat)
    ensures n <= |xs|
    decreases |xs|
  {
    if xs == [] then 0 else (if p(xs[0]) then 1 else 0) + CountWhere(xs[1..], p)
  }

  /** JavaScript's `Array.prototype.filter`: a stable selection that keeps
      every accepted element, as many times as it occurs. */
  function Filter<T>(xs: seq<T>, p: T -> bool): (r: seq<T>)
    ensures |r| <= |xs| && |r| == CountWhere(xs, p)
    ensures forall i :: 0 <= i < |r| ==> r[i] in xs && p(r[i])
    ensures forall i :: 0 <= i < |xs| && p(xs[i]) ==> xs[i] in r
    ensures IsSubsequence(r, xs)
    decreases |xs|
  {
    if xs == [] then []
    else
      assert xs == [xs[0]] + xs[1..];
      if p(xs[0]) then [xs[0]] + Filter(xs[1..], p)
      else Filter(xs[1..], p)
  }

  /** A subsequence of accepted elements is no longer than the number of
      accepted elements. */
  lemma {:induction false} SubsequenceCount<T>(r: seq<T>, xs: seq<T>, p: T -> bool)
    requires IsSubsequence(r, xs)
    requires forall i :: 0 <= i < |r| ==> p(r[i])
    ensures |r| <= CountWhere(xs, p)
    decreases |xs|
  {
    if r != [] {
      if r[0] == xs[0] && IsSubsequence(r[1..], xs[1..]) {
        SubsequenceCount(r[1..], xs[1..], p);
      } else {
        SubsequenceCount(r, xs[1..], p);
      }
    }
  }

  /** The contract of `Filter` pins its result down: a subsequence of `xs`
      whose elements all satisfy `p` and which is as long as the count of
      such elements is `Filter(xs, p)` itself. */
  lemma {:induction false} SelectionIsFilter<T>(r: seq<T>, xs: seq<T>, p: T -> bool)
    requires IsSubsequence(r, xs)
    requires forall i :: 0 <= i < |r| ==> p(r[i])
    requires |r| == CountWhere(xs, p)
    ensures r == Filter(xs, p)
    decreases |xs|
  {
    if xs != [] {
      if p(xs[0]) {
        if !(r[0] == xs[0] && IsSubsequence(r[1..], xs[1..])) {
          SubsequenceCount(r, xs[1..], p);
          assert false;
        }
        SelectionIsFilter(r[1..], xs[1..], p);
        assert r == [r[0]] + r[1..];
      } else {
        if r != [] && r[0] == xs[0] {
          assert false;
        }
        SelectionIsFilter(r, xs[1..], p);
      }
    }
  }

  /** Filtering keeps every copy of an accepted element and none of a
      rejected one. */
  lemma {:induction false} FilterCounts<T>(xs: seq<T>, p: T -> bool, x: T)
    ensures multiset(Filter(xs, p))[x] == if p(x) then multiset(xs)[x] else 0
    decreases |xs|
  {
    if xs != [] {
      FilterCounts(xs[1..], p, x);
      assert xs == [xs[0]] + xs[1..];
    }
  }

  lemma FilterMember<T>(xs: seq<T>, p: T -> bool, x: T)
    requires x in Filter(xs, p)
    ensures x in xs && p(x)
  {
    var r := Filter(xs, p);
    var k :| 0 <= k < |r| && r[k] == x;
  }

  lemma {:induction false} FilterAppend<T>(xs: seq<T>, ys: seq<T>, p: T -> bool)
    ensures Filter(xs + ys, p) == Filter(xs, p) + Filter(ys, p)
    decreases |xs|
  {
    if xs == [] {
      assert xs + ys == ys;
    } else {
      var zs := xs + ys;
      assert zs[0] == xs[0] && zs[1..] == xs[1..] + ys;
      FilterAppend(xs[1..], ys, p);
      if p(xs[0]) {
        calc {
          Filter(zs, p);
          [xs[0]] + Filter(xs[1..] + ys, p);
          [xs[0]] + (Filter(xs[1..], p) + Filter(ys, p));
          ([xs[0]] + Filter(xs[1..], p)) + Filter(ys, p);
        }
      }
    }
  }

  /** Appending an element the predicate rejects changes no selection;
      appending one it accepts appends it to the selection. */
  lemma FilterSnoc<T>(xs: seq<T>, x: T, p: T -> bool)
    ensures Filter(xs + [x], p) == if p(x) then Filter(xs, p) + [x] else Filter(xs, p)
  {
    FilterAppend(xs, [x], p);
    assert [x][1..] == [];
  }

  /** A predicate that holds of every element keeps the whole sequence. */
  lemma {:induction false} FilterKeepsAll<T>(xs: seq<T>, p: T -> bool)
    requires forall i :: 0 <= i < |xs| ==> p(xs[i])
    ensures Filter(xs, p) == xs
    decreases |xs|
  {
    if xs != [] {
      FilterKeepsAll(xs[1..], p);
    }
  }

  /** Two predicates that agree on the elements select the same subsequence. */
  lemma {:induction false} FilterCongruent<T>(xs: seq<T>, p: T -> bool, q: T -> bool)
    requires forall i :: 0 <= i < |xs| ==> p(xs[i]) == q(xs[i])
    ensures Filter(xs, p) == Filter(xs, q)
    decreases |xs|
  {
    if xs != [] {
      FilterCongruent(xs[1..], p, q);
    }
  }

  /** No two elements share a key. */
  predicate UniqueBy<T>(xs: seq<T>, key: T -> string) {
    forall i, j :: 0 <= i < j < |xs| ==> key(xs[i]) != key(xs[j])
  }

  /** `xs.map(x => key(x) === k ? change(x) : x)`. */
  function UpdateWhere<T>(xs: seq<T>, key: T -> string, k: string, change: T -> T): (r: seq<T>)
    ensures |r| == |xs|
    ensures forall i :: 0 <= i < |xs| && key(xs[i]) == k ==> r[i] == change(xs[i])
    ensures forall i :: 0 <= i < |xs| && key(xs[i]) != k ==> r[i] == xs[i]
    ensures (forall i :: 0 <= i < |xs| ==> key(xs[i]) != k) ==> r == xs
  {
    seq(|xs|, i requires 0 <= i < |xs| => if key(xs[i]) == k then change(xs[i]) else xs[i])
  }

  /** Whether a record's key differs from `k`. */
  function KeyIsNot<T>(key: T -> string, k: string): T -> bool {
    x => key(x) != k
  }

  /** `xs.filter(x => key(x) !== k)`: removes exactly the elements with key
      `k`, keeps the others in order, and changes nothing when no element
      has that key. */
  function RemoveWhere<T>(xs: seq<T>, key: T -> string, k: string): (r: seq<T>)
    ensures forall i :: 0 <= i < |r| ==> r[i] in xs && key(r[i]) != k
    ensures forall i :: 0 <= i < |xs| && key(xs[i]) != k ==> xs[i] in r
    ensures IsSubsequence(r, xs)
    ensures |r| == CountWhere(xs, KeyIsNot(key, k))
    ensures (forall i :: 0 <= i < |xs| ==> key(xs[i]) != k) ==> r == xs
  {
    var keep := KeyIsNot(key, k);
    if forall i :: 0 <= i < |xs| ==> key(xs[i]) != k then
      FilterKeepsAll(xs, keep);
      Filter(xs, keep)
    else
      Filter(xs, keep)
  }

  /** Removing the key of a record just appended, when no earlier record
      had that key, restores the original sequence. */
  lemma RemoveAfterAppend<T>(xs: seq<T>, x: T, key: T -> string)
    requires forall i :: 0 <= i < |xs| ==> key(xs[i]) != key(x)
    ensures RemoveWhere(xs + [x], key, key(x)) == xs
  {
    var keep := KeyIsNot(key, key(x));
    FilterAppend(xs, [x], keep);
    FilterKeepsAll(xs, keep);
    assert Filter([x], keep) == [];
  }

  /** With unique keys, removing a key that occurs at index `i` is slicing
      out that one element. */
  lemma {:induction false} RemoveUnique<T>(xs: seq<T>, key: T -> string, i: nat)
    requires UniqueBy(xs, key)
    requires i < |xs|
    ensures RemoveWhere(xs, key, key(xs[i])) == xs[..i] + xs[i + 1..]
  {
    var k := key(xs[i]);
    var keep := KeyIsNot(key, k);
    assert xs == xs[..i] + ([xs[i]] + xs[i + 1..]);
    FilterAppend(xs[..i], [xs[i]] + xs[i + 1..], keep);
    FilterAppend([xs[i]], xs[i + 1..], keep);
    FilterKeepsAll(xs[..i], keep);
    FilterKeepsAll(xs[i + 1..], keep);
    assert Filter([xs[i]], keep) == [];
  }

  /** `xs.reduce((s, x) => s + f(x), 0)`. */
  function Sum<T>(xs: seq<T>, f: T -> real): real
    decreases |xs|
  {
    if xs == [] then 0.0 else f(xs[0]) + Sum(xs[1..], f)
  }

  /** The sum of `f` over the elements satisfying `p`. */
  function SumWhere<T>(xs: seq<T>, p: T -> bool, f: T -> real): real
    decreases |xs|
  {
    if xs == [] then 0.0
    else (if p(xs[0]) then f(xs[0]) else 0.0) + SumWhere(xs[1..], p, f)
  }

  lemma SumWhereSingleton<T>(x: T, p: T -> bool, f: T -> real)
    ensures SumWhere([x], p, f) == if p(x) then f(x) else 0.0
  {
    assert [x][1..] == [];
  }

  /** A predicate that holds of no element sums to zero. */
  lemma {:induction false} SumWhereNone<T>(xs: seq<T>, p: T -> bool, f: T -> real)
    requires forall i :: 0 <= i < |xs| ==> !p(xs[i])
    ensures SumWhere(xs, p, f) == 0.0
    decreases |xs|
  {
    if xs != [] {
      SumWhereNone(xs[1..], p, f);
    }
  }

  lemma {:induction false} SumAppend<T>(xs: seq<T>, ys: seq<T>, f: T -> real)
    ensures Sum(xs + ys, f) == Sum(xs, f) + Sum(ys, f)
    decreases |xs|
  {
    if xs != [] {
      assert (xs + ys)[1..] == xs[1..] + ys;
      SumAppend(xs[1..], ys, f);
    } else {
      assert xs + ys == ys;
    }
  }

  lemma {:induction false} SumWhereAppend<T>(xs: seq<T>, ys: seq<T>, p: T -> bool, f: T -> real)
    ensures SumWhere(xs + ys, p, f) == SumWhere(xs, p, f) + SumWhere(ys, p, f)
    decreases |xs|
  {
    if xs != [] {
      assert (xs + ys)[1..] == xs[1..] + ys;
      SumWhereAppend(xs[1..], ys, p, f);
    } else {
      assert xs + ys == ys;
    }
  }

  /** Summing a filtered sequence is summing under the filter's predicate. */
  lemma {:induction false} SumOfFilter<T>(xs: seq<T>, p: T -> bool, f: T -> real)
    ensures Sum(Filter(xs, p), f) == SumWhere(xs, p, f)
    decreases |xs|
  {
    if xs != [] {
      SumOfFilter(xs[1..], p, f);
      if p(xs[0]) {
        assert ([xs[0]] + Filter(xs[1..], p))[1..] == Filter(xs[1..], p);
      }
    }
  }

  /** Summing under `q` inside a sequence filtered by `p` is summing under
      both. */
  lemma {:induction false} SumWhereOfFilter<T>(xs: seq<T>, p: T -> bool, q: T -> bool, pq: T -> bool, f: T -> real)
    requires forall x :: pq(x) == (p(x) && q(x))
    ensures SumWhere(Filter(xs, p), q, f) == SumWhere(xs, pq, f)
    decreases |xs|
  {
    if xs != [] {
      SumWhereOfFilter(xs[1..], p, q, pq, f);
      if p(xs[0]) {
        assert ([xs[0]] + Filter(xs[1..], p))[1..] == Filter(xs[1..], p);
      }
    }
  }

  /** Two predicates that agree on the elements give the same sum. */
  lemma {:induction false} SumWhereCongruent<T>(xs: seq<T>, p: T -> bool, q: T -> bool, f: T -> real)
    requires forall i :: 0 <= i < |xs| ==> p(xs[i]) == q(xs[i])
    ensures SumWhere(xs, p, f) == SumWhere(xs, q, f)
    decreases |xs|
  {
    if xs != [] {
      SumWhereCongruent(xs[1..], p, q, f);
    }
  }

  /** With non-negative terms, a sum under a narrower predicate is smaller. */
  lemma {:induction false} SumWhereMonotone<T>(xs: seq<T>, p: T -> bool, q: T -> bool, f: T -> real)
    requires forall i :: 0 <= i < |xs| ==> (p(xs[i]) ==> q(xs[i]))
    requires forall i :: 0 <= i < |xs| ==> f(xs[i]) >= 0.0
    ensures SumWhere(xs, p, f) <= SumWhere(xs, q, f)
    decreases |xs|
  {
    if xs != [] {
      SumWhereMonotone(xs[1..], p, q, f);
    }
  }
}
