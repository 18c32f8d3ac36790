/** Sequence operations shared by every record store: the `filter` and
    `reduce`-to-a-sum patterns the accounting views apply to their lists. */
module Seqs {

  /** Keeps, in order, the elements for which `keep` holds (Array.prototype.filter). */
  function Filter<T>(s: seq<T>, keep: T -> bool): (r: seq<T>)
    ensures |r| <= |s|
    ensures forall x :: x in r ==> x in s && keep(x)
  {
    if s == [] then [] else (if keep(s[0]) then [s[0]] else []) + Filter(s[1..], keep)
  }

  /** Sum of `f` over the elements, left to right from 0 (`reduce((sum, x) => sum + f(x), 0)`). */
  function SumOf<T>(s: seq<T>, f: T -> int): (r: int)
    ensures (forall i :: 0 <= i < |s| ==> f(s[i]) >= 0) ==> r >= 0
  {
    if s == [] then 0 else f(s[0]) + SumOf(s[1..], f)
  }

  /** `a` is obtained from `b` by deleting elements, without reordering the rest. */
  ghost predicate IsSubsequence<T>(a: seq<T>, b: seq<T>)
    decreases |b|
  {
    if b == [] then a == []
    else (a != [] && a[0] == b[0] && IsSubsequence(a[1..], b[1..])) || IsSubsequence(a, b[1..])
  }

  lemma {:induction false} FilterIsSubsequence<T>(s: seq<T>, keep: T -> bool)
    ensures IsSubsequence(Filter(s, keep), s)
  {
    if s != [] {
      FilterIsSubsequence(s[1..], keep);
      if keep(s[0]) {
        assert Filter(s, keep)[1..] == Filter(s[1..], keep);
      } else {
        assert Filter(s, keep) == Filter(s[1..], keep);
      }
    }
  }

  /** An element survives the filter exactly when it is in the input and is kept. */
  lemma {:induction false} FilterMembership<T>(s: seq<T>, keep: T -> bool, x: T)
    ensures x in Filter(s, keep) <==> x in s && keep(x)
  {
    if s != [] {
      FilterMembership(s[1..], keep, x);
      assert s == [s[0]] + s[1..];
    }
  }

  /** A filter that keeps every element is the identity. */
  lemma {:induction false} FilterKeepsAll<T>(s: seq<T>, keep: T -> bool)
    requires forall i :: 0 <= i < |s| ==> keep(s[i])
    ensures Filter(s, keep) == s
  {
    if s != [] {
      FilterKeepsAll(s[1..], keep);
    }
  }

  /** A filter that keeps no element gives the empty sequence. */
  lemma {:induction false} FilterKeepsNone<T>(s: seq<T>, keep: T -> bool)
    requires forall i :: 0 <= i < |s| ==> !keep(s[i])
    ensures Filter(s, keep) == []
  {
    if s != [] {
      FilterKeepsNone(s[1..], keep);
    }
  }

  lemma {:induction false} FilterAppend<T>(a: seq<T>, b: seq<T>, keep: T -> bool)
    ensures Filter(a + b, keep) == Filter(a, keep) + Filter(b, keep)
  {
    if a == [] {
      assert a + b == b;
    } else {
      assert (a + b)[1..] == a[1..] + b;
      FilterAppend(a[1..], b, keep);
    }
  }

  /** A filter that drops exactly the element at position `k` removes just that element. */
  lemma {:induction false} FilterDropsOne<T>(s: seq<T>, k: nat, keep: T -> bool)
    requires k < |s| && !keep(s[k])
    requires forall i :: 0 <= i < |s| && i != k ==> keep(s[i])
    ensures Filter(s, keep) == s[..k] + s[k + 1..]
  {
    var rest := s[1..];
    if k == 0 {
      forall i | 0 <= i < |rest| ensures keep(rest[i]) {
        assert rest[i] == s[i + 1];
      }
      FilterKeepsAll(rest, keep);
      assert Filter(s, keep) == Filter(rest, keep);
    } else {
      forall i | 0 <= i < |rest| && i != k - 1 ensures keep(rest[i]) {
        assert rest[i] == s[i + 1];
      }
      FilterDropsOne(rest, k - 1, keep);
      assert keep(s[0]);
      KeptHead(s, keep);
      DropSplit(s, k);
    }
  }

  lemma KeptHead<T>(s: seq<T>, keep: T -> bool)
    requires s != [] && keep(s[0])
    ensures Filter(s, keep) == [s[0]] + Filter(s[1..], keep)
  {
  }

  lemma DropSplit<T>(s: seq<T>, k: nat)
    requires 0 < k < |s|
    ensures s[..k] + s[k + 1..] == [s[0]] + (s[1..][..k - 1] + s[1..][k..])
  {
    assert s[..k] == [s[0]] + s[1..][..k - 1];
    assert s[k + 1..] == s[1..][k..];
  }

  lemma {:induction false} SumOfAppend<T>(a: seq<T>, b: seq<T>, f: T -> int)
    ensures SumOf(a + b, f) == SumOf(a, f) + SumOf(b, f)
  {
    if a == [] {
      assert a + b == b;
    } else {
      assert (a + b)[1..] == a[1..] + b;
      SumOfAppend(a[1..], b, f);
    }
  }

  /** The filter keeps every copy of a kept element and no copy of a dropped one. */
  lemma {:induction false} FilterCounts<T>(s: seq<T>, keep: T -> bool, x: T)
    ensures multiset(Filter(s, keep))[x] == if keep(x) then multiset(s)[x] else 0
  {
    if s != [] {
      FilterCounts(s[1..], keep, x);
      assert s == [s[0]] + s[1..];
      if keep(s[0]) {
        assert Filter(s, keep) == [s[0]] + Filter(s[1..], keep);
      } else {
        assert Filter(s, keep) == Filter(s[1..], keep);
      }
    }
  }

  /** A filtered view is empty exactly when no element passes the test. */
  lemma {:induction false} FilterEmptyIff<T>(s: seq<T>, keep: T -> bool)
    ensures Filter(s, keep) == [] <==> forall i :: 0 <= i < |s| ==> !keep(s[i])
  {
    if s != [] {
      FilterEmptyIff(s[1..], keep);
      assert forall i :: 1 <= i < |s| ==> s[i] == s[1..][i - 1];
    }
  }

  /** `Filter` keeps exactly the elements that pass the test, each as often as
      it occurs in the input. */
  lemma FilterExact<T>(s: seq<T>, keep: T -> bool)
    ensures forall x :: x in Filter(s, keep) <==> x in s && keep(x)
    ensures forall x :: multiset(Filter(s, keep))[x] == if keep(x) then multiset(s)[x] else 0
  {
    forall x ensures x in Filter(s, keep) <==> x in s && keep(x) {
      FilterMembership(s, keep, x);
    }
    forall x ensures multiset(Filter(s, keep))[x] == if keep(x) then multiset(s)[x] else 0 {
      FilterCounts(s, keep, x);
    }
  }

  /** Summing a non-negative quantity over a filtered view gives at least 0
      and never more than the full sum. */
  lemma {:induction false} SumOfFilterAtMost<T>(s: seq<T>, keep: T -> bool, f: T -> int)
    ensures (forall i :: 0 <= i < |s| ==> f(s[i]) >= 0) ==>
      0 <= SumOf(Filter(s, keep), f) <= SumOf(s, f)
  {
    if s != [] && forall i :: 0 <= i < |s| ==> f(s[i]) >= 0 {
      assert forall i :: 0 <= i < |s[1..]| ==> f(s[1..][i]) >= 0;
      SumOfFilterAtMost(s[1..], keep, f);
      if keep(s[0]) {
        assert Filter(s, keep)[1..] == Filter(s[1..], keep);
      } else {
        assert Filter(s, keep) == Filter(s[1..], keep);
      }
    }
  }

  /** Replacing one element changes the sum by the difference of the two contributions. */
  lemma {:induction false} SumOfUpdate<T>(s: seq<T>, i: nat, x: T, f: T -> int)
    requires i < |s|
    ensures SumOf(s[i := x], f) == SumOf(s, f) - f(s[i]) + f(x)
  {
    if i == 0 {
      assert s[i := x][1..] == s[1..];
    } else {
      assert s[i := x][1..] == s[1..][i - 1 := x];
      SumOfUpdate(s[1..], i - 1, x, f);
    }
  }
}
