/** Sequence operations behind `Array.prototype.filter`, as the pages use it. */
module Seqs {

  /** `r` is `s` with some elements left out and the rest kept in their order. */
  predicate IsSubsequence<T(==)>(r: seq<T>, s: seq<T>)
    decreases |s|
  {
    r == [] || (s != [] && ((r[0] == s[0] && IsSubsequence(r[1..], s[1..])) || IsSubsequence(r, s[1..])))
  }

  /** `s.filter(keep)`: the elements of `s` that `keep` accepts, in their
      order, each as often as it occurs in `s`. */
  function Filter<T(==,!new)>(s: seq<T>, keep: T -> bool): (r: seq<T>)
    ensures |r| <= |s|
    ensures forall i :: 0 <= i < |r| ==> keep(r[i])
    ensures IsSubsequence(r, s)
    ensures (forall i :: 0 <= i < |s| ==> keep(s[i])) ==> r == s
  {
    if s == [] then []
    else if keep(s[0]) then [s[0]] + Filter(s[1..], keep)
    else Filter(s[1..], keep)
  }

  /** Every element that passes is kept as often as it occurs in `s`, and no
      other element is kept. */
  lemma {:induction false} FilterMultiset<T(!new)>(s: seq<T>, keep: T -> bool)
    ensures forall x :: multiset(Filter(s, keep))[x] == if keep(x) then multiset(s)[x] else 0
  {
    if s != [] {
      FilterMultiset(s[1..], keep);
      assert s == [s[0]] + s[1..];
      if keep(s[0]) {
        assert Filter(s, keep) == [s[0]] + Filter(s[1..], keep);
      }
    }
  }

  /** An element is kept exactly when it is in `s` and passes the test. */
  lemma {:induction false} FilterMembership<T(!new)>(s: seq<T>, keep: T -> bool, x: T)
    ensures x in Filter(s, keep) <==> x in s && keep(x)
  {
    if s != [] {
      FilterMembership(s[1..], keep, x);
      assert s == [s[0]] + s[1..];
    }
  }

  /** Filtering a concatenation filters each part. */
  lemma {:induction false} FilterConcat<T(!new)>(a: seq<T>, b: seq<T>, keep: T -> bool)
    ensures Filter(a + b, keep) == Filter(a, keep) + Filter(b, keep)
  {
    if a != [] {
      assert (a + b)[1..] == a[1..] + b;
      FilterConcat(a[1..], b, keep);
    } else {
      assert a + b == b;
    }
  }

  /** Two tests that agree on every element of `s` keep the same elements. */
  lemma {:induction false} FilterCongruent<T(!new)>(s: seq<T>, f: T -> bool, g: T -> bool)
    requires forall i :: 0 <= i < |s| ==> f(s[i]) == g(s[i])
    ensures Filter(s, f) == Filter(s, g)
  {
    if s != [] {
      FilterCongruent(s[1..], f, g);
    }
  }

  /** A test and its negation split `s`: the two counts add up to `|s|`. */
  lemma {:induction false} FilterPartition<T(!new)>(s: seq<T>, f: T -> bool, notF: T -> bool)
    requires forall i :: 0 <= i < |s| ==> notF(s[i]) == !f(s[i])
    ensures |Filter(s, f)| + |Filter(s, notF)| == |s|
  {
    if s != [] {
      FilterPartition(s[1..], f, notF);
    }
  }

  /** When every element passes at least one of four tests, the four counts
      together are at least `|s|` (an element passing several is counted several times). */
  lemma {:induction false} FilterCover4<T(!new)>(s: seq<T>, f1: T -> bool, f2: T -> bool, f3: T -> bool, f4: T -> bool)
    requires forall i :: 0 <= i < |s| ==> f1(s[i]) || f2(s[i]) || f3(s[i]) || f4(s[i])
    ensures |Filter(s, f1)| + |Filter(s, f2)| + |Filter(s, f3)| + |Filter(s, f4)| >= |s|
  {
    if s != [] {
      FilterCover4(s[1..], f1, f2, f3, f4);
    }
  }

  /** `s.filter((_, j) => j !== i)`: drops the element at index `i`, keeps the
      others in order, and leaves `s` alone when `i` is not an index of it. */
  function RemoveAt<T>(s: seq<T>, i: int): (r: seq<T>)
    ensures r == if 0 <= i < |s| then s[..i] + s[i + 1..] else s
  {
    if s == [] then []
    else if i == 0 then RemoveAt(s[1..], i - 1)
    else [s[0]] + RemoveAt(s[1..], i - 1)
  }
}
