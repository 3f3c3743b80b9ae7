/**
 * The list operations the pages and services are written with: `Array.prototype.filter`,
 * `map` that replaces matching entries, `reduce` that sums, and the order-preserving
 * subsequence relation that describes what a filter keeps.
 */
module Lists {

  /** `a` can be obtained from `b` by deleting elements, keeping the order of the rest. */
  predicate SubseqOf<T(==)>(a: seq<T>, b: seq<T>)
    decreases |b|
  {
    if a == [] then true
    else if b == [] then false
    else (a[|a| - 1] == b[|b| - 1] && SubseqOf(a[..|a| - 1], b[..|b| - 1]))
         || SubseqOf(a, b[..|b| - 1])
  }

  /** `xs.filter(p)`: the elements of `xs` satisfying `p`, in their original order. */
  function Filter<T>(xs: seq<T>, p: T -> bool): (r: seq<T>)
    ensures |r| <= |xs|
    decreases |xs|
  {
    if xs == [] then []
    else Filter(xs[..|xs| - 1], p) + (if p(xs[|xs| - 1]) then [xs[|xs| - 1]] else [])
  }

  /** `xs.map(x => target(x) ? v : x)`: every entry `target` picks becomes `v`. */
  function ReplaceWhere<T>(xs: seq<T>, target: T -> bool, v: T): (r: seq<T>)
    ensures |r| == |xs|
    ensures forall i :: 0 <= i < |xs| ==> r[i] == if target(xs[i]) then v else xs[i]
    decreases |xs|
  {
    if xs == [] then []
    else ReplaceWhere(xs[..|xs| - 1], target, v) + [if target(xs[|xs| - 1]) then v else xs[|xs| - 1]]
  }

  /** `xs.reduce((sum, x) => sum + f(x), 0)`. */
  function SumBy<T>(xs: seq<T>, f: T -> int): int
    decreases |xs|
  {
    if xs == [] then 0 else SumBy(xs[..|xs| - 1], f) + f(xs[|xs| - 1])
  }

  /** Number of elements of `xs` that `p` holds of. */
  function CountWhere<T>(xs: seq<T>, p: T -> bool): nat
    decreases |xs|
  {
    if xs == [] then 0 else CountWhere(xs[..|xs| - 1], p) + (if p(xs[|xs| - 1]) then 1 else 0)
  }

  /** An element is kept by a filter exactly when it is in the list and passes the predicate. */
  lemma {:induction false} FilterMembers<T>(xs: seq<T>, p: T -> bool)
    ensures forall x :: x in Filter(xs, p) <==> x in xs && p(x)
    decreases |xs|
  {
    if xs != [] {
      var init := xs[..|xs| - 1];
      FilterMembers(init, p);
      assert xs == init + [xs[|xs| - 1]];
    }
  }

  lemma SubseqEmpty<T>(b: seq<T>)
    ensures SubseqOf([], b)
  {
  }

  lemma {:induction false} SubseqRefl<T>(a: seq<T>)
    ensures SubseqOf(a, a)
    decreases |a|
  {
    if a != [] {
      SubseqRefl(a[..|a| - 1]);
    }
  }

  /** Dropping the last element of the longer sequence keeps the relation when that element is not used. */
  lemma {:induction false} SubseqDropLast<T>(a: seq<T>, b: seq<T>)
    requires a != [] && SubseqOf(a, b)
    ensures SubseqOf(a[..|a| - 1], b)
    decreases |b|
  {
    assert b != [];
    if a[|a| - 1] == b[|b| - 1] && SubseqOf(a[..|a| - 1], b[..|b| - 1]) {
      SubseqExtend(a[..|a| - 1], b[..|b| - 1], b[|b| - 1]);
      assert b[..|b| - 1] + [b[|b| - 1]] == b;
    } else {
      SubseqDropLast(a, b[..|b| - 1]);
      SubseqExtend(a[..|a| - 1], b[..|b| - 1], b[|b| - 1]);
      assert b[..|b| - 1] + [b[|b| - 1]] == b;
    }
  }

  lemma SubseqExtend<T>(a: seq<T>, b: seq<T>, x: T)
    requires SubseqOf(a, b)
    ensures SubseqOf(a, b + [x])
  {
    assert (b + [x])[..|b + [x]| - 1] == b;
  }

  /** The subsequence relation is transitive: a filter of a filter is a subsequence of the original. */
  lemma {:induction false} SubseqTrans<T>(a: seq<T>, b: seq<T>, c: seq<T>)
    requires SubseqOf(a, b) && SubseqOf(b, c)
    ensures SubseqOf(a, c)
    decreases |c|
  {
    if a == [] {
    } else {
      assert b != [] && c != [];
      var c' := c[..|c| - 1];
      if b[|b| - 1] == c[|c| - 1] && SubseqOf(b[..|b| - 1], c') {
        // the last element of b is matched with the last element of c
        var b' := b[..|b| - 1];
        if a[|a| - 1] == b[|b| - 1] && SubseqOf(a[..|a| - 1], b') {
          SubseqTrans(a[..|a| - 1], b', c');
        } else {
          assert SubseqOf(a, b');
          SubseqTrans(a, b', c');
        }
      } else {
        SubseqTrans(a, b, c');
      }
    }
  }

  /** What a filter keeps is an order-preserving subsequence of its input. */
  lemma {:induction false} FilterIsSubseq<T>(xs: seq<T>, p: T -> bool)
    ensures SubseqOf(Filter(xs, p), xs)
    decreases |xs|
  {
    if xs != [] {
      var init, last := xs[..|xs| - 1], xs[|xs| - 1];
      FilterIsSubseq(init, p);
      var r := Filter(xs, p);
      if p(last) {
        assert r[..|r| - 1] == Filter(init, p);
        assert xs[..|xs| - 1] == init;
      } else {
        assert r == Filter(init, p);
        SubseqExtend(r, init, last);
        assert init + [last] == xs;
      }
    }
  }

  /** A filter that every element passes keeps the whole list. */
  lemma {:induction false} FilterAll<T>(xs: seq<T>, p: T -> bool)
    requires forall x :: x in xs ==> p(x)
    ensures Filter(xs, p) == xs
    decreases |xs|
  {
    if xs != [] {
      var init := xs[..|xs| - 1];
      assert forall x :: x in init ==> x in xs;
      FilterAll(init, p);
      assert p(xs[|xs| - 1]);
      assert init + [xs[|xs| - 1]] == xs;
    }
  }

  /** Filters with predicates that agree on the list keep the same elements. */
  lemma {:induction false} FilterCongruent<T>(xs: seq<T>, p: T -> bool, q: T -> bool)
    requires forall x :: x in xs ==> p(x) == q(x)
    ensures Filter(xs, p) == Filter(xs, q)
    decreases |xs|
  {
    if xs != [] {
      var init := xs[..|xs| - 1];
      assert forall x :: x in init ==> x in xs;
      FilterCongruent(init, p, q);
      assert xs[|xs| - 1] in xs;
    }
  }

  /** A filter that no element passes keeps nothing. */
  lemma FilterNone<T>(xs: seq<T>, p: T -> bool)
    requires forall x :: x in xs ==> !p(x)
    ensures Filter(xs, p) == []
  {
    FilterMembers(xs, p);
  }

  /** Filtering distributes over concatenation. */
  lemma {:induction false} FilterAppend<T>(a: seq<T>, b: seq<T>, p: T -> bool)
    ensures Filter(a + b, p) == Filter(a, p) + Filter(b, p)
    decreases |b|
  {
    if b == [] {
      assert a + b == a;
    } else {
      var b' := b[..|b| - 1];
      FilterAppend(a, b', p);
      assert (a + b)[..|a + b| - 1] == a + b';
      assert (a + b)[|a + b| - 1] == b[|b| - 1];
    }
  }

  /** Filtering the first `i + 1` elements extends filtering the first `i` by at most `xs[i]`. */
  lemma FilterPrefixStep<T>(xs: seq<T>, i: nat, p: T -> bool)
    requires i < |xs|
    ensures Filter(xs[..i + 1], p) == Filter(xs[..i], p) + (if p(xs[i]) then [xs[i]] else [])
  {
    assert xs[..i + 1][..i] == xs[..i];
  }

  /** Two filters commute. */
  lemma {:induction false} FilterCommute<T>(xs: seq<T>, p: T -> bool, q: T -> bool)
    ensures Filter(Filter(xs, p), q) == Filter(Filter(xs, q), p)
    decreases |xs|
  {
    if xs != [] {
      var init, last := xs[..|xs| - 1], xs[|xs| - 1];
      FilterCommute(init, p, q);
      FilterAppend(Filter(init, p), if p(last) then [last] else [], q);
      FilterAppend(Filter(init, q), if q(last) then [last] else [], p);
    }
  }

  /** Both of two filter callbacks. */
  function Both<T>(p: T -> bool, q: T -> bool): T -> bool {
    x => p(x) && q(x)
  }

  /** Filtering twice is filtering once by both callbacks. */
  lemma {:induction false} FilterBoth<T>(xs: seq<T>, p: T -> bool, q: T -> bool)
    ensures Filter(Filter(xs, p), q) == Filter(xs, Both(p, q))
    decreases |xs|
  {
    if xs != [] {
      var init, last := xs[..|xs| - 1], xs[|xs| - 1];
      FilterBoth(init, p, q);
      FilterAppend(Filter(init, p), if p(last) then [last] else [], q);
    }
  }

  /** The negation of a filter callback. */
  function Not<T>(p: T -> bool): T -> bool {
    x => !p(x)
  }

  /** `p` and its negation split a list: the two filters together are a permutation of it. */
  lemma {:induction false} FilterPartition<T>(xs: seq<T>, p: T -> bool)
    ensures multiset(Filter(xs, p)) + multiset(Filter(xs, Not(p))) == multiset(xs)
    decreases |xs|
  {
    if xs != [] {
      var init, last := xs[..|xs| - 1], xs[|xs| - 1];
      FilterPartition(init, p);
      FilterSplitLast(xs, p);
      assert xs == init + [last];
      assert multiset(xs) == multiset(init) + multiset{last};
    }
  }

  /** One step of `FilterPartition`: the last element goes to exactly one side. */
  lemma FilterSplitLast<T>(xs: seq<T>, p: T -> bool)
    requires xs != []
    ensures var init, last := xs[..|xs| - 1], xs[|xs| - 1];
      && Filter(xs, p) == Filter(init, p) + (if p(last) then [last] else [])
      && Filter(xs, Not(p)) == Filter(init, Not(p)) + (if p(last) then [] else [last])
  {
  }

  /** The sum over a concatenation is the sum of the sums. */
  lemma {:induction false} SumByAppend<T>(a: seq<T>, b: seq<T>, f: T -> int)
    ensures SumBy(a + b, f) == SumBy(a, f) + SumBy(b, f)
    decreases |b|
  {
    if b == [] {
      assert a + b == a;
    } else {
      var b' := b[..|b| - 1];
      SumByAppend(a, b', f);
      assert (a + b)[..|a + b| - 1] == a + b';
    }
  }

  /** With non-negative terms, a subsequence never sums to more than the whole. */
  lemma {:induction false} SumBySubseq<T>(a: seq<T>, b: seq<T>, f: T -> int)
    requires SubseqOf(a, b)
    requires forall x :: x in b ==> f(x) >= 0
    ensures SumBy(a, f) <= SumBy(b, f)
    decreases |b|
  {
    if a == [] {
      SumByNonNegative(b, f);
    } else {
      var b' := b[..|b| - 1];
      assert forall x :: x in b' ==> x in b;
      if a[|a| - 1] == b[|b| - 1] && SubseqOf(a[..|a| - 1], b') {
        SumBySubseq(a[..|a| - 1], b', f);
      } else {
        SumBySubseq(a, b', f);
      }
    }
  }

  lemma {:induction false} SumByNonNegative<T>(xs: seq<T>, f: T -> int)
    requires forall x :: x in xs ==> f(x) >= 0
    ensures SumBy(xs, f) >= 0
    decreases |xs|
  {
    if xs != [] {
      assert forall x :: x in xs[..|xs| - 1] ==> x in xs;
      SumByNonNegative(xs[..|xs| - 1], f);
    }
  }

  /** The number of elements a filter keeps is the number of elements its predicate holds of. */
  lemma {:induction false} FilterCount<T>(xs: seq<T>, p: T -> bool)
    ensures |Filter(xs, p)| == CountWhere(xs, p)
    decreases |xs|
  {
    if xs != [] {
      FilterCount(xs[..|xs| - 1], p);
    }
  }
}
