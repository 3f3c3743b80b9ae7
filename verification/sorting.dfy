/**
 * `[...xs].sort(cmp)`: JavaScript's `Array.prototype.sort` is stable, so with a consistent
 * comparator its result is the stable sort of a copy. It is modelled by insertion sort,
 * which is stable, as a function of the copied list (the input list is never changed).
 */
module Sorting {

  /** `le` is total and transitive on the elements of `s`: a comparator consistent on them. */
  ghost predicate TotalPreorderOn<T>(s: seq<T>, le: (T, T) -> bool) {
    && (forall a, b | a in s && b in s :: le(a, b) || le(b, a))
    && (forall a, b, c | a in s && b in s && c in s :: le(a, b) && le(b, c) ==> le(a, c))
  }

  /** Every element may precede every later one. */
  ghost predicate Sorted<T>(s: seq<T>, le: (T, T) -> bool) {
    forall i, j | 0 <= i < j < |s| :: le(s[i], s[j])
  }

  /** Insert `x` before the first element it may precede. */
  function Insert<T(==)>(x: T, ys: seq<T>, le: (T, T) -> bool): (r: seq<T>)
    ensures multiset(r) == multiset(ys) + multiset{x}
    ensures |r| == |ys| + 1
    decreases |ys|
  {
    if ys == [] then [x]
    else if le(x, ys[0]) then [x] + ys
    else
      var rest := Insert(x, ys[1..], le);
      assert ys == [ys[0]] + ys[1..];
      [ys[0]] + rest
  }

  /** The stable sort of `xs` under `le` ("a may precede b"). */
  function SortBy<T(==)>(xs: seq<T>, le: (T, T) -> bool): (r: seq<T>)
    ensures multiset(r) == multiset(xs)
    ensures |r| == |xs|
    decreases |xs|
  {
    if xs == [] then []
    else
      assert xs == [xs[0]] + xs[1..];
      Insert(xs[0], SortBy(xs[1..], le), le)
  }

  /** The "may precede" relation a comparator induces: `cmp(a, b) <= 0`. */
  function LeOf<T>(cmp: (T, T) -> int): (T, T) -> bool {
    (a, b) => cmp(a, b) <= 0
  }

  /** `[...xs].sort(cmp)`: an element may precede another when the comparator is not positive. */
  function SortWith<T(==)>(xs: seq<T>, cmp: (T, T) -> int): (r: seq<T>)
    ensures multiset(r) == multiset(xs)
    ensures |r| == |xs|
  {
    SortBy(xs, LeOf(cmp))
  }

  lemma PreorderOnSub<T>(s: seq<T>, s': seq<T>, le: (T, T) -> bool)
    requires TotalPreorderOn(s, le)
    requires forall x :: x in s' ==> x in s
    ensures TotalPreorderOn(s', le)
  {
  }

  lemma {:induction false} InsertSorted<T>(x: T, ys: seq<T>, le: (T, T) -> bool)
    requires Sorted(ys, le) && TotalPreorderOn([x] + ys, le)
    ensures Sorted(Insert(x, ys, le), le)
    decreases |ys|
  {
    if ys == [] {
    } else if le(x, ys[0]) {
      var r := [x] + ys;
      forall i, j | 0 <= i < j < |r| ensures le(r[i], r[j]) {
        if i == 0 && j > 1 {
          assert le(ys[0], ys[j - 1]);
          assert x in r && ys[0] in r && ys[j - 1] in r;
        }
      }
    } else {
      assert x in [x] + ys && ys[0] in [x] + ys;
      assert le(ys[0], x);
      var tail := ys[1..];
      PreorderOnSub([x] + ys, [x] + tail, le);
      InsertSorted(x, tail, le);
      var rest := Insert(x, tail, le);
      var r := [ys[0]] + rest;
      forall i, j | 0 <= i < j < |r| ensures le(r[i], r[j]) {
        if i == 0 {
          var z := rest[j - 1];
          assert z in multiset(rest);
          if z != x {
            assert z in multiset(tail);
            var k :| 0 <= k < |tail| && tail[k] == z;
            assert le(ys[0], ys[k + 1]);
          }
        }
      }
    }
  }

  /** With a comparator consistent on the list, the result is sorted. */
  lemma {:induction false} SortBySorted<T>(xs: seq<T>, le: (T, T) -> bool)
    requires TotalPreorderOn(xs, le)
    ensures Sorted(SortBy(xs, le), le)
    decreases |xs|
  {
    if xs != [] {
      var tail := xs[1..];
      PreorderOnSub(xs, tail, le);
      SortBySorted(tail, le);
      var s := SortBy(tail, le);
      forall z | z in [xs[0]] + s ensures z in xs {
        if z != xs[0] {
          assert z in multiset(s);
        }
      }
      PreorderOnSub(xs, [xs[0]] + s, le);
      InsertSorted(xs[0], s, le);
    }
  }

  /** A comparator that never separates two elements (`default: return 0`) leaves the order alone. */
  lemma {:induction false} SortByKeepsOrder<T>(xs: seq<T>, le: (T, T) -> bool)
    requires forall a, b | a in xs && b in xs :: le(a, b)
    ensures SortBy(xs, le) == xs
    decreases |xs|
  {
    if xs != [] {
      var tail := xs[1..];
      SortByKeepsOrder(tail, le);
      if tail != [] {
        assert xs[0] in xs && tail[0] in xs;
      }
      assert [xs[0]] + tail == xs;
    }
  }

  /** With a comparator consistent on the list, `sort` orders the copy. */
  lemma SortWithSorted<T>(xs: seq<T>, cmp: (T, T) -> int)
    requires TotalPreorderOn(xs, LeOf(cmp))
    ensures Sorted(SortWith(xs, cmp), LeOf(cmp))
  {
    SortBySorted(xs, LeOf(cmp));
  }

  /** A comparator that returns 0 on every pair leaves the order alone. */
  lemma SortWithKeepsOrder<T>(xs: seq<T>, cmp: (T, T) -> int)
    requires forall a, b | a in xs && b in xs :: cmp(a, b) == 0
    ensures SortWith(xs, cmp) == xs
  {
    SortByKeepsOrder(xs, LeOf(cmp));
  }
}
