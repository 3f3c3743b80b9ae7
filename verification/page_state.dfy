/**
 * The three ways every page changes its in-memory list after the service answers: a created
 * record is appended (`[...prev, created]`), an edited record replaces the entries with its `Id`
 * (`prev.map(x => x.Id === id ? updated : x)`), and a delete keeps the entries with another `Id`
 * (`prev.filter(x => x.Id !== id)`). The record type is a parameter; `id` reads its `Id`.
 */
module PageState {
  import opened Lists

  /** The callback that picks the entries whose `Id` is `k`. */
  function HasId<T>(id: T -> nat, k: nat): T -> bool {
    x => id(x) == k
  }

  /** The list after an edit of record `k` answered with `v`. */
  function Replaced<T>(xs: seq<T>, id: T -> nat, k: nat, v: T): (r: seq<T>)
    ensures |r| == |xs|
    ensures forall i :: 0 <= i < |xs| && id(xs[i]) != k ==> r[i] == xs[i]
    ensures forall i :: 0 <= i < |xs| && id(xs[i]) == k ==> r[i] == v
  {
    ReplaceWhere(xs, HasId(id, k), v)
  }

  /** The callback that keeps the entries whose `Id` is not `k`. */
  function OtherId<T>(id: T -> nat, k: nat): T -> bool {
    x => id(x) != k
  }

  /** The list after record `k` is deleted. */
  function Removed<T>(xs: seq<T>, id: T -> nat, k: nat): (r: seq<T>)
    ensures |r| <= |xs|
  {
    Filter(xs, OtherId(id, k))
  }

  /** A delete keeps exactly the entries with another `Id`, in their order, each as often as it occurs. */
  lemma RemovedKeepsOthers<T(!new)>(xs: seq<T>, id: T -> nat, k: nat)
    ensures SubseqOf(Removed(xs, id, k), xs)
    ensures forall x :: x in Removed(xs, id, k) <==> x in xs && id(x) != k
    ensures |Removed(xs, id, k)| == CountWhere(xs, OtherId(id, k))
  {
    FilterCount(xs, OtherId(id, k));
    FilterIsSubseq(xs, OtherId(id, k));
    FilterMembers(xs, OtherId(id, k));
  }

  /** Deleting the same record twice changes nothing the second time. */
  lemma RemovedTwice<T(!new)>(xs: seq<T>, id: T -> nat, k: nat)
    ensures Removed(Removed(xs, id, k), id, k) == Removed(xs, id, k)
  {
    RemovedKeepsOthers(xs, id, k);
    FilterAll(Removed(xs, id, k), OtherId(id, k));
  }

  /** An edit of a record that is not in the list leaves the list as it was. */
  lemma ReplacedAbsent<T(!new)>(xs: seq<T>, id: T -> nat, k: nat, v: T)
    requires forall x :: x in xs ==> id(x) != k
    ensures Replaced(xs, id, k, v) == xs
  {
    var r := Replaced(xs, id, k, v);
    forall i | 0 <= i < |xs| ensures r[i] == xs[i] {
      assert xs[i] in xs;
    }
  }

  /** Deleting a record after editing it (the edit answering with the same `Id`) leaves the
      same list as deleting it straight away. */
  lemma {:induction false} RemovedAfterReplaced<T(!new)>(xs: seq<T>, id: T -> nat, k: nat, v: T)
    requires id(v) == k
    ensures Removed(Replaced(xs, id, k, v), id, k) == Removed(xs, id, k)
    decreases |xs|
  {
    if xs != [] {
      var init, last := xs[..|xs| - 1], xs[|xs| - 1];
      var r := Replaced(xs, id, k, v);
      RemovedAfterReplaced(init, id, k, v);
      assert r == Replaced(init, id, k, v) + [r[|xs| - 1]];
      FilterAppend(Replaced(init, id, k, v), [r[|xs| - 1]], OtherId(id, k));
      FilterAppend(init, [last], OtherId(id, k));
      assert xs == init + [last];
    }
  }

  /** Deleting a record right after it was created leaves the list it was appended to, less
      any older entries with the same `Id`. */
  lemma AppendedThenRemoved<T(!new)>(xs: seq<T>, id: T -> nat, v: T)
    ensures Removed(xs + [v], id, id(v)) == Removed(xs, id, id(v))
  {
    FilterAppend(xs, [v], OtherId(id, id(v)));
  }
}
