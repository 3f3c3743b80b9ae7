/**
 * `TransactionTable`: the type filter, the sort (amount / date / category) applied to a copy,
 * the type badge and the sign shown before each amount.
 */
module TransactionTable {
  import opened Dates
  import opened Records
  import opened Lists
  import opened Sorting
  import Text

  /** The filter callback for the selected type filter. */
  function Keep(filter: string): Transaction -> bool {
    (t: Transaction) =>
      if filter == "income" then t.kind == "income"
      else if filter == "expense" then t.kind == "expense"
      else true
  }

  /** `filteredTransactions`. */
  function FilterTransactions(ts: seq<Transaction>, filter: string): (r: seq<Transaction>)
    ensures SubseqOf(r, ts)
  {
    FilterIsSubseq(ts, Keep(filter));
    Filter(ts, Keep(filter))
  }

  /** The comparator's value on `(a, b)` for `sortBy`; `collate` stands for `localeCompare`. */
  function Cmp(sortBy: string, collate: (string, string) -> int, a: Transaction, b: Transaction): int {
    if sortBy == "amount" then b.amount - a.amount
    else if sortBy == "date" then Compare(b.date, a.date)
    else if sortBy == "category" then collate(a.category, b.category)
    else 0
  }

  /** The comparator passed to `sort`. */
  function Order(sortBy: string, collate: (string, string) -> int): (Transaction, Transaction) -> int {
    (a: Transaction, b: Transaction) => Cmp(sortBy, collate, a, b)
  }

  /** `sortedTransactions`: the filtered list, sorted on a copy. */
  function Visible(ts: seq<Transaction>, filter: string, sortBy: string, collate: (string, string) -> int): (r: seq<Transaction>)
    ensures multiset(r) == multiset(FilterTransactions(ts, filter))
  {
    SortWith(FilterTransactions(ts, filter), Order(sortBy, collate))
  }

  /** `getBadgeVariant`. */
  function BadgeVariant(kind: string): (v: string)
    ensures v == "success" <==> kind == "income"
    ensures v != "success" ==> v == "error"
  {
    if kind == "income" then "success" else "error"
  }

  /** The sign before an amount. */
  function Sign(kind: string): (s: string)
    ensures s == "+" <==> kind == "income"
    ensures s != "+" ==> s == "-"
  {
    if kind == "income" then "+" else "-"
  }

  // ---- filter properties ----

  /** "income" keeps exactly the income, "expense" exactly the expenses, anything else keeps all. */
  lemma {:induction false} TypeFilterKeeps(ts: seq<Transaction>, filter: string)
    ensures forall t :: t in FilterTransactions(ts, "income") <==> t in ts && t.kind == "income"
    ensures forall t :: t in FilterTransactions(ts, "expense") <==> t in ts && t.kind == "expense"
    ensures |FilterTransactions(ts, "income")| == CountWhere(ts, Keep("income"))
    ensures |FilterTransactions(ts, "expense")| == CountWhere(ts, Keep("expense"))
    ensures filter !in {"income", "expense"} ==> FilterTransactions(ts, filter) == ts
  {
    FilterCount(ts, Keep("income"));
    FilterCount(ts, Keep("expense"));
    FilterMembers(ts, Keep("income"));
    FilterMembers(ts, Keep("expense"));
    if filter !in {"income", "expense"} {
      FilterAll(ts, Keep(filter));
    }
  }

  /** The badge and the sign agree: a green "+" exactly for income. */
  lemma BadgeMatchesSign(kind: string)
    ensures BadgeVariant(kind) == "success" <==> Sign(kind) == "+"
  {
  }

  // ---- sort properties ----

  /** "a may precede b" under the comparator for `sortBy`. */
  lemma OrderLe(sortBy: string, collate: (string, string) -> int, a: Transaction, b: Transaction)
    ensures LeOf(Order(sortBy, collate))(a, b) == (Cmp(sortBy, collate, a, b) <= 0)
  {
  }

  /** Sorting by amount puts larger amounts first. */
  lemma {:induction false} AmountSort(ts: seq<Transaction>, filter: string, collate: (string, string) -> int)
    ensures var r := Visible(ts, filter, "amount", collate);
      forall i, j | 0 <= i < j < |r| :: r[i].amount >= r[j].amount
  {
    var xs := FilterTransactions(ts, filter);
    var le := LeOf(Order("amount", collate));
    forall a, b, c | a in xs && b in xs && c in xs
      ensures le(a, b) || le(b, a)
      ensures le(a, b) && le(b, c) ==> le(a, c)
    {
      OrderLe("amount", collate, a, b);
      OrderLe("amount", collate, b, a);
      OrderLe("amount", collate, b, c);
      OrderLe("amount", collate, a, c);
    }
    SortWithSorted(xs, Order("amount", collate));
    var r := Visible(ts, filter, "amount", collate);
    forall i, j | 0 <= i < j < |r| ensures r[i].amount >= r[j].amount {
      OrderLe("amount", collate, r[i], r[j]);
    }
  }

  /** Sorting by date puts the newest first. */
  lemma {:induction false} DateSort(ts: seq<Transaction>, filter: string, collate: (string, string) -> int)
    ensures var r := Visible(ts, filter, "date", collate);
      forall i, j | 0 <= i < j < |r| :: NotAfter(r[j].date, r[i].date)
  {
    var xs := FilterTransactions(ts, filter);
    var le := LeOf(Order("date", collate));
    forall a, b, c | a in xs && b in xs && c in xs
      ensures le(a, b) || le(b, a)
      ensures le(a, b) && le(b, c) ==> le(a, c)
    {
      OrderLe("date", collate, a, b);
      OrderLe("date", collate, b, a);
      OrderLe("date", collate, b, c);
      OrderLe("date", collate, a, c);
      BeforeIsStrictTotalOrder(a.date, b.date, c.date);
      BeforeIsStrictTotalOrder(c.date, b.date, a.date);
    }
    SortWithSorted(xs, Order("date", collate));
    var r := Visible(ts, filter, "date", collate);
    forall i, j | 0 <= i < j < |r| ensures NotAfter(r[j].date, r[i].date) {
      OrderLe("date", collate, r[i], r[j]);
    }
  }

  /** Sorting by category orders by the collation. */
  lemma {:induction false} CategorySort(ts: seq<Transaction>, filter: string, collate: (string, string) -> int)
    requires Text.IsCollation(collate)
    ensures var r := Visible(ts, filter, "category", collate);
      forall i, j | 0 <= i < j < |r| :: collate(r[i].category, r[j].category) <= 0
  {
    var xs := FilterTransactions(ts, filter);
    var le := LeOf(Order("category", collate));
    forall a, b, c | a in xs && b in xs && c in xs
      ensures le(a, b) || le(b, a)
      ensures le(a, b) && le(b, c) ==> le(a, c)
    {
      OrderLe("category", collate, a, b);
      OrderLe("category", collate, b, a);
      OrderLe("category", collate, b, c);
      OrderLe("category", collate, a, c);
    }
    SortWithSorted(xs, Order("category", collate));
    var r := Visible(ts, filter, "category", collate);
    forall i, j | 0 <= i < j < |r| ensures collate(r[i].category, r[j].category) <= 0 {
      OrderLe("category", collate, r[i], r[j]);
    }
  }

  /** An unknown sort key leaves the filtered order unchanged. */
  lemma {:induction false} UnknownSortKeepsOrder(ts: seq<Transaction>, filter: string, sortBy: string, collate: (string, string) -> int)
    requires sortBy !in {"amount", "date", "category"}
    ensures Visible(ts, filter, sortBy, collate) == FilterTransactions(ts, filter)
  {
    SortWithKeepsOrder(FilterTransactions(ts, filter), Order(sortBy, collate));
  }
}
