/**
 * `FinancialSummary`: income, expense and profit totals over all transactions and over the
 * current month's, and the expense-by-category buckets behind the donut chart.
 */
module FinancialSummary {
  import opened Dates
  import opened Records
  import opened Lists

  predicate IsIncome(t: Transaction) { t.kind == "income" }
  predicate IsExpense(t: Transaction) { t.kind == "expense" }
  function AmountOf(t: Transaction): int { t.amount }

  /** The filter callback for "dated in the month and year of `now`". */
  function InMonthOf(now: Date): Transaction -> bool {
    (t: Transaction) => t.date.month == now.month && t.date.year == now.year
  }

  /** `transactions.filter(t => t.type === "income").reduce(...)`. */
  function TotalIncome(ts: seq<Transaction>): int { SumBy(Filter(ts, IsIncome), AmountOf) }

  /** `transactions.filter(t => t.type === "expense").reduce(...)`. */
  function TotalExpenses(ts: seq<Transaction>): int { SumBy(Filter(ts, IsExpense), AmountOf) }

  datatype Summary = Summary(
    totalIncome: int, totalExpenses: int, totalProfit: int,
    monthlyIncome: int, monthlyExpenses: int, monthlyProfit: int)

  /** `summary`, computed at time `now`. */
  function SummaryOf(ts: seq<Transaction>, now: Date): (s: Summary)
    ensures s.totalProfit == s.totalIncome - s.totalExpenses
    ensures s.monthlyProfit == s.monthlyIncome - s.monthlyExpenses
  {
    var monthly := Filter(ts, InMonthOf(now));
    Summary(TotalIncome(ts), TotalExpenses(ts), TotalIncome(ts) - TotalExpenses(ts),
            TotalIncome(monthly), TotalExpenses(monthly), TotalIncome(monthly) - TotalExpenses(monthly))
  }

  // ---- summary properties ----

  /** Totals add up over concatenated lists. */
  lemma {:induction false} TotalsAppend(a: seq<Transaction>, b: seq<Transaction>)
    ensures TotalIncome(a + b) == TotalIncome(a) + TotalIncome(b)
    ensures TotalExpenses(a + b) == TotalExpenses(a) + TotalExpenses(b)
  {
    FilterAppend(a, b, IsIncome);
    SumByAppend(Filter(a, IsIncome), Filter(b, IsIncome), AmountOf);
    FilterAppend(a, b, IsExpense);
    SumByAppend(Filter(a, IsExpense), Filter(b, IsExpense), AmountOf);
  }

  /** Each transaction counts toward income if its type is "income", toward expenses if it is
      "expense", and toward neither otherwise. */
  lemma {:induction false} OneTransaction(ts: seq<Transaction>, t: Transaction)
    ensures TotalIncome(ts + [t]) == TotalIncome(ts) + (if t.kind == "income" then t.amount else 0)
    ensures TotalExpenses(ts + [t]) == TotalExpenses(ts) + (if t.kind == "expense" then t.amount else 0)
  {
    TotalsAppend(ts, [t]);
    assert Filter([t], IsIncome) == Filter([], IsIncome) + (if IsIncome(t) then [t] else []);
    assert Filter([t], IsExpense) == Filter([], IsExpense) + (if IsExpense(t) then [t] else []);
  }

  /** An empty list has all six figures 0. */
  lemma EmptySummary(now: Date)
    ensures SummaryOf([], now) == Summary(0, 0, 0, 0, 0, 0)
  {
  }

  /** The monthly figures are the totals of the sub-list dated in the current month and year. */
  lemma {:induction false} MonthlyIsSubsequence(ts: seq<Transaction>, now: Date)
    ensures var monthly := Filter(ts, InMonthOf(now));
      && SubseqOf(monthly, ts)
      && (forall t :: t in monthly <==> t in ts && t.date.month == now.month && t.date.year == now.year)
      && SummaryOf(ts, now).monthlyIncome == TotalIncome(monthly)
      && SummaryOf(ts, now).monthlyExpenses == TotalExpenses(monthly)
  {
    FilterIsSubseq(ts, InMonthOf(now));
    FilterMembers(ts, InMonthOf(now));
  }

  /** With non-negative amounts, a month never shows more income or expenses than the total. */
  lemma {:induction false} MonthlyNotAboveTotal(ts: seq<Transaction>, now: Date)
    requires forall t <- ts :: t.amount >= 0
    ensures SummaryOf(ts, now).monthlyIncome <= SummaryOf(ts, now).totalIncome
    ensures SummaryOf(ts, now).monthlyExpenses <= SummaryOf(ts, now).totalExpenses
  {
    var m := InMonthOf(now);
    FilterCommute(ts, m, IsIncome);
    FilterIsSubseq(Filter(ts, IsIncome), m);
    FilterMembers(ts, IsIncome);
    SumBySubseq(Filter(Filter(ts, IsIncome), m), Filter(ts, IsIncome), AmountOf);
    FilterCommute(ts, m, IsExpense);
    FilterIsSubseq(Filter(ts, IsExpense), m);
    FilterMembers(ts, IsExpense);
    SumBySubseq(Filter(Filter(ts, IsExpense), m), Filter(ts, IsExpense), AmountOf);
  }

  // ---- expense-by-category buckets ----

  /** The categories of `xs` in order of first appearance: the keys of the `acc` object. */
  function Categories(xs: seq<Transaction>): (r: seq<string>)
    decreases |xs|
  {
    if xs == [] then []
    else
      var rest := Categories(xs[..|xs| - 1]);
      if xs[|xs| - 1].category in rest then rest else rest + [xs[|xs| - 1].category]
  }

  /** The summed amounts of the transactions of `xs` in category `c`. */
  function CategorySum(xs: seq<Transaction>, c: string): int
    decreases |xs|
  {
    if xs == [] then 0
    else CategorySum(xs[..|xs| - 1], c) + (if xs[|xs| - 1].category == c then xs[|xs| - 1].amount else 0)
  }

  /** The chart's `labels`: the expense categories. */
  function Labels(ts: seq<Transaction>): seq<string> {
    Categories(Filter(ts, IsExpense))
  }

  /** The chart's `series`: each label's expense total. */
  function Series(ts: seq<Transaction>): (r: seq<int>)
    ensures |r| == |Labels(ts)|
  {
    var e, ls := Filter(ts, IsExpense), Labels(ts);
    seq(|ls|, i requires 0 <= i < |ls| => CategorySum(e, ls[i]))
  }

  /** `categoryData`: the reduce fills the accumulator `acc` one expense at a time; `keys` records
      its keys in insertion order, which is the order `Object.keys` and `Object.values` report. */
  method CategoryData(ts: seq<Transaction>) returns (series: seq<int>, labels: seq<string>)
    ensures labels == Labels(ts) && series == Series(ts)
  {
    var expenses := Filter(ts, IsExpense);
    var acc: map<string, int> := map[];
    var keys: seq<string> := [];
    var i := 0;
    while i < |expenses|
      invariant 0 <= i <= |expenses|
      invariant keys == Categories(expenses[..i])
      invariant forall c :: c in acc <==> c in keys
      invariant forall c :: c in acc ==> acc[c] == CategorySum(expenses[..i], c)
    {
      var t := expenses[i];
      assert expenses[..i + 1][..i] == expenses[..i];
      if t.category !in acc {
        CategorySumAbsent(expenses[..i], t.category);
        keys := keys + [t.category];
      }
      acc := acc[t.category := (if t.category in acc then acc[t.category] else 0) + t.amount];
      i := i + 1;
    }
    assert expenses[..i] == expenses;
    labels := keys;
    series := seq(|keys|, j requires 0 <= j < |keys| => acc[keys[j]]);
  }

  /** The donut chart is drawn exactly when there is at least one expense. */
  predicate ChartShown(ts: seq<Transaction>) {
    |Series(ts)| > 0
  }

  // ---- category properties ----

  /** A category is a key exactly when some transaction has it. */
  lemma {:induction false} CategoriesMembers(xs: seq<Transaction>)
    ensures forall c :: c in Categories(xs) <==> exists t :: t in xs && t.category == c
    decreases |xs|
  {
    if xs != [] {
      var init := xs[..|xs| - 1];
      CategoriesMembers(init);
      assert xs == init + [xs[|xs| - 1]];
    }
  }

  /** No category is listed twice. */
  lemma {:induction false} CategoriesDistinct(xs: seq<Transaction>)
    ensures forall i, j | 0 <= i < j < |Categories(xs)| :: Categories(xs)[i] != Categories(xs)[j]
    decreases |xs|
  {
    if xs != [] {
      CategoriesDistinct(xs[..|xs| - 1]);
    }
  }

  /** A category no transaction has sums to 0. */
  lemma {:induction false} CategorySumAbsent(xs: seq<Transaction>, c: string)
    requires c !in Categories(xs)
    ensures CategorySum(xs, c) == 0
    decreases |xs|
  {
    if xs != [] {
      var init := xs[..|xs| - 1];
      assert forall d :: d in Categories(init) ==> d in Categories(xs);
      CategorySumAbsent(init, c);
    }
  }

  /** The labels are exactly the categories of the expense transactions, each once. */
  lemma {:induction false} LabelsAreExpenseCategories(ts: seq<Transaction>)
    ensures forall c :: c in Labels(ts) <==> exists t :: t in ts && t.kind == "expense" && t.category == c
    ensures forall i, j | 0 <= i < j < |Labels(ts)| :: Labels(ts)[i] != Labels(ts)[j]
  {
    CategoriesMembers(Filter(ts, IsExpense));
    CategoriesDistinct(Filter(ts, IsExpense));
    FilterMembers(ts, IsExpense);
  }

  /** Sum over `labels` of each label's category total. */
  function SumCategories(xs: seq<Transaction>, labels: seq<string>): int
    decreases |labels|
  {
    if labels == [] then 0
    else SumCategories(xs, labels[..|labels| - 1]) + CategorySum(xs, labels[|labels| - 1])
  }

  /** Sum of a list of numbers. */
  function SumInts(s: seq<int>): int
    decreases |s|
  {
    if s == [] then 0 else SumInts(s[..|s| - 1]) + s[|s| - 1]
  }

  /** Appending one transaction adds its amount to the sum over distinct labels exactly when its
      category is among them. */
  lemma {:induction false} SumCategoriesStep(xs: seq<Transaction>, t: Transaction, labels: seq<string>)
    requires forall i, j | 0 <= i < j < |labels| :: labels[i] != labels[j]
    ensures SumCategories(xs + [t], labels) == SumCategories(xs, labels) + (if t.category in labels then t.amount else 0)
    decreases |labels|
  {
    if labels != [] {
      var init := labels[..|labels| - 1];
      SumCategoriesStep(xs, t, init);
      assert (xs + [t])[..|xs + [t]| - 1] == xs;
      assert labels == init + [labels[|labels| - 1]];
    }
  }

  /** Over all its categories, the category totals of a list add up to its total amount. */
  lemma {:induction false} CategoryTotalsAddUp(xs: seq<Transaction>)
    ensures SumCategories(xs, Categories(xs)) == SumBy(xs, AmountOf)
    decreases |xs|
  {
    if xs != [] {
      var init, t := xs[..|xs| - 1], xs[|xs| - 1];
      CategoryTotalsAddUp(init);
      CategoriesDistinct(init);
      assert xs == init + [t];
      SumCategoriesStep(init, t, Categories(init));
      if t.category !in Categories(init) {
        CategorySumAbsent(init, t.category);
        assert SumCategories(xs, Categories(xs))
            == SumCategories(xs, Categories(init)) + CategorySum(xs, t.category);
      }
    }
  }

  /** Each series entry sums to the matching label's total. */
  lemma {:induction false} SeriesSum(xs: seq<Transaction>, labels: seq<string>, series: seq<int>)
    requires |series| == |labels|
    requires forall i :: 0 <= i < |labels| ==> series[i] == CategorySum(xs, labels[i])
    ensures SumInts(series) == SumCategories(xs, labels)
    decreases |labels|
  {
    if labels != [] {
      SeriesSum(xs, labels[..|labels| - 1], series[..|series| - 1]);
    }
  }

  /** The chart's values add up to `totalExpenses`. */
  lemma SeriesAddsUpToExpenses(ts: seq<Transaction>)
    ensures SumInts(Series(ts)) == TotalExpenses(ts)
  {
    SeriesSum(Filter(ts, IsExpense), Labels(ts), Series(ts));
    CategoryTotalsAddUp(Filter(ts, IsExpense));
  }

  /** The chart is drawn exactly when some transaction is an expense. */
  lemma ChartShownIffExpense(ts: seq<Transaction>)
    ensures ChartShown(ts) <==> exists t :: t in ts && t.kind == "expense"
  {
    LabelsAreExpenseCategories(ts);
    if exists t :: t in ts && t.kind == "expense" {
      var t :| t in ts && t.kind == "expense";
      assert t.category in Labels(ts);
    }
    if ChartShown(ts) {
      assert Labels(ts)[0] in Labels(ts);
    }
  }
}
