/**
 * The Dashboard page: the four stat cards, the profit trend, and the "recent crops" list,
 * which sorts the page's own crop list in place before taking its first five entries.
 */
module Dashboard {
  import opened Dates
  import opened Records
  import opened Lists
  import opened Sorting
  import FinancialSummary

  datatype Stats = Stats(totalFarms: nat, totalCrops: nat, activeTasks: nat, netProfit: int)

  predicate IsOpen(t: Task) { !t.completed }

  /** `calculateStats`. */
  function StatsOf(farms: seq<Farm>, crops: seq<Crop>, upcoming: seq<Task>, ts: seq<Transaction>): (s: Stats)
    ensures s.totalFarms == |farms| && s.totalCrops == |crops|
    ensures s.activeTasks == CountWhere(upcoming, IsOpen) && s.activeTasks <= |upcoming|
  {
    FilterCount(upcoming, IsOpen);
    Stats(|farms|, |crops|, |Filter(upcoming, IsOpen)|,
          FinancialSummary.TotalIncome(ts) - FinancialSummary.TotalExpenses(ts))
  }

  /** The Net Profit card's trend: positive, and labelled "Profitable", exactly when the profit is
      not negative; otherwise "Loss". */
  function Trend(netProfit: int): (r: (bool, string))
    ensures r.0 <==> netProfit >= 0
    ensures r.1 == (if r.0 then "Profitable" else "Loss")
  {
    if netProfit >= 0 then (true, "Profitable") else (false, "Loss")
  }

  /** The comparator `new Date(b.plantingDate) - new Date(a.plantingDate)`: newest first. */
  function NewestFirst(): (Crop, Crop) -> int {
    (a: Crop, b: Crop) => Compare(b.plantingDate, a.plantingDate)
  }

  /** The crop list after `crops.sort(...)`. */
  function SortedByPlanting(crops: seq<Crop>): (r: seq<Crop>)
    ensures multiset(r) == multiset(crops) && |r| == |crops|
  {
    SortWith(crops, NewestFirst())
  }

  /** `.slice(0, 5)`. */
  function FirstFive(cs: seq<Crop>): (r: seq<Crop>)
    ensures |r| == if |cs| < 5 then |cs| else 5
  {
    if |cs| < 5 then cs else cs[..5]
  }

  /** The page's state: the lists `loadDashboardData` stored. */
  class DashboardData {
    var farms: seq<Farm>
    var crops: seq<Crop>
    var upcomingTasks: seq<Task>
    var transactions: seq<Transaction>

    constructor (farms: seq<Farm>, crops: seq<Crop>, upcomingTasks: seq<Task>, transactions: seq<Transaction>)
      ensures this.farms == farms && this.crops == crops
      ensures this.upcomingTasks == upcomingTasks && this.transactions == transactions
    {
      this.farms := farms;
      this.crops := crops;
      this.upcomingTasks := upcomingTasks;
      this.transactions := transactions;
    }

    /** `getRecentCrops`: sorts the stored crop list itself, then returns its first five. */
    method RecentCrops() returns (recent: seq<Crop>)
      modifies this
      ensures crops == SortedByPlanting(old(crops))
      ensures recent == FirstFive(crops)
      ensures farms == old(farms) && upcomingTasks == old(upcomingTasks) && transactions == old(transactions)
    {
      crops := SortedByPlanting(crops);
      recent := FirstFive(crops);
    }
  }

  // ---- properties ----

  /** The net profit on the dashboard is the financial summary's total profit. */
  lemma NetProfitMatchesSummary(farms: seq<Farm>, crops: seq<Crop>, upcoming: seq<Task>, ts: seq<Transaction>, now: Date)
    ensures StatsOf(farms, crops, upcoming, ts).netProfit == FinancialSummary.SummaryOf(ts, now).totalProfit
  {
  }

  /** When every upcoming task is open (as `getUpcoming` asks the store for), all of them count
      as active. */
  lemma {:induction false} AllUpcomingActive(farms: seq<Farm>, crops: seq<Crop>, upcoming: seq<Task>, ts: seq<Transaction>)
    requires forall t <- upcoming :: !t.completed
    ensures StatsOf(farms, crops, upcoming, ts).activeTasks == |upcoming|
  {
    FilterAll(upcoming, IsOpen);
  }

  /** "a may precede b" under the comparator: a was planted no earlier than b. */
  lemma NewestFirstLe(a: Crop, b: Crop)
    ensures LeOf(NewestFirst())(a, b) == NotAfter(b.plantingDate, a.plantingDate)
  {
  }

  /** `crops.sort(...)` orders the crops newest first. */
  lemma {:induction false} SortedNewestFirst(crops: seq<Crop>)
    ensures var s := SortedByPlanting(crops);
      forall i, j | 0 <= i < j < |s| :: NotAfter(s[j].plantingDate, s[i].plantingDate)
  {
    var le := LeOf(NewestFirst());
    forall a, b, c | a in crops && b in crops && c in crops
      ensures le(a, b) || le(b, a)
      ensures le(a, b) && le(b, c) ==> le(a, c)
    {
      NewestFirstLe(a, b);
      NewestFirstLe(b, a);
      NewestFirstLe(b, c);
      NewestFirstLe(a, c);
      BeforeIsStrictTotalOrder(a.plantingDate, b.plantingDate, c.plantingDate);
      BeforeIsStrictTotalOrder(c.plantingDate, b.plantingDate, a.plantingDate);
    }
    SortWithSorted(crops, NewestFirst());
    var s := SortedByPlanting(crops);
    forall i, j | 0 <= i < j < |s| ensures NotAfter(s[j].plantingDate, s[i].plantingDate) {
      NewestFirstLe(s[i], s[j]);
    }
  }

  /** In a list sorted newest first, nothing after the first `k` was planted later than
      anything among them. */
  lemma {:induction false} PrefixIsNewest(s: seq<Crop>, k: nat)
    requires k <= |s|
    requires forall i, j | 0 <= i < j < |s| :: NotAfter(s[j].plantingDate, s[i].plantingDate)
    ensures forall c, x | c in multiset(s) - multiset(s[..k]) && x in s[..k] :: NotAfter(c.plantingDate, x.plantingDate)
  {
    assert s == s[..k] + s[k..];
    assert multiset(s) - multiset(s[..k]) == multiset(s[k..]);
    forall c, x | c in multiset(s) - multiset(s[..k]) && x in s[..k]
      ensures NotAfter(c.plantingDate, x.plantingDate)
    {
      var j :| 0 <= j < |s[k..]| && s[k..][j] == c;
      var i :| 0 <= i < k && s[..k][i] == x;
      assert s[k + j] == c && s[i] == x;
    }
  }

  /** The recent crops are sorted newest first, at most five, and no crop left out was planted
      later than any crop shown. */
  lemma {:induction false} RecentAreMostRecent(crops: seq<Crop>)
    ensures var r := FirstFive(SortedByPlanting(crops));
      && |r| <= 5
      && (forall i, j | 0 <= i < j < |r| :: NotAfter(r[j].plantingDate, r[i].plantingDate))
      && (forall c, x | c in multiset(crops) - multiset(r) && x in r :: NotAfter(c.plantingDate, x.plantingDate))
  {
    var s := SortedByPlanting(crops);
    var r := FirstFive(s);
    SortedNewestFirst(crops);
    assert r == s[..|r|];
    PrefixIsNewest(s, |r|);
  }
}
