/** The admin dashboard's chart data: the pie chart's status slices and the
    revenue line's running total over the recent orders, oldest first. */
module AdminDashboard {
  import opened Sequences

  datatype OrderStatus = PENDING | CONFIRMED | SHIPPED | CANCELLED

  /** The parts of an order the charts read. */
  datatype Order = Order(id: string, totalAmount: int, status: OrderStatus, createdAt: string)

  // ---------------------------------------------------------------------
  // orderStatusData
  // ---------------------------------------------------------------------

  /** A pie slice `{ name, value }`. */
  datatype Slice = Slice(name: string, value: int)

  /** `Object.entries(orderStatusCounts)`: the status counts as key/count
      pairs in the object's key order. */
  type StatusCounts = seq<(string, int)>

  predicate UniqueNames(entries: StatusCounts) {
    forall i, j | 0 <= i < j < |entries| :: entries[i].0 != entries[j].0
  }

  /** The count recorded for `status` (the first entry with that key). */
  function CountOf(entries: StatusCounts, status: string): int {
    if entries == [] then 0
    else if entries[0].0 == status then entries[0].1
    else CountOf(entries[1..], status)
  }

  /** The `map` from each `[status, count]` entry to a slice. */
  function StatusData(entries: StatusCounts): (r: seq<Slice>)
    ensures |r| == |entries|
    ensures forall i | 0 <= i < |r| :: r[i].name == entries[i].0
  {
    seq(|entries|, i requires 0 <= i < |entries| => Slice(entries[i].0, entries[i].1))
  }

  /** One slice per status key, in key order, whose value is that status's
      count; no two slices share a name. */
  lemma {:induction false} SliceValueIsCount(entries: StatusCounts, i: int)
    requires UniqueNames(entries) && 0 <= i < |entries|
    ensures StatusData(entries)[i].value == CountOf(entries, entries[i].0)
    ensures forall j | 0 <= j < |entries| && j != i :: StatusData(entries)[j].name != StatusData(entries)[i].name
  {
    if i > 0 {
      var tail := entries[1..];
      assert UniqueNames(tail) by {
        forall a, b | 0 <= a < b < |tail| ensures tail[a].0 != tail[b].0 {
          assert tail[a] == entries[a + 1] && tail[b] == entries[b + 1];
        }
      }
      SliceValueIsCount(tail, i - 1);
      assert entries[0].0 != entries[i].0;
      assert tail[i - 1] == entries[i];
      assert StatusData(tail)[i - 1] == StatusData(entries)[i];
    }
  }

  /** The slices carry every entry unchanged: reading them back as
      `[name, value]` pairs gives the entries again. */
  lemma SlicesRoundTrip(entries: StatusCounts)
    ensures seq(|entries|, j requires 0 <= j < |entries| => (StatusData(entries)[j].name, StatusData(entries)[j].value)) == entries
  {
  }

  // ---------------------------------------------------------------------
  // revenueData
  // ---------------------------------------------------------------------

  /** A point `{ date, revenue }` of the revenue line. */
  datatype RevenuePoint = RevenuePoint(date: string, revenue: int)

  /** The sum of the amounts, added from the first order on: 0 for no
      orders, the one amount for a single order. */
  function AmountSum(orders: seq<Order>): (r: int)
    ensures orders == [] ==> r == 0
    ensures |orders| == 1 ==> r == orders[0].totalAmount
  {
    if orders == [] then 0 else AmountSum(orders[..|orders| - 1]) + orders[|orders| - 1].totalAmount
  }

  /** The revenue line the dashboard draws: the orders taken in reversed
      order, point `i` carrying the `i`-th order's date (through the date
      formatter) and the total of the first `i + 1` amounts. */
  function RevenueSeries(orders: seq<Order>, formatDate: string -> string): (r: seq<RevenuePoint>)
    ensures |r| == |orders|
    ensures forall i | 0 <= i < |r| :: r[i].date == formatDate(orders[|orders| - 1 - i].createdAt)
  {
    Points(Reversed(orders), formatDate)
  }

  /** The `map` with the running total over orders already in drawing order. */
  function Points(ordered: seq<Order>, formatDate: string -> string): (r: seq<RevenuePoint>)
    ensures |r| == |ordered|
    ensures forall i | 0 <= i < |r| :: r[i].date == formatDate(ordered[i].createdAt)
  {
    seq(|ordered|, i requires 0 <= i < |ordered| => RevenuePoint(formatDate(ordered[i].createdAt), AmountSum(ordered[..i + 1])))
  }

  /** Adding the amounts from the front gives the same sum. */
  lemma {:induction false} AmountSumFront(orders: seq<Order>)
    requires orders != []
    ensures AmountSum(orders) == orders[0].totalAmount + AmountSum(orders[1..])
    decreases |orders|
  {
    if |orders| > 1 {
      var init := orders[..|orders| - 1];
      AmountSumFront(init);
      assert init[1..] == orders[1..][..|orders[1..]| - 1];
    } else {
      assert orders[..0] == [] && orders[1..] == [];
    }
  }

  /** Reversing the orders does not change the sum of their amounts. */
  lemma {:induction false} AmountSumReversed(orders: seq<Order>)
    ensures AmountSum(Reversed(orders)) == AmountSum(orders)
    decreases |orders|
  {
    if orders != [] {
      var rev := Reversed(orders);
      var tail := orders[1..];
      AmountSumReversed(tail);
      assert rev[..|rev| - 1] == Reversed(tail);
      AmountSumFront(orders);
    }
  }

  /** The last point of the line is the sum of all the amounts. */
  lemma LastIsTotal(orders: seq<Order>, formatDate: string -> string)
    requires orders != []
    ensures RevenueSeries(orders, formatDate)[|orders| - 1].revenue == AmountSum(orders)
  {
    PointsEndAtTotal(Reversed(orders), formatDate);
    AmountSumReversed(orders);
  }

  /** The last running total is the sum of all the amounts. */
  lemma PointsEndAtTotal(ordered: seq<Order>, formatDate: string -> string)
    requires ordered != []
    ensures Points(ordered, formatDate)[|ordered| - 1].revenue == AmountSum(ordered)
  {
    assert ordered[..|ordered|] == ordered;
  }

  /** With amounts that are never negative, the line never goes down. */
  lemma NonDecreasing(orders: seq<Order>, formatDate: string -> string, i: int, j: int)
    requires forall k | 0 <= k < |orders| :: orders[k].totalAmount >= 0
    requires 0 <= i <= j < |orders|
    ensures RevenueSeries(orders, formatDate)[i].revenue <= RevenueSeries(orders, formatDate)[j].revenue
  {
    var reversed := Reversed(orders);
    forall k | 0 <= k < |reversed| ensures reversed[k].totalAmount >= 0 {
      assert reversed[k] == orders[|orders| - 1 - k];
    }
    PrefixSumGrows(reversed, i + 1, j + 1);
    assert RevenueSeries(orders, formatDate) == Points(reversed, formatDate);
    assert Points(reversed, formatDate)[i].revenue == AmountSum(reversed[..i + 1]);
    assert Points(reversed, formatDate)[j].revenue == AmountSum(reversed[..j + 1]);
  }

  lemma {:induction false} PrefixSumGrows(s: seq<Order>, m: int, n: int)
    requires forall k | 0 <= k < |s| :: s[k].totalAmount >= 0
    requires 0 <= m <= n <= |s|
    ensures AmountSum(s[..m]) <= AmountSum(s[..n])
    decreases n - m
  {
    if m < n {
      PrefixSumGrows(s, m, n - 1);
      assert s[..n][..n - 1] == s[..n - 1];
    }
  }

  /** `reverse()`: reverses the array in place. */
  method ReverseInPlace(a: array<Order>)
    modifies a
    ensures a[..] == Reversed(old(a[..]))
  {
    ghost var original := a[..];
    var n := a.Length;
    var lo, hi := 0, n - 1;
    while lo < hi
      invariant 0 <= lo <= n && -1 <= hi < n && lo + hi == n - 1
      invariant forall k | 0 <= k < lo :: a[k] == original[n - 1 - k]
      invariant forall k | hi < k < n :: a[k] == original[n - 1 - k]
      invariant forall k | lo <= k <= hi :: a[k] == original[k]
    {
      a[lo], a[hi] := a[hi], a[lo];
      lo, hi := lo + 1, hi - 1;
    }
    assert forall k | 0 <= k < n :: a[k] == original[n - 1 - k];
  }

  /** The `map` callback run over the reversed copy: each point adds the
      order's amount to `runningTotal`. */
  method Accumulate(ordered: array<Order>, formatDate: string -> string) returns (data: seq<RevenuePoint>)
    ensures data == Points(ordered[..], formatDate)
  {
    var runningTotal := 0;
    data := [];
    for i := 0 to ordered.Length
      invariant |data| == i
      invariant runningTotal == AmountSum(ordered[..i])
      invariant forall k | 0 <= k < i :: data[k] == RevenuePoint(formatDate(ordered[k].createdAt), AmountSum(ordered[..k + 1]))
    {
      assert ordered[..i + 1][..i] == ordered[..i];
      assert AmountSum(ordered[..i + 1]) == AmountSum(ordered[..i]) + ordered[i].totalAmount;
      runningTotal := runningTotal + ordered[i].totalAmount;
      data := data + [RevenuePoint(formatDate(ordered[i].createdAt), runningTotal)];
    }
  }

  /** The `revenueData` computation: `recentOrders.slice()` copies the
      orders into a fresh array, `reverse()` reverses that copy in place,
      and `map` accumulates `runningTotal` over it. The orders passed in
      are left as they were. */
  method RevenueData(recentOrders: array<Order>, formatDate: string -> string) returns (data: seq<RevenuePoint>)
    ensures data == RevenueSeries(recentOrders[..], formatDate)
  {
    var n := recentOrders.Length;
    var copy := new Order[n](i requires 0 <= i < n reads recentOrders => recentOrders[i]);
    assert copy[..] == recentOrders[..];
    ReverseInPlace(copy);
    data := Accumulate(copy, formatDate);
  }
}
