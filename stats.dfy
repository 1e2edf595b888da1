/**
 * The statistics view: total revenue, revenue of one calendar month counting
 * completed orders only, month-over-month growth, and the completed-order count.
 */
module Stats {
  import opened Types

  /** The status code of a completed order. */
  const Completed: string := "1"

  /** Sum of the order totals, accumulated left to right as `reduce` and the loop do. */
  function SumTotals(orders: seq<Order>): (sum: int)
    ensures (forall i :: 0 <= i < |orders| ==> orders[i].total >= 0) ==> sum >= 0
    decreases |orders|
  {
    if orders == [] then 0 else SumTotals(orders[..|orders| - 1]) + orders[|orders| - 1].total
  }

  /** The `totalRevenue` loop: 0 for no orders, otherwise every total added in turn. */
  method TotalRevenue(orders: seq<Order>) returns (total: int)
    ensures total == SumTotals(orders)
  {
    total := 0;
    if |orders| > 0 {
      for i := 0 to |orders|
        invariant total == SumTotals(orders[..i])
      {
        assert orders[..i + 1][..i] == orders[..i];
        total := total + orders[i].total;
      }
      assert orders[..|orders|] == orders;
    }
  }

  /** Months counted from year 0, so that consecutive months differ by one. */
  function MonthIndex(d: OrderDate): int {
    d.year * 12 + d.month
  }

  /** The month before `d`: January rolls back to December of the previous year. */
  function PreviousMonth(d: OrderDate): (r: OrderDate)
    ensures MonthIndex(r) == MonthIndex(d) - 1
  {
    if d.month == 0 then OrderDate(d.year - 1, 11) else OrderDate(d.year, d.month - 1)
  }

  /** Month indices identify months: the rollover is the only month one step back. */
  lemma MonthIndexInjective(a: OrderDate, b: OrderDate)
    requires MonthIndex(a) == MonthIndex(b)
    ensures a == b
  {
  }

  /** The rollover: month 0 goes to 11 of the year before, any other month to the one before it in the same year. */
  lemma PreviousMonthRollover(d: OrderDate)
    ensures d.month == 0 ==> PreviousMonth(d) == OrderDate(d.year - 1, 11)
    ensures d.month != 0 ==> PreviousMonth(d) == OrderDate(d.year, d.month - 1)
  {
    var e := if d.month == 0 then OrderDate(d.year - 1, 11) else OrderDate(d.year, d.month - 1);
    MonthIndexInjective(PreviousMonth(d), e);
  }

  /** An order counts towards the revenue of month `d` when it is completed and dated in that month. */
  predicate CompletedIn(o: Order, d: OrderDate) {
    o.status == Completed && o.date.month == d.month && o.date.year == d.year
  }

  /** The `filter` step of `getRevenueByMonth`. */
  function CompletedOrdersIn(orders: seq<Order>, d: OrderDate): (r: seq<Order>)
    ensures |r| <= |orders|
    ensures forall o :: o in r <==> o in orders && CompletedIn(o, d)
    decreases |orders|
  {
    if orders == [] then []
    else
      var rest := CompletedOrdersIn(orders[..|orders| - 1], d);
      var last := orders[|orders| - 1];
      if CompletedIn(last, d) then rest + [last] else rest
  }

  /** `getRevenueByMonth(orders, month, year)`. */
  function RevenueByMonth(orders: seq<Order>, d: OrderDate): int {
    SumTotals(CompletedOrdersIn(orders, d))
  }

  lemma {:induction false} SumTotalsAppend(a: seq<Order>, b: seq<Order>)
    ensures SumTotals(a + b) == SumTotals(a) + SumTotals(b)
    decreases |b|
  {
    if b != [] {
      var b' := b[..|b| - 1];
      assert (a + b)[..|a + b| - 1] == a + b';
      SumTotalsAppend(a, b');
    } else {
      assert a + b == a;
    }
  }

  lemma {:induction false} CompletedOrdersAppend(a: seq<Order>, b: seq<Order>, d: OrderDate)
    ensures CompletedOrdersIn(a + b, d) == CompletedOrdersIn(a, d) + CompletedOrdersIn(b, d)
    decreases |b|
  {
    if b != [] {
      var b' := b[..|b| - 1];
      assert (a + b)[..|a + b| - 1] == a + b';
      CompletedOrdersAppend(a, b', d);
    } else {
      assert a + b == a;
    }
  }

  /**
   * Revenue of a month is additive over concatenation and an order
   * contributes its total exactly when it is completed in that month: so it
   * is the sum over exactly the matching orders.
   */
  lemma RevenueByMonthAdditive(a: seq<Order>, b: seq<Order>, d: OrderDate)
    ensures RevenueByMonth(a + b, d) == RevenueByMonth(a, d) + RevenueByMonth(b, d)
  {
    CompletedOrdersAppend(a, b, d);
    SumTotalsAppend(CompletedOrdersIn(a, d), CompletedOrdersIn(b, d));
  }

  lemma RevenueByMonthSingle(o: Order, d: OrderDate)
    ensures RevenueByMonth([o], d) == if CompletedIn(o, d) then o.total else 0
  {
    assert [o][..0] == [];
    if CompletedIn(o, d) {
      assert CompletedOrdersIn([o], d) == [o];
      assert SumTotals([o]) == SumTotals([]) + o.total;
    } else {
      assert CompletedOrdersIn([o], d) == [];
    }
  }

  /** With no completed order in the month, its revenue is 0. */
  lemma {:induction false} RevenueWithoutMatches(orders: seq<Order>, d: OrderDate)
    requires forall i :: 0 <= i < |orders| ==> !CompletedIn(orders[i], d)
    ensures RevenueByMonth(orders, d) == 0
    decreases |orders|
  {
    if orders != [] {
      var init := orders[..|orders| - 1];
      RevenueWithoutMatches(init, d);
    }
  }

  /** With non-negative totals, one month's revenue never exceeds the total revenue. */
  lemma {:induction false} RevenueAtMostTotal(orders: seq<Order>, d: OrderDate)
    requires forall i :: 0 <= i < |orders| ==> orders[i].total >= 0
    ensures 0 <= RevenueByMonth(orders, d) <= SumTotals(orders)
    decreases |orders|
  {
    if orders != [] {
      var init := orders[..|orders| - 1];
      RevenueAtMostTotal(init, d);
      var last := orders[|orders| - 1];
      assert RevenueByMonth(orders, d) == RevenueByMonth(init, d) + (if CompletedIn(last, d) then last.total else 0) by {
        RevenueByMonthAdditive(init, [last], d);
        RevenueByMonthSingle(last, d);
        assert init + [last] == orders;
      }
    }
  }

  /** `deliveredOrdersCount`: how many orders carry the completed status. */
  function DeliveredOrdersCount(orders: seq<Order>): (n: nat)
    ensures n <= |orders|
    decreases |orders|
  {
    if orders == [] then 0
    else DeliveredOrdersCount(orders[..|orders| - 1]) + (if orders[|orders| - 1].status == Completed then 1 else 0)
  }

  /** Every order is counted exactly when every order is completed. */
  lemma {:induction false} DeliveredCountsAll(orders: seq<Order>)
    ensures DeliveredOrdersCount(orders) == |orders| <==> forall i :: 0 <= i < |orders| ==> orders[i].status == Completed
    decreases |orders|
  {
    if orders != [] {
      var init := orders[..|orders| - 1];
      DeliveredCountsAll(init);
      assert forall i :: 0 <= i < |init| ==> init[i] == orders[i];
    }
  }

  /** `monthlyGrowthRate`: the percentage change, or 0 when last month's revenue is 0. */
  function GrowthRate(current: int, last: int): (rate: real)
    ensures last == 0 ==> rate == 0.0
  {
    if last != 0 then ((current - last) as real / last as real) * 100.0 else 0.0
  }

  /** The sign the view prints in front of the growth figure. */
  function GrowthSign(rate: real): char {
    if rate >= 0.0 then '+' else '-'
  }

  /** With a positive last month, the view shows `+` exactly when revenue did not fall. */
  lemma GrowthSignTracksRevenue(current: int, last: int)
    requires last > 0
    ensures GrowthSign(GrowthRate(current, last)) == '+' <==> current >= last
  {
    var q := (current - last) as real / last as real;
    assert q * last as real == (current - last) as real;
    if current >= last {
      assert q >= 0.0;
    } else {
      assert q < 0.0;
    }
  }

  /** The two worked cases: no revenue last month reports 0, and 100 to 150 reports +50. */
  lemma GrowthExamples()
    ensures GrowthRate(100, 0) == 0.0
    ensures GrowthRate(150, 100) == 50.0 && GrowthSign(GrowthRate(150, 100)) == '+'
  {
  }

  /** The figures the statistics view displays. */
  datatype Panel = Panel(
    headlineRevenue: int,
    growthRate: real,
    growthSign: char,
    deliveredOrders: nat,
    customerCount: nat)

  /** The view for the given orders and customer count, rendered on a day in month `today`. */
  function StatsPanel(orders: seq<Order>, customerCount: nat, today: OrderDate): (p: Panel)
    ensures p.headlineRevenue == RevenueByMonth(orders, today)
    ensures p.growthRate == GrowthRate(p.headlineRevenue, RevenueByMonth(orders, PreviousMonth(today)))
    ensures p.growthSign == '+' <==> p.growthRate >= 0.0
    ensures RevenueByMonth(orders, PreviousMonth(today)) > 0 ==>
      (p.growthSign == '+' <==> p.headlineRevenue >= RevenueByMonth(orders, PreviousMonth(today)))
    ensures p.deliveredOrders == DeliveredOrdersCount(orders)
    ensures p.customerCount == customerCount
  {
    var current := RevenueByMonth(orders, today);
    var last := RevenueByMonth(orders, PreviousMonth(today));
    var rate := GrowthRate(current, last);
    if last > 0 then
      GrowthSignTracksRevenue(current, last);
      Panel(current, rate, GrowthSign(rate), DeliveredOrdersCount(orders), customerCount)
    else
      Panel(current, rate, GrowthSign(rate), DeliveredOrdersCount(orders), customerCount)
  }

  /**
   * The headline figure is the current month's completed revenue, not the
   * total revenue: one completed order from last month shows 0 although the
   * total is 100.
   */
  lemma HeadlineIsNotTotalRevenue()
    ensures
      var o := Order("a", UserRef("u", "n"), OrderDate(2024, 4), 100, Completed, []);
      StatsPanel([o], 0, OrderDate(2024, 5)).headlineRevenue == 0 && SumTotals([o]) == 100
  {
    var o := Order("a", UserRef("u", "n"), OrderDate(2024, 4), 100, Completed, []);
    RevenueByMonthSingle(o, OrderDate(2024, 5));
    assert [o][..0] == [];
  }
}
