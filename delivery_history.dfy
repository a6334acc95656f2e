/**
 * The courier's history page: the courier's delivered orders newest first, the total
 * and average commission, and the commission per day with the chart that lists the
 * days the other way round.
 */
module DeliveryHistory {
  import opened Common
  import opened Seqs
  import opened Tally
  import opened Domain
  import opened AvailableOrders
  import opened ActiveDeliveries
  import opened OrderManagement

  /** The orders a courier has delivered. */
  function DeliveredBy(courierId: string): Order -> bool {
    (o: Order) => o.courierId == Some(courierId) && o.status == Delivered
  }

  /** `completedDeliveries`: exactly the courier's delivered orders, newest first; none
      when the courier is unknown. */
  function CompletedDeliveries(orders: seq<Order>, courier: Option<Courier>): (r: seq<Order>)
    ensures courier.None? ==> r == []
    ensures courier.Some? ==> multiset(r) == multiset(Filter(orders, DeliveredBy(courier.value.id)))
    ensures forall o :: o in r <==> courier.Some? && o in orders && o.courierId == Some(courier.value.id) && o.status == Delivered
    ensures SortedDesc(r, CreatedAtKey)
  {
    if courier.None? then []
    else
      var mine := Filter(orders, DeliveredBy(courier.value.id));
      var r := SortDesc(mine, CreatedAtKey);
      assert forall o :: o in r <==> o in multiset(mine);
      r
  }

  function Price(o: Order): real {
    o.totalPrice
  }

  /** `totalEarnings`: the commissions of the deliveries added up. */
  function TotalEarnings(done: seq<Order>): real {
    Sum(done, CommissionOf)
  }

  /** The earnings are 15% of the value of the orders delivered. */
  lemma {:induction false} EarningsAreFifteenPercent(done: seq<Order>)
    ensures TotalEarnings(done) * 100.0 == Sum(done, Price) * 15.0
    decreases |done|
  {
    if done != [] {
      EarningsAreFifteenPercent(done[1..]);
      assert Commission(done[0].totalPrice) * 100.0 == done[0].totalPrice * 15.0;
    }
  }

  /** A courier whose counters started empty and who completed the deliveries `done`,
      each once, in any order, has counters that agree with the history page: as many
      deliveries as it lists and the same total earnings. */
  lemma CountersMatchHistory(c: Courier, orders: seq<Order>, done: seq<Order>)
    requires c.totalDeliveries.None? && c.earnings.None?
    requires multiset(done) == multiset(CompletedDeliveries(orders, Some(c)))
    requires done != []
    ensures CreditAll(c, done).totalDeliveries == Some(|CompletedDeliveries(orders, Some(c))|)
    ensures CreditAll(c, done).earnings == Some(TotalEarnings(CompletedDeliveries(orders, Some(c))))
  {
    CountersAddUp(c, done);
    SumPermutation(done, CompletedDeliveries(orders, Some(c)), CommissionOf);
    assert |multiset(done)| == |multiset(CompletedDeliveries(orders, Some(c)))|;
  }

  /** `earningsByDay`: commission per day, days in the order they first occur in the
      list; `day` is the date text of a timestamp. */
  function EarningsByDay(done: seq<Order>, day: Order -> string): Entries<string> {
    Tally.Tally(Pairs(done, day, CommissionOf))
  }

  /** Each day with a delivery is listed once, reads the commissions of that day's
      deliveries, and the days together add up to the total earnings. */
  lemma DaysAddUp(done: seq<Order>, day: Order -> string)
    ensures DistinctKeys(EarningsByDay(done, day))
    ensures forall d :: d in Keys(EarningsByDay(done, day)) <==> exists o :: o in done && day(o) == d
    ensures forall d :: Lookup(EarningsByDay(done, day), d) == TotalEarnings(Filter(done, KeyIs(day, d)))
    ensures Total(EarningsByDay(done, day)) == TotalEarnings(done)
  {
    var ps := Pairs(done, day, CommissionOf);
    TallyFacts(ps);
    KeysOfPairs(done, day, CommissionOf);
    TotalOfPairs(done, day, CommissionOf);
    forall d
      ensures Lookup(EarningsByDay(done, day), d) == TotalEarnings(Filter(done, KeyIs(day, d)))
    {
      WeightOfPairs(done, day, CommissionOf, d);
    }
  }

  /** `chartData`: the days in reverse order. */
  function ChartData(done: seq<Order>, day: Order -> string): (r: Entries<string>)
    ensures |r| == |EarningsByDay(done, day)|
    ensures forall i :: 0 <= i < |r| ==> r[i] == EarningsByDay(done, day)[|r| - 1 - i]
  {
    Reverse(EarningsByDay(done, day))
  }

  /** The chart shows every day once and, before rounding, the total earnings. */
  lemma ChartShowsAll(done: seq<Order>, day: Order -> string)
    ensures DistinctKeys(ChartData(done, day))
    ensures Total(ChartData(done, day)) == TotalEarnings(done)
  {
    var t := EarningsByDay(done, day);
    assert DistinctKeys(t) && Total(t) == TotalEarnings(done) by {
      DaysAddUp(done, day);
    }
    SumReverse(t, Value);
    ReversedKeysDistinct(t);
  }

  /** The three cards. */
  datatype Cards = Cards(totalEarnings: real, totalDeliveries: nat, averageEarning: real)

  /** The cards of the page: the earnings over the listed deliveries, their number, and
      the average commission per delivery (0 with none). */
  function HistoryCards(orders: seq<Order>, courier: Option<Courier>): (c: Cards)
    ensures var done := CompletedDeliveries(orders, courier);
      && c.totalDeliveries == |done|
      && c.totalEarnings * 100.0 == Sum(done, Price) * 15.0
      && c.averageEarning == Average(c.totalEarnings, c.totalDeliveries)
    ensures courier.None? ==> c == Cards(0.0, 0, 0.0)
  {
    var done := CompletedDeliveries(orders, courier);
    EarningsAreFifteenPercent(done);
    var total := TotalEarnings(done);
    Cards(total, |done|, Average(total, |done|))
  }
}
