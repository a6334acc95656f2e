/**
 * The business's statistics page: revenue from delivered orders, the order count and
 * average order value, units sold per product name with the five best sellers, and the
 * orders counted per status.
 */
module BusinessStats {
  import opened Common
  import opened Seqs
  import opened Tally
  import opened Domain

  /** `businesses.find(b => b.id === user?.id)`. */
  function OwnBusiness(businesses: seq<Business>, user: Option<string>): (b: Option<Business>)
    ensures b.Some? ==> user.Some? && b.value in businesses && b.value.id == user.value
    ensures user.Some? && (exists x :: x in businesses && x.id == user.value) ==> b.Some?
  {
    if user.None? then None else Find(businesses, (x: Business) => x.id == user.value)
  }

  /** `businessOrders`: the business's orders in stored order; none without a business. */
  function OrdersOf(orders: seq<Order>, business: Option<Business>): (r: seq<Order>)
    ensures business.None? ==> r == []
    ensures forall o :: o in r <==> business.Some? && o in orders && o.businessId == business.value.id
    ensures |r| <= |orders|
    ensures Subsequence(r, orders)
  {
    if business.None? then []
    else
      var ofBusiness := (o: Order) => o.businessId == business.value.id;
      FilterIsSubsequence(orders, ofBusiness);
      Filter(orders, ofBusiness)
  }

  function Price(o: Order): real {
    o.totalPrice
  }

  predicate IsDelivered(o: Order) {
    o.status == Delivered
  }

  /** `totalRevenue`: what the delivered orders add up to. */
  function Revenue(orders: seq<Order>): real {
    Sum(Filter(orders, IsDelivered), Price)
  }

  /** One more order adds its price to the revenue if it is delivered, and nothing
      otherwise. */
  lemma RevenueOfOneMore(orders: seq<Order>, o: Order)
    ensures Revenue(orders + [o]) == Revenue(orders) + (if o.status == Delivered then o.totalPrice else 0.0)
  {
    FilterConcat(orders, [o], IsDelivered);
    SumConcat(Filter(orders, IsDelivered), Filter([o], IsDelivered), Price);
    assert [o][1..] == [];
  }

  /** With no negative prices, the revenue is at least 0 and at most what all the
      orders add up to. */
  lemma {:induction false} RevenueBounds(orders: seq<Order>)
    requires forall o :: o in orders ==> o.totalPrice >= 0.0
    ensures 0.0 <= Revenue(orders) <= Sum(orders, Price)
    decreases |orders|
  {
    if orders != [] {
      RevenueBounds(orders[1..]);
      var head := if IsDelivered(orders[0]) then [orders[0]] else [];
      assert Filter(orders, IsDelivered) == head + Filter(orders[1..], IsDelivered);
      SumConcat(head, Filter(orders[1..], IsDelivered), Price);
      assert head != [] ==> head[1..] == [];
    }
  }

  /** The average divides the delivered revenue by every order, delivered or not; with
      prices in `[0, hi]` it stays in `[0, hi]`. */
  lemma AverageAtMostHighest(orders: seq<Order>, hi: real)
    requires hi >= 0.0
    requires forall o :: o in orders ==> 0.0 <= o.totalPrice <= hi
    ensures 0.0 <= Average(Revenue(orders), |orders|) <= hi
  {
    if |orders| > 0 {
      RevenueAtMost(orders, hi);
      DivideAtMost(Revenue(orders), |orders| as real, hi);
      assert Average(Revenue(orders), |orders|) == Revenue(orders) / |orders| as real;
    }
  }

  lemma RevenueAtMost(orders: seq<Order>, hi: real)
    requires forall o :: o in orders ==> 0.0 <= o.totalPrice <= hi
    ensures 0.0 <= Revenue(orders) <= |orders| as real * hi
  {
    RevenueBounds(orders);
    SumBounds(orders, Price, 0.0, hi);
  }

  lemma DivideAtMost(r: real, n: real, hi: real)
    requires n > 0.0 && 0.0 <= r <= n * hi
    ensures 0.0 <= r / n <= hi
  {
    assert (n * hi) / n == hi;
  }

  /** `orders.flatMap(o => o.items)`. */
  function Items(orders: seq<Order>): (r: seq<Line>)
    ensures forall l :: l in r <==> exists o :: o in orders && l in o.items
    decreases |orders|
  {
    if orders == [] then []
    else
      var rest := Items(orders[1..]);
      assert forall o :: o in orders[1..] ==> o in orders;
      assert forall o :: o in orders ==> o == orders[0] || o in orders[1..];
      orders[0].items + rest
  }

  /** `flatMap` concatenates: the lines of two order lists in a row are the lines of the
      first followed by those of the second, and one order contributes exactly its own
      lines, each as often as it appears. */
  lemma {:induction false} ItemsFlatten(a: seq<Order>, b: seq<Order>, o: Order)
    ensures Items(a + b) == Items(a) + Items(b)
    ensures Items([o]) == o.items
    decreases |a|
  {
    assert Items([o]) == o.items + Items([]);
    if a == [] {
      assert a + b == b;
    } else {
      ItemsFlatten(a[1..], b, o);
      assert (a + b)[1..] == a[1..] + b;
    }
  }

  function LineName(l: Line): string {
    l.name
  }

  function LineQuantity(l: Line): real {
    l.quantity as real
  }

  /** `productsSold`: units per product name, names in the order they first sell. */
  function ProductsSold(orders: seq<Order>): Entries<string> {
    Tally.Tally(Pairs(Items(orders), LineName, LineQuantity))
  }

  /** Each name that was sold is listed once and no other, with the units of every line
      under that name added up, and the listed units add up to all units sold. */
  lemma ProductsSoldFacts(orders: seq<Order>)
    ensures DistinctKeys(ProductsSold(orders))
    ensures forall n :: n in Keys(ProductsSold(orders)) <==> exists l :: l in Items(orders) && l.name == n
    ensures forall n :: Lookup(ProductsSold(orders), n) == Sum(Filter(Items(orders), KeyIs(LineName, n)), LineQuantity)
    ensures Total(ProductsSold(orders)) == Sum(Items(orders), LineQuantity)
  {
    var ps := Pairs(Items(orders), LineName, LineQuantity);
    TallyFacts(ps);
    KeysOfPairs(Items(orders), LineName, LineQuantity);
    TotalOfPairs(Items(orders), LineName, LineQuantity);
    forall n
      ensures Lookup(ProductsSold(orders), n) == Sum(Filter(Items(orders), KeyIs(LineName, n)), LineQuantity)
    {
      WeightOfPairs(Items(orders), LineName, LineQuantity, n);
    }
  }

  /** `topProductsData`: at most five names, most units first, all taken from the units
      sold, and no name left out sold more than one that is kept. */
  function TopProducts(orders: seq<Order>): (r: Entries<string>)
    ensures |r| <= 5
    ensures |r| == if |ProductsSold(orders)| <= 5 then |ProductsSold(orders)| else 5
    ensures SortedDesc(r, Value)
    ensures multiset(r) <= multiset(ProductsSold(orders))
    ensures forall x, y :: x in multiset(ProductsSold(orders)) - multiset(r) && y in r ==> x.1 <= y.1
  {
    TopK(ProductsSold(orders), Value, 5)
  }

  function StatusKey(o: Order): string {
    StatusName(o.status)
  }

  /** `ordersByStatus`: orders counted per stored status text. */
  function OrdersByStatus(orders: seq<Order>): Entries<string> {
    CountBy(orders, StatusKey)
  }

  /** The pie chart's slices: each status that occurs once, with its number of orders,
      adding up to the order count. */
  lemma StatusCountsAddUp(orders: seq<Order>)
    ensures DistinctKeys(OrdersByStatus(orders))
    ensures forall k :: k in Keys(OrdersByStatus(orders)) <==> exists o :: o in orders && StatusName(o.status) == k
    ensures forall k :: Lookup(OrdersByStatus(orders), k) == CountKey(orders, StatusKey, k) as real
    ensures Total(OrdersByStatus(orders)) == |orders| as real
  {
    CountByFacts(orders, StatusKey);
  }

  /** The four cards. */
  datatype Cards = Cards(revenue: real, totalOrders: nat, average: real, rating: real)

  /** `statsCards` of a business: revenue from its delivered orders, every one of its
      orders counted, and the rating with a missing one shown as 0. */
  function StatsCards(orders: seq<Order>, business: Option<Business>): (c: Cards)
    ensures c.totalOrders as real == Total(OrdersByStatus(OrdersOf(orders, business)))
    ensures c.revenue == Revenue(OrdersOf(orders, business))
    ensures c.average == Average(c.revenue, c.totalOrders)
    ensures c.totalOrders == 0 ==> c.revenue == 0.0
    ensures business.None? ==> c == Cards(0.0, 0, 0.0, 0.0)
    ensures business.Some? ==> c.rating == OrZero(business.value.rating)
  {
    var board := OrdersOf(orders, business);
    StatusCountsAddUp(board);
    var revenue := Revenue(board);
    Cards(revenue, |board|, Average(revenue, |board|), if business.Some? then OrZero(business.value.rating) else 0.0)
  }
}
