/**
 * The administrator's statistics: archived and active orders taken together, the
 * revenue they count, the user and delivery totals, the orders per hour of the day in
 * 24 buckets, and the ten businesses with the most orders.
 */
module GlobalStats {
  import opened Common
  import opened Seqs
  import opened Tally
  import opened Domain
  import opened OrderManagement

  /** An element of `[...orderHistory, ...orders]`: an archive row or an active order. */
  datatype Record = Archived(row: ArchiveRecord) | Live(order: Order)

  function RecordId(r: Record): string {
    if r.Archived? then r.row.id else r.order.id
  }

  function RecordCreatedAt(r: Record): int {
    if r.Archived? then r.row.createdAt else r.order.createdAt
  }

  function RecordBusinessId(r: Record): string {
    if r.Archived? then r.row.businessId else r.order.businessId
  }

  /** `[...orderHistory, ...orders]`. */
  function Combined(history: seq<ArchiveRecord>, orders: seq<Order>): (r: seq<Record>)
    ensures |r| == |history| + |orders|
    ensures forall i :: 0 <= i < |history| ==> r[i] == Archived(history[i])
    ensures forall i :: 0 <= i < |orders| ==> r[|history| + i] == Live(orders[i])
  {
    Map(history, (h: ArchiveRecord) => Archived(h)) + Map(orders, (o: Order) => Live(o))
  }

  /** Some archive row has this id. */
  predicate InArchive(history: seq<ArchiveRecord>, id: string) {
    exists h :: h in history && h.id == id
  }

  /** The revenue filter: a delivered order, or a record whose id is an archive row's
      (every archive row itself). Archive rows have no status. */
  function Counted(history: seq<ArchiveRecord>): Record -> bool {
    (r: Record) => (r.Live? && r.order.status == Delivered) || InArchive(history, RecordId(r))
  }

  function RecordPrice(r: Record): real {
    if r.Archived? then r.row.totalPrice else r.order.totalPrice
  }

  /** `totalRevenue`. */
  function Revenue(history: seq<ArchiveRecord>, orders: seq<Order>): real {
    Sum(Filter(Combined(history, orders), Counted(history)), RecordPrice)
  }

  function RowPrice(h: ArchiveRecord): real {
    h.totalPrice
  }

  function OrderPrice(o: Order): real {
    o.totalPrice
  }

  /** An active order adds to the revenue when it is delivered or shares an id with an
      archive row. */
  function CountedLive(history: seq<ArchiveRecord>): Order -> bool {
    (o: Order) => o.status == Delivered || InArchive(history, o.id)
  }

  /** The revenue is every archived order's total plus the totals of the active orders
      that are delivered (or whose id an archive row has). */
  lemma RevenueSplits(history: seq<ArchiveRecord>, orders: seq<Order>)
    ensures Revenue(history, orders) == Sum(history, RowPrice) + Sum(Filter(orders, CountedLive(history)), OrderPrice)
  {
    var a := Map(history, (h: ArchiveRecord) => Archived(h));
    var b := Map(orders, (o: Order) => Live(o));
    FilterConcat(a, b, Counted(history));
    SumConcat(Filter(a, Counted(history)), Filter(b, Counted(history)), RecordPrice);
    ArchivedAllCount(history, history);
    LiveCount(history, orders);
  }

  lemma {:induction false} ArchivedAllCount(history: seq<ArchiveRecord>, part: seq<ArchiveRecord>)
    requires forall h :: h in part ==> h in history
    ensures Sum(Filter(Map(part, (h: ArchiveRecord) => Archived(h)), Counted(history)), RecordPrice) == Sum(part, RowPrice)
    decreases |part|
  {
    if part != [] {
      ArchivedAllCount(history, part[1..]);
      var m := Map(part, (h: ArchiveRecord) => Archived(h));
      assert m[1..] == Map(part[1..], (h: ArchiveRecord) => Archived(h));
      assert part[0] in history;
      assert Counted(history)(m[0]);
      SumFilterCons(m, Counted(history), RecordPrice);
    }
  }

  lemma {:induction false} LiveCount(history: seq<ArchiveRecord>, orders: seq<Order>)
    ensures Sum(Filter(Map(orders, (o: Order) => Live(o)), Counted(history)), RecordPrice)
         == Sum(Filter(orders, CountedLive(history)), OrderPrice)
    decreases |orders|
  {
    if orders != [] {
      LiveCount(history, orders[1..]);
      var m := Map(orders, (o: Order) => Live(o));
      assert m[1..] == Map(orders[1..], (o: Order) => Live(o));
      assert Counted(history)(m[0]) == CountedLive(history)(orders[0]);
      SumFilterCons(m, Counted(history), RecordPrice);
      SumFilterCons(orders, CountedLive(history), OrderPrice);
    }
  }

  /** The four cards. */
  datatype Cards = Cards(revenue: real, totalOrders: nat, totalUsers: nat, activeDeliveries: nat)

  /** `statsCards`: every archived and active order counted, every kind of user, and the
      active orders on their way. */
  function StatsCards(history: seq<ArchiveRecord>, orders: seq<Order>, clients: seq<Client>,
                      businesses: seq<Business>, couriers: seq<Courier>): (c: Cards)
    ensures c.revenue == Sum(history, RowPrice) + Sum(Filter(orders, CountedLive(history)), OrderPrice)
    ensures c.totalOrders == |history| + |orders|
    ensures c.totalUsers == |clients| + |businesses| + |couriers|
    ensures c.activeDeliveries == CountStatus(orders, Delivering) && c.activeDeliveries <= |orders|
  {
    RevenueSplits(history, orders);
    Cards(Revenue(history, orders), |Combined(history, orders)|, |clients| + |businesses| + |couriers|,
          CountStatus(orders, Delivering))
  }

  /** The hour of the day a timestamp falls in, as the browser's clock reads it. */
  type Hour = h: int | 0 <= h < 24

  /** The record's hour, under the given clock. */
  function HourKey(hourOf: int -> Hour): Record -> int {
    (r: Record) => hourOf(RecordCreatedAt(r)) as int
  }

  /** The hours 0 to 23. */
  const Hours: seq<int> := Upto(24)

  /** `chartDataHours`: one bucket per hour, 0 to 23, each with its number of orders
      (`ordersByHour[i] || 0`). */
  function HourBuckets(history: seq<ArchiveRecord>, orders: seq<Order>, hourOf: int -> Hour): (b: Entries<int>)
    ensures |b| == 24
    ensures forall i :: 0 <= i < 24 ==> b[i].0 == i
  {
    Column(CountBy(Combined(history, orders), HourKey(hourOf)), Hours)
  }

  /** Every bucket holds the orders created in its hour, and the buckets together count
      every archived and active order once. */
  lemma BucketsCountEveryOrder(history: seq<ArchiveRecord>, orders: seq<Order>, hourOf: int -> Hour)
    ensures forall i :: 0 <= i < 24 ==>
      HourBuckets(history, orders, hourOf)[i].1 == CountKey(Combined(history, orders), HourKey(hourOf), i) as real
    ensures Total(HourBuckets(history, orders, hourOf)) == (|history| + |orders|) as real
  {
    var all := Combined(history, orders);
    var key := HourKey(hourOf);
    CountByFacts(all, key);
    ColumnOfCounts(all, key, Hours);
    EveryHourListed(all, key);
    GroupsCoverAll(all, key, Hours);
  }

  lemma EveryHourListed(all: seq<Record>, key: Record -> int)
    requires forall r :: 0 <= key(r) < 24
    ensures NoDuplicates(Hours)
    ensures forall i :: 0 <= i < |all| ==> key(all[i]) in Hours
  {
    forall i | 0 <= i < |all|
      ensures key(all[i]) in Hours
    {
      assert Hours[key(all[i])] == key(all[i]);
    }
  }

  /** The business name a record is counted under: `'Desconocido'` when the business is
      unknown or has no name. */
  function BusinessLabel(businesses: seq<Business>): Record -> string {
    (r: Record) => LabelOf(Find(businesses, BusinessWithId(RecordBusinessId(r))))
  }

  /** `business?.name || 'Desconocido'`. */
  function LabelOf(b: Option<Business>): string {
    if b.Some? && b.value.name != "" then b.value.name else "Desconocido"
  }

  /** `ordersByBusiness`. */
  function OrdersByBusiness(history: seq<ArchiveRecord>, orders: seq<Order>, businesses: seq<Business>): Entries<string> {
    CountBy(Combined(history, orders), BusinessLabel(businesses))
  }

  /** A record of a known, named business is counted under its name; any other under
      `'Desconocido'`; and the counts add up to every record. */
  lemma BusinessCounts(history: seq<ArchiveRecord>, orders: seq<Order>, businesses: seq<Business>)
    ensures forall r: Record :: BusinessLabel(businesses)(r) != "Desconocido" ==>
      exists b :: b in businesses && b.id == RecordBusinessId(r) && b.name == BusinessLabel(businesses)(r)
    ensures forall r: Record :: (forall b :: b in businesses ==> b.id != RecordBusinessId(r)) ==> BusinessLabel(businesses)(r) == "Desconocido"
    ensures forall r: Record, i :: FirstMatchAt(businesses, BusinessWithId(RecordBusinessId(r)), i) ==>
      BusinessLabel(businesses)(r) == if businesses[i].name != "" then businesses[i].name else "Desconocido"
    ensures DistinctKeys(OrdersByBusiness(history, orders, businesses))
    ensures Total(OrdersByBusiness(history, orders, businesses)) == (|history| + |orders|) as real
  {
    CountByFacts(Combined(history, orders), BusinessLabel(businesses));
    LabelOfFirstBusiness(businesses);
  }

  /** The label is the name of the first business with the record's id, when named. */
  lemma LabelOfFirstBusiness(businesses: seq<Business>)
    ensures forall r: Record, i :: FirstMatchAt(businesses, BusinessWithId(RecordBusinessId(r)), i) ==>
      BusinessLabel(businesses)(r) == if businesses[i].name != "" then businesses[i].name else "Desconocido"
  {
    forall r: Record, i | FirstMatchAt(businesses, BusinessWithId(RecordBusinessId(r)), i)
      ensures BusinessLabel(businesses)(r) == if businesses[i].name != "" then businesses[i].name else "Desconocido"
    {
      FindAtFirstMatch(businesses, BusinessWithId(RecordBusinessId(r)));
    }
  }

  /** `chartDataBusiness`: at most ten businesses, most orders first, none left out with
      more orders than one kept. */
  function TopBusinesses(history: seq<ArchiveRecord>, orders: seq<Order>, businesses: seq<Business>): (r: Entries<string>)
    ensures |r| == if |OrdersByBusiness(history, orders, businesses)| <= 10
                   then |OrdersByBusiness(history, orders, businesses)| else 10
    ensures SortedDesc(r, Value)
    ensures multiset(r) <= multiset(OrdersByBusiness(history, orders, businesses))
    ensures forall x, y :: x in multiset(OrdersByBusiness(history, orders, businesses)) - multiset(r) && y in r ==> x.1 <= y.1
  {
    TopK(OrdersByBusiness(history, orders, businesses), Value, 10)
  }
}
