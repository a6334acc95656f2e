/**
 * The courier's list of orders waiting for pickup and the accept button that claims
 * one: the order becomes "delivering" and is assigned to the courier in one update.
 */
module AvailableOrders {
  import opened Common
  import opened Seqs
  import opened Domain
  import opened DataStore
  import opened Texts
  import opened DeliveryEstimate

  /** `deliveryPersons.find(d => d.id === user?.id)`: no user, no courier. */
  function FindCourier(couriers: seq<Courier>, user: Option<string>): (c: Option<Courier>)
    ensures c.Some? ==> user.Some? && c.value in couriers && c.value.id == user.value
    ensures user.Some? && (exists d :: d in couriers && d.id == user.value) ==> c.Some?
  {
    if user.None? then None else Find(couriers, (d: Courier) => d.id == user.value)
  }

  /** Ready for pickup and not yet assigned (an empty courier id counts as none). */
  predicate Available(o: Order) {
    o.status == Ready && !Filled(o.courierId)
  }

  /** `availableOrders`. */
  function Pool(orders: seq<Order>): (r: seq<Order>)
    ensures Subsequence(r, orders)
    ensures forall o :: o in r <==> o in orders && o.status == Ready && !Filled(o.courierId)
  {
    FilterIsSubsequence(orders, Available);
    Filter(orders, Available)
  }

  /** `handleAcceptOrder`: only an online courier who is known may accept; the order is
      then set to delivering and assigned in one update. */
  method HandleAcceptOrder(store: Store, courier: Option<Courier>, order: Order, ok: bool)
    modifies store`orders
    ensures courier.None? || !courier.value.isOnline ==> store.orders == old(store.orders)
    ensures courier.Some? && courier.value.isOnline ==>
      store.orders == if ok then UpdateOrders(old(store.orders), order.id, AssignCourier(courier.value.id))
                      else old(store.orders)
  {
    if courier.None? || !courier.value.isOnline {
      return;
    }
    store.UpdateOrder(order.id, AssignCourier(courier.value.id), ok);
  }

  /** After an accept, the accepted order has left the pool, and every other order is
      in the pool exactly when it was before. */
  lemma AcceptLeavesPool(orders: seq<Order>, id: string, courierId: string)
    ensures var after := UpdateOrders(orders, id, AssignCourier(courierId));
      && (forall o :: o in Pool(after) ==> o.id != id)
      && (forall i :: 0 <= i < |orders| && orders[i].id != id ==> (orders[i] in Pool(orders) <==> after[i] in Pool(after)))
  {
    var after := UpdateOrders(orders, id, AssignCourier(courierId));
    forall o | o in Pool(after)
      ensures o.id != id
    {
      var i :| 0 <= i < |after| && after[i] == o;
    }
  }

  const CommissionRate: real := 0.15

  /** `calculateCommission(total)`: the courier's 15% share, never more than the order
      and never negative for a non-negative total. */
  function Commission(total: real): (c: real)
    ensures total >= 0.0 ==> 0.0 <= c <= total
    ensures c * 100.0 == total * 15.0
  {
    total * CommissionRate
  }

  /** The estimate line on a card is shown unless the estimate is "N/A", and what it
      then shows is a number of minutes or the business's own text. */
  lemma EtaShown(o: Order, business: Option<Business>)
    ensures var t := Estimate(Some(o), business);
      t != NA ==> EndsWith(t, " min") || (business.Some? && business.value.deliveryTime == Some(t))
  {
  }
}
