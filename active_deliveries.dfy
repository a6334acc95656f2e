/**
 * The courier's deliveries in progress: the list, the completion button (the order is
 * delivered, the courier's delivery count goes up by one and the earnings by the 15%
 * commission), the fixed quick messages and the call-the-client guard.
 */
module ActiveDeliveries {
  import opened Common
  import opened Seqs
  import opened Domain
  import opened DataStore
  import opened AvailableOrders

  /** `activeDeliveries`: the courier's orders that are on their way; none without a
      courier. */
  function Active(orders: seq<Order>, courier: Option<Courier>): (r: seq<Order>)
    ensures courier.None? ==> r == []
    ensures courier.Some? ==> forall o :: o in r <==> o in orders && o.courierId == Some(courier.value.id) && o.status == Delivering
    ensures Subsequence(r, orders)
  {
    if courier.None? then []
    else
      var onTheWay := (o: Order) => o.courierId == Some(courier.value.id) && o.status == Delivering;
      FilterIsSubsequence(orders, onTheWay);
      Filter(orders, onTheWay)
  }

  /** An order the courier accepts appears among the courier's active deliveries. */
  lemma AcceptedIsActive(orders: seq<Order>, o: Order, c: Courier)
    requires o in orders
    ensures Apply(o, AssignCourier(c.id)) in Active(UpdateOrders(orders, o.id, AssignCourier(c.id)), Some(c))
  {
    var i :| 0 <= i < |orders| && orders[i] == o;
    var u := UpdateOrders(orders, o.id, AssignCourier(c.id));
    var a := Apply(o, AssignCourier(c.id));
    assert u[i] == a;
    assert a in u && a.courierId == Some(c.id) && a.status == Delivering;
    ActiveHolds(u, c, a);
  }

  /** An order of the courier on its way is among the courier's active deliveries. */
  lemma ActiveHolds(orders: seq<Order>, c: Courier, a: Order)
    requires a in orders && a.courierId == Some(c.id) && a.status == Delivering
    ensures a in Active(orders, Some(c))
  {
  }

  /** The quick-message menu. */
  const QuickMessages: seq<string> := [
    "Pedido en camino",
    "Estoy afuera",
    "Llego en 5 minutos",
    "Llego en 10 minutos",
    "Llego en 15 minutos"
  ]

  /** `handleSendQuickMessage`: the message goes to the order's client. */
  method HandleSendQuickMessage(store: Store, user: Option<string>, order: Order, text: string, now: int, ok: bool)
    returns (sent: bool)
    modifies store`messages
    ensures sent == (user.Some? && ok)
    ensures store.messages == if sent then old(store.messages) + [QuickMessage(order.id, user.value, order.clientId, text, now)]
                              else old(store.messages)
  {
    sent := store.SendQuickMessage(user, order.id, order.clientId, text, now, ok);
  }

  /** The courier's counters after one completed delivery of `total`: one more delivery
      and the commission added, a missing counter counting as 0. */
  function Credited(c: Courier, total: real): (r: CourierPatch)
    ensures r.Credit?
    ensures r.totalDeliveries == OrZeroInt(c.totalDeliveries) + 1
    ensures r.earnings == OrZero(c.earnings) + Commission(total)
  {
    Credit(OrZeroInt(c.totalDeliveries) + 1, OrZero(c.earnings) + total * 0.15)
  }

  /** `handleCompleteDelivery`: the order is marked delivered, then the courier is
      credited; each write happens or not on its own. */
  method HandleCompleteDelivery(store: Store, courier: Courier, order: Order, orderOk: bool, courierOk: bool)
    modifies store`orders, store`couriers
    ensures store.orders == if orderOk then UpdateOrders(old(store.orders), order.id, SetStatus(Delivered))
                            else old(store.orders)
    ensures store.couriers == if courierOk then UpdateCouriers(old(store.couriers), courier.id, Credited(courier, order.totalPrice))
                              else old(store.couriers)
  {
    store.UpdateOrder(order.id, SetStatus(Delivered), orderOk);
    var commission := order.totalPrice * 0.15;
    store.UpdateCourier(courier.id, Credit(OrZeroInt(courier.totalDeliveries) + 1, OrZero(courier.earnings) + commission), courierOk);
  }

  /** A completed delivery is no longer active. */
  lemma CompletedIsNotActive(orders: seq<Order>, id: string, c: Courier)
    ensures forall o :: o in Active(UpdateOrders(orders, id, SetStatus(Delivered)), Some(c)) ==> o.id != id
  {
    var after := UpdateOrders(orders, id, SetStatus(Delivered));
    forall o | o in Active(after, Some(c))
      ensures o.id != id
    {
      var i :| 0 <= i < |after| && after[i] == o;
    }
  }

  /** The courier record after completing `done`, in order, from `c`. */
  function CreditAll(c: Courier, done: seq<Order>): Courier
    decreases |done|
  {
    if done == [] then c
    else
      var before := CreditAll(c, done[..|done| - 1]);
      ApplyCourier(before, Credited(before, done[|done| - 1].totalPrice))
  }

  function CommissionOf(o: Order): real {
    Commission(o.totalPrice)
  }

  /** Completing deliveries one after another from a fresh courier leaves the count of
      deliveries and the sum of their commissions in the courier's counters. */
  lemma {:induction false} CountersAddUp(c: Courier, done: seq<Order>)
    requires c.totalDeliveries.None? && c.earnings.None?
    ensures done != [] ==> CreditAll(c, done).totalDeliveries == Some(|done|)
    ensures done != [] ==> CreditAll(c, done).earnings == Some(Sum(done, CommissionOf))
    decreases |done|
  {
    if done != [] {
      var init := done[..|done| - 1];
      CountersAddUp(c, init);
      assert done == init + [done[|done| - 1]];
      SumConcat(init, [done[|done| - 1]], CommissionOf);
    }
  }

  /** What the call button leads to. */
  datatype Contact = Dial(phone: string) | DeclinedCall | NoPhone

  /** `handleContactClient`: a call is offered only for a known client with a phone
      number; declining the confirmation does nothing, and no phone shows an error. */
  function ContactClient(clients: seq<Client>, order: Order, confirmed: bool): (r: Contact)
    ensures r.Dial? ==> confirmed && exists c :: c in clients && c.id == order.clientId && c.phone == Some(r.phone) && r.phone != ""
    ensures (forall c :: c in clients && c.id == order.clientId ==> !Filled(c.phone)) ==> r == NoPhone
    ensures r == NoPhone && (exists c :: c in clients && c.id == order.clientId) ==>
      exists c :: c in clients && c.id == order.clientId && !Filled(c.phone)
    ensures forall i :: FirstMatchAt(clients, ClientWithId(order.clientId), i) && Filled(clients[i].phone) ==>
      r == if confirmed then Dial(clients[i].phone.value) else DeclinedCall
    ensures forall i :: FirstMatchAt(clients, ClientWithId(order.clientId), i) && !Filled(clients[i].phone) ==>
      r == NoPhone
  {
    FindAtFirstMatch(clients, ClientWithId(order.clientId));
    var client := Find(clients, ClientWithId(order.clientId));
    if client.Some? && Filled(client.value.phone) then
      if confirmed then Dial(client.value.phone.value) else DeclinedCall
    else
      NoPhone
  }
}
