/**
 * The client's order history: the client's own orders newest first, the buttons each
 * order card offers (track, rate, order again), the estimate line, and the rating
 * dialog's open/close/submit state.
 */
module OrderHistory {
  import opened Common
  import opened Seqs
  import opened Texts
  import opened Domain
  import opened DataStore
  import opened DeliveryEstimate
  import opened OrderManagement

  /** The orders of one client. */
  function OfClient(clientId: string): Order -> bool {
    (o: Order) => o.clientId == clientId
  }

  /** `userOrders`: without a user no order matches; otherwise exactly the user's
      orders, each as often as stored, newest first. */
  function UserOrders(orders: seq<Order>, user: Option<string>): (r: seq<Order>)
    ensures user.None? ==> r == []
    ensures user.Some? ==> multiset(r) == multiset(Filter(orders, OfClient(user.value)))
    ensures forall o :: o in r <==> user.Some? && o in orders && o.clientId == user.value
    ensures forall i, j :: 0 <= i < j < |r| ==> r[i].createdAt >= r[j].createdAt
  {
    if user.None? then []
    else
      var mine := Filter(orders, OfClient(user.value));
      var r := SortDesc(mine, CreatedAtKey);
      assert forall o :: o in r <==> o in multiset(mine);
      r
  }

  /** `order.client_rating || order.delivery_rating`: a score of 0 counts as none. */
  predicate IsRated(o: Order) {
    NonZero(o.clientRating) || NonZero(o.deliveryRating)
  }

  /** The buttons of an order card. */
  datatype Actions = Actions(track: bool, rate: bool, rateEnabled: bool, reorder: bool)

  /** "Seguir pedido" for orders under way, "Calificar" for delivered ones (disabled
      once rated) and "Pedir de nuevo" for finished ones. */
  function ActionsOf(o: Order): (a: Actions)
    ensures a.track <==> 1 <= Stage(o.status) <= 4
    ensures a.rate <==> o.status == Delivered
    ensures a.rateEnabled <==> o.status == Delivered && !IsRated(o)
    ensures a.reorder <==> Completed(o.status)
    ensures !(a.track && a.reorder)
    ensures o.status == Pending ==> a == Actions(false, false, false, false)
  {
    var s := o.status;
    Actions(s == Delivering || s == Ready || s == Accepted || s == Preparing,
            s == Delivered,
            s == Delivered && !IsRated(o),
            s == Delivered || s == Cancelled)
  }

  /** Storing a rating with at least one non-zero score disables the rate button for
      good, and changes no other button. */
  lemma RatedOnce(o: Order, businessScore: int, courierScore: int)
    requires businessScore != 0 || courierScore != 0
    ensures var after := ActionsOf(Apply(o, SetRatings(businessScore, courierScore)));
      && !after.rateEnabled
      && after.(rateEnabled := ActionsOf(o).rateEnabled) == ActionsOf(o)
  {
  }

  /** The estimate line: shown for orders not yet finished whose estimate is not
      "N/A"; what it shows is then minutes or the business's own text. */
  function ShownEstimate(o: Order, business: Option<Business>): (t: Option<string>)
    ensures t.Some? <==> !Completed(o.status) && Estimate(Some(o), business) != NA
    ensures t.Some? ==> EndsWith(t.value, " min") || (business.Some? && business.value.deliveryTime == Some(t.value))
    ensures business.None? ==> t.None?
  {
    var total := Estimate(Some(o), business);
    if o.status != Delivered && o.status != Cancelled && total != NA then Some(total) else None
  }

  /** The card title's business name. */
  function BusinessName(business: Option<Business>): (n: string)
    ensures business.Some? && business.value.name != "" ==> n == business.value.name
    ensures business.None? || business.value.name == "" ==> n == "Negocio Desconocido"
  {
    if business.Some? && business.value.name != "" then business.value.name else "Negocio Desconocido"
  }

  /** `getStatusText` of this page: the same labels as the business's board except
      "ready" and "delivering", which are written in lower case here. */
  function StatusText(s: Status): (t: string)
    ensures s.Other? ==> t == s.raw
    ensures s != Ready && s != Delivering ==> t == OrderManagement.StatusText(s)
    ensures s == Ready ==> t == "Listo para recoger"
    ensures s == Delivering ==> t == "En camino"
  {
    match s
    case Ready => "Listo para recoger"
    case Delivering => "En camino"
    case _ => OrderManagement.StatusText(s)
  }

  /** The rating dialog's state. */
  class RatingDialog {
    var selected: Option<Order>
    var open: bool

    constructor()
      ensures selected == None && !open
    {
      selected := None;
      open := false;
    }

    /** `handleOpenRatingModal(order)`. */
    method OpenFor(o: Order)
      modifies this
      ensures selected == Some(o) && open
    {
      selected := Some(o);
      open := true;
    }

    /** `handleCloseRatingModal`. */
    method Close()
      modifies this
      ensures selected == None && !open
    {
      selected := None;
      open := false;
    }

    /** `handleRatingSubmit(ratings)`: without a selected order nothing happens;
        otherwise the rating is stored for it and the dialog closes. */
    method Submit(store: Store, user: Option<string>, businessRating: int, deliveryRating: int, comment: string,
                  updateOk: bool, insertOk: bool, businessSelectOk: bool, businessUpdateOk: bool,
                  courierSelectOk: bool, courierUpdateOk: bool)
      modifies this, store`orders, store`ratings, store`businesses, store`couriers
      ensures old(selected).None? ==>
        && selected == old(selected) && open == old(open)
        && store.orders == old(store.orders) && store.ratings == old(store.ratings)
        && store.businesses == old(store.businesses) && store.couriers == old(store.couriers)
      ensures old(selected).Some? ==> selected == None && !open
      ensures old(selected).Some? ==>
        var o := old(selected).value;
        store.orders == if user.Some? && updateOk
                        then UpdateOrders(old(store.orders), o.id, SetRatings(businessRating, deliveryRating))
                        else old(store.orders)
      ensures old(selected).Some? ==>
        var o := old(selected).value;
        store.ratings == if user.Some? && updateOk && insertOk
          then old(store.ratings) + [RatingRow(o.id, user.value, o.businessId, o.courierId,
                                               Some(businessRating), Some(deliveryRating), comment)]
          else old(store.ratings)
      ensures old(selected).Some? ==>
        var o := old(selected).value;
        var stored := user.Some? && updateOk && insertOk;
        var scores := BusinessScores(store.ratings, o.businessId);
        store.businesses == if stored && businessRating > 0 && businessSelectOk && |scores| > 0 && businessUpdateOk
          then UpdateBusinesses(old(store.businesses), o.businessId, SetBusinessRating(Mean(scores)))
          else old(store.businesses)
      ensures old(selected).Some? ==>
        var o := old(selected).value;
        var stored := user.Some? && updateOk && insertOk;
        store.couriers == if stored && deliveryRating > 0 && Filled(o.courierId) && courierSelectOk
                             && |CourierScores(store.ratings, o.courierId.value)| > 0 && courierUpdateOk
          then UpdateCouriers(old(store.couriers), o.courierId.value,
                              SetCourierRating(Mean(CourierScores(store.ratings, o.courierId.value))))
          else old(store.couriers)
    {
      if selected.None? {
        return;
      }
      store.AddRating(user, selected.value, businessRating, deliveryRating, comment, updateOk, insertOk,
                      businessSelectOk, businessUpdateOk, courierSelectOk, courierUpdateOk);
      Close();
    }
  }
}
