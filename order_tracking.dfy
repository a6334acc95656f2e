/**
 * The client's tracking page of one order: the progress bar and title for each status,
 * the quick messages of the order oldest first, the courier card, and what the page
 * shows while the order or its business is not there.
 */
module OrderTracking {
  import opened Common
  import opened Seqs
  import opened Domain
  import opened DataStore
  import opened OrderManagement

  /** The title and the percentage the progress bar fills. */
  datatype StatusInfo = StatusInfo(title: string, progress: nat)

  const Unknown: StatusInfo := StatusInfo("Estado Desconocido", 0)

  /** `getStatusInfo(status)`: a cancelled order and an unknown status both read as
      unknown with an empty bar. */
  function Info(s: Status): (i: StatusInfo)
    ensures i.progress <= 100
    ensures i == Unknown <==> s == Cancelled || s.Other?
    ensures i.progress == 100 <==> s == Delivered
  {
    match s
    case Pending => StatusInfo("Pedido Recibido", 10)
    case Accepted => StatusInfo("Pedido Aceptado", 25)
    case Preparing => StatusInfo("Preparando tu Pedido", 50)
    case Ready => StatusInfo("Pedido Listo", 75)
    case Delivering => StatusInfo("En Camino", 90)
    case Delivered => StatusInfo("Entregado", 100)
    case _ => Unknown
  }

  /** The statuses an order goes through when nothing goes wrong. */
  const Path: seq<Status> := [Pending, Accepted, Preparing, Ready, Delivering, Delivered]

  /** The bar fills strictly further at every step of the path. */
  lemma ProgressAlongPath()
    ensures forall i, j :: 0 <= i < j < |Path| ==> Info(Path[i]).progress < Info(Path[j]).progress
  {
  }

  /** For the statuses of the path, the bar agrees with the board's lifecycle order: one
      status fills the bar further than another exactly when it is further along. */
  lemma ProgressFollowsStage(s: Status, t: Status)
    requires s in Path && t in Path
    ensures Info(s).progress < Info(t).progress <==> Stage(s) < Stage(t)
  {
  }

  /** The messages of one order. */
  function OfOrder(orderId: string): QuickMessage -> bool {
    (m: QuickMessage) => m.orderId == orderId
  }

  /** Sorting by this key, largest first, puts the oldest message first. */
  function OldestFirst(m: QuickMessage): real {
    -(m.createdAt as real)
  }

  /** `orderMessages`: exactly the messages of the order, each as often as stored,
      oldest first. */
  function OrderMessages(messages: seq<QuickMessage>, orderId: string): (r: seq<QuickMessage>)
    ensures multiset(r) == multiset(Filter(messages, OfOrder(orderId)))
    ensures forall m :: m in r <==> m in messages && m.orderId == orderId
    ensures forall i, j :: 0 <= i < j < |r| ==> r[i].createdAt <= r[j].createdAt
  {
    var mine := Filter(messages, OfOrder(orderId));
    var r := SortDesc(mine, OldestFirst);
    assert forall m :: m in r <==> m in multiset(mine);
    r
  }

  /** The courier of the order: looked up only when the order names one. */
  function TrackedCourier(order: Order, couriers: seq<Courier>): (c: Option<Courier>)
    ensures c.Some? ==> Filled(order.courierId) && order.courierId == Some(c.value.id) && c.value in couriers
    ensures Filled(order.courierId) && (exists d :: d in couriers && d.id == order.courierId.value) ==> c.Some?
  {
    if Filled(order.courierId) then Find(couriers, (d: Courier) => d.id == order.courierId.value) else None
  }

  /** The business of the order: looked up only when the order names one. */
  function TrackedBusiness(order: Order, businesses: seq<Business>): (b: Option<Business>)
    ensures b.Some? ==> order.businessId != "" && b.value.id == order.businessId && b.value in businesses
    ensures order.businessId != "" && (exists x :: x in businesses && x.id == order.businessId) ==> b.Some?
  {
    if order.businessId != "" then Find(businesses, (x: Business) => x.id == order.businessId) else None
  }

  /** The "your courier" card: shown only for a known courier of an order on its way. */
  function CourierCard(order: Order, couriers: seq<Courier>): (c: Option<Courier>)
    ensures c.Some? <==> TrackedCourier(order, couriers).Some? && order.status == Delivering
    ensures c.Some? ==> c.value in couriers && order.courierId == Some(c.value.id)
  {
    if order.status == Delivering then TrackedCourier(order, couriers) else None
  }

  /** What the page renders. */
  datatype Screen = Waiting | Tracking(order: Order, business: Business)

  /** The render: the waiting text while data loads or while the order or its business
      is missing; the tracking page otherwise. */
  function TrackingScreen(orders: seq<Order>, businesses: seq<Business>, orderId: string, loading: bool): (s: Screen)
    ensures s.Tracking? ==> !loading && s.order in orders && s.order.id == orderId
                            && s.business in businesses && s.business.id == s.order.businessId
    ensures loading || FindOrder(orders, orderId).None? ==> s == Waiting
    ensures !loading && FindOrder(orders, orderId).Some? && TrackedBusiness(FindOrder(orders, orderId).value, businesses).Some? ==>
      s == Tracking(FindOrder(orders, orderId).value, TrackedBusiness(FindOrder(orders, orderId).value, businesses).value)
  {
    var order := FindOrder(orders, orderId);
    if loading || order.None? then Waiting
    else
      match TrackedBusiness(order.value, businesses)
      case None => Waiting
      case Some(b) => Tracking(order.value, b)
  }

  /** The effect: once loading is over without the order, the page goes back. */
  function GoesBack(orders: seq<Order>, orderId: string, loading: bool): (back: bool)
    ensures back <==> !loading && forall o :: o in orders ==> o.id != orderId
  {
    !loading && FindOrder(orders, orderId).None?
  }

  /** A page that goes back never shows tracking content, and one that shows it stays. */
  lemma GoingBackShowsNothing(orders: seq<Order>, businesses: seq<Business>, orderId: string, loading: bool)
    ensures GoesBack(orders, orderId, loading) ==> TrackingScreen(orders, businesses, orderId, loading) == Waiting
    ensures TrackingScreen(orders, businesses, orderId, loading).Tracking? ==> !GoesBack(orders, orderId, loading)
  {
  }
}
