/**
 * The records the front end reads from and writes to its backend tables: orders and
 * their lines, businesses, couriers ("delivery persons"), clients, products, quick
 * messages, archived orders and ratings. Optional columns are `Option`s; money,
 * ratings and coordinates are reals; timestamps are milliseconds.
 */
module Domain {
  import opened Common

  /** An order's `status` column. `Other` holds any text that is none of the seven. */
  datatype Status =
    | Pending | Accepted | Preparing | Ready | Delivering | Delivered | Cancelled
    | Other(raw: string)

  /** The text stored in the column. */
  function StatusName(s: Status): string {
    match s
    case Pending => "pending"
    case Accepted => "accepted"
    case Preparing => "preparing"
    case Ready => "ready"
    case Delivering => "delivering"
    case Delivered => "delivered"
    case Cancelled => "cancelled"
    case Other(raw) => raw
  }

  /** Reading the column back. */
  function StatusOf(raw: string): Status {
    if raw == "pending" then Pending
    else if raw == "accepted" then Accepted
    else if raw == "preparing" then Preparing
    else if raw == "ready" then Ready
    else if raw == "delivering" then Delivering
    else if raw == "delivered" then Delivered
    else if raw == "cancelled" then Cancelled
    else Other(raw)
  }

  /** The status datatype loses nothing: every stored text reads back as itself, and
      every status that is not a disguised known name is stored and read back unchanged. */
  lemma StatusRoundTrip(raw: string, s: Status)
    ensures StatusName(StatusOf(raw)) == raw
    ensures !(s.Other? && !StatusOf(s.raw).Other?) ==> StatusOf(StatusName(s)) == s
  {
  }

  /** An order is finished once delivered or cancelled. */
  predicate Completed(s: Status) {
    s == Delivered || s == Cancelled
  }

  datatype LatLng = LatLng(lat: real, lng: real)

  /** Mexico City's centre: where the maps and a business without a stored location
      start. */
  const DefaultCoordinates := LatLng(19.4326, -99.1332)

  /** `delivery_address`: the text the client picked and its coordinates. */
  datatype Address = Address(fullAddress: string, street: string, city: string, coordinates: Option<LatLng>)

  /** A cart line: the product's fields plus `quantity`, `businessId` and `businessName`. */
  datatype Line = Line(
    productId: string, name: string, price: real, category: Option<string>,
    businessId: string, businessName: string, quantity: int)

  datatype Order = Order(
    id: string,
    status: Status,
    createdAt: int,
    prepTime: Option<int>,          // `preparation_time`, minutes
    clientId: string,
    businessId: string,
    courierId: Option<string>,      // `delivery_person_id`
    items: seq<Line>,
    totalPrice: real,
    address: Option<Address>,
    notes: string,                  // `special_notes`
    clientRating: Option<int>,
    deliveryRating: Option<int>)

  datatype Promotion = Promotion(name: Option<string>, url: string, path: string)

  datatype Business = Business(
    id: string,
    name: string,
    category: Option<string>,
    deliveryTime: Option<string>,   // free text such as "25-35" or "30"
    deliveryFee: Option<real>,
    location: Option<LatLng>,
    rating: Option<real>,
    promotions: seq<Promotion>)

  datatype Courier = Courier(
    id: string,
    name: string,
    isOnline: bool,
    currentLocation: Option<LatLng>,
    totalDeliveries: Option<int>,
    earnings: Option<real>,
    rating: Option<real>)

  datatype Client = Client(id: string, name: string, phone: Option<string>)

  /** `b => b.id === id`, the test every lookup of a business by id uses. */
  function BusinessWithId(id: string): Business -> bool {
    (b: Business) => b.id == id
  }

  /** `c => c.id === id`. */
  function ClientWithId(id: string): Client -> bool {
    (c: Client) => c.id == id
  }

  datatype Product = Product(id: string, businessId: string, name: string, price: real, category: Option<string>)

  datatype QuickMessage = QuickMessage(orderId: string, senderId: string, recipientId: string, message: string, createdAt: int)

  /** A row of `order_history`. */
  datatype ArchiveRecord = ArchiveRecord(
    id: string, orderId: string, businessId: string, clientId: string,
    totalPrice: real, items: seq<Line>, createdAt: int)

  /** A row of `ratings`. */
  datatype RatingRow = RatingRow(
    orderId: string, clientId: string, businessId: string, courierId: Option<string>,
    businessRating: Option<int>, deliveryRating: Option<int>, comment: string)

  /** The column sets the front end sends to `updateOrder`. */
  datatype OrderPatch =
    | SetStatus(status: Status)
    | SetPrepTime(minutes: int)
    | AssignCourier(courierId: string)      // `{status: 'delivering', delivery_person_id}`
    | SetRatings(client: int, delivery: int) // `{client_rating, delivery_rating}`

  function Apply(o: Order, p: OrderPatch): Order {
    match p
    case SetStatus(s) => o.(status := s)
    case SetPrepTime(m) => o.(prepTime := Some(m))
    case AssignCourier(c) => o.(status := Delivering, courierId := Some(c))
    case SetRatings(c, d) => o.(clientRating := Some(c), deliveryRating := Some(d))
  }

  /** `update(patch).eq('id', id)`: every row with that id gets the patch, the others
      and the order of the rows stay as they are. */
  function UpdateOrders(orders: seq<Order>, id: string, p: OrderPatch): (r: seq<Order>)
    ensures |r| == |orders|
    ensures forall i :: 0 <= i < |orders| ==> r[i] == if orders[i].id == id then Apply(orders[i], p) else orders[i]
  {
    seq(|orders|, i requires 0 <= i < |orders| => if orders[i].id == id then Apply(orders[i], p) else orders[i])
  }

  /** The column sets sent to `updateDeliveryPerson`. */
  datatype CourierPatch =
    | Credit(totalDeliveries: int, earnings: real)
    | SetCourierRating(rating: real)

  function ApplyCourier(c: Courier, p: CourierPatch): Courier {
    match p
    case Credit(n, e) => c.(totalDeliveries := Some(n), earnings := Some(e))
    case SetCourierRating(r) => c.(rating := Some(r))
  }

  function UpdateCouriers(cs: seq<Courier>, id: string, p: CourierPatch): (r: seq<Courier>)
    ensures |r| == |cs|
    ensures forall i :: 0 <= i < |cs| ==> r[i] == if cs[i].id == id then ApplyCourier(cs[i], p) else cs[i]
  {
    seq(|cs|, i requires 0 <= i < |cs| => if cs[i].id == id then ApplyCourier(cs[i], p) else cs[i])
  }

  /** The column sets sent to `updateBusiness`. */
  datatype BusinessPatch =
    | SetBusinessRating(rating: real)
    | SetPromotions(promotions: seq<Promotion>)

  function ApplyBusiness(b: Business, p: BusinessPatch): Business {
    match p
    case SetBusinessRating(r) => b.(rating := Some(r))
    case SetPromotions(ps) => b.(promotions := ps)
  }

  function UpdateBusinesses(bs: seq<Business>, id: string, p: BusinessPatch): (r: seq<Business>)
    ensures |r| == |bs|
    ensures forall i :: 0 <= i < |bs| ==> r[i] == if bs[i].id == id then ApplyBusiness(bs[i], p) else bs[i]
  {
    seq(|bs|, i requires 0 <= i < |bs| => if bs[i].id == id then ApplyBusiness(bs[i], p) else bs[i])
  }
}
