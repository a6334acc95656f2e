/**
 * The administrator's map of every order: which orders get a marker, the marker colour
 * and label of each status, the box that frames every business, client and courier
 * position shown, and where the map is centred.
 */
module AdminGlobalMap {
  import opened Common
  import opened Seqs
  import opened Domain

  /** `getStatusIcon`'s colour: grey for pending and for any unknown status. */
  function ColorOf(s: Status): (c: string)
    ensures s.Other? ==> c == "grey"
  {
    match s
    case Pending => "grey"
    case Accepted => "orange"
    case Preparing => "yellow"
    case Ready => "blue"
    case Delivering => "violet"
    case Delivered => "green"
    case Cancelled => "red"
    case Other(_) => "grey"
  }

  /** Apart from pending, which shares grey with unknown statuses, each known status has
      a colour of its own. */
  lemma ColorsTellStatusesApart(s: Status, t: Status)
    requires !s.Other? && !t.Other? && s != t
    ensures ColorOf(s) != ColorOf(t)
  {
  }

  /** `getStatusText`: the Spanish label of a status, "Desconocido" for any other. */
  function StatusLabel(s: Status): (t: string)
    ensures s.Other? <==> t == "Desconocido"
  {
    match s
    case Pending => "Pendiente"
    case Accepted => "Aceptado"
    case Preparing => "Preparando"
    case Ready => "Listo para Recoger"
    case Delivering => "En Camino"
    case Delivered => "Entregado"
    case Cancelled => "Cancelado"
    case Other(_) => "Desconocido"
  }

  /** The label loses nothing for the seven known statuses. */
  lemma LabelsAreDistinct(s: Status, t: Status)
    requires !s.Other? && !t.Other? && StatusLabel(s) == StatusLabel(t)
    ensures s == t
  {
  }

  /** An order with the business and courier it names, when they are found. */
  datatype MapPoint = MapPoint(order: Order, business: Option<Business>, courier: Option<Courier>)

  /** The point of an order before the filter. */
  function PointOf(o: Order, businesses: seq<Business>, couriers: seq<Courier>): (p: MapPoint)
    ensures p.order == o
    ensures p.business.Some? ==> p.business.value in businesses && p.business.value.id == o.businessId
    ensures p.business.None? <==> forall b :: b in businesses ==> b.id != o.businessId
    ensures p.courier.Some? ==> p.courier.value in couriers && o.courierId == Some(p.courier.value.id)
  {
    MapPoint(o, Find(businesses, (b: Business) => b.id == o.businessId),
             if o.courierId.Some? then Find(couriers, (c: Courier) => c.id == o.courierId.value) else None)
  }

  /** A point is drawn when its business has a location and the order's delivery
      address has coordinates. */
  predicate Drawable(p: MapPoint) {
    p.business.Some? && p.business.value.location.Some?
    && p.order.address.Some? && p.order.address.value.coordinates.Some?
  }

  /** `mapPoints`: in order, one point per order whose business is known and located and
      whose address has coordinates. */
  function MapPoints(orders: seq<Order>, businesses: seq<Business>, couriers: seq<Courier>): (r: seq<MapPoint>)
    ensures Subsequence(r, Map(orders, (o: Order) => PointOf(o, businesses, couriers)))
    ensures forall p :: p in r ==> Drawable(p) && p.order in orders
    ensures forall o :: o in orders && Drawable(PointOf(o, businesses, couriers)) ==>
      PointOf(o, businesses, couriers) in r
  {
    var all := Map(orders, (o: Order) => PointOf(o, businesses, couriers));
    FilterIsSubsequence(all, Drawable);
    assert forall p :: p in all ==> p.order in orders by {
      forall p | p in all
        ensures p.order in orders
      {
        var i :| 0 <= i < |all| && all[i] == p;
        assert p.order == orders[i];
      }
    }
    assert forall o :: o in orders ==> PointOf(o, businesses, couriers) in all by {
      forall o | o in orders
        ensures PointOf(o, businesses, couriers) in all
      {
        var i :| 0 <= i < |orders| && orders[i] == o;
        assert all[i] == PointOf(o, businesses, couriers);
      }
    }
    Filter(all, Drawable)
  }

  /** `loc?.lat && loc?.lng`: a position with a zero coordinate is left out. */
  predicate Usable(l: Option<LatLng>) {
    l.Some? && l.value.lat != 0.0 && l.value.lng != 0.0
  }

  /** The positions a point adds to the frame: its business, its client and its
      courier, each when usable. */
  function PositionsOf(p: MapPoint): (r: seq<LatLng>)
    ensures |r| <= 3
    ensures forall l :: l in r ==> Usable(Some(l))
    ensures p.business.Some? && Usable(p.business.value.location) ==> p.business.value.location.value in r
    ensures p.courier.Some? && Usable(p.courier.value.currentLocation) ==> p.courier.value.currentLocation.value in r
  {
    var b := if p.business.Some? && Usable(p.business.value.location) then [p.business.value.location.value] else [];
    var coords := if p.order.address.Some? then p.order.address.value.coordinates else None;
    var c := if Usable(coords) then [coords.value] else [];
    var d := if p.courier.Some? && Usable(p.courier.value.currentLocation) then [p.courier.value.currentLocation.value] else [];
    b + c + d
  }

  /** `mapPoints.flatMap(...)`: every position of every point, point by point. */
  function Positions(points: seq<MapPoint>): (r: seq<LatLng>)
    ensures |r| <= 3 * |points|
    ensures forall l :: l in r <==> exists p :: p in points && l in PositionsOf(p)
    decreases |points|
  {
    if points == [] then []
    else
      var rest := Positions(points[1..]);
      assert forall p :: p in points[1..] ==> p in points;
      assert forall p :: p in points ==> p == points[0] || p in points[1..];
      PositionsOf(points[0]) + rest
  }

  /** The box Leaflet fits the view to. */
  datatype Box = Box(south: real, west: real, north: real, east: real)

  predicate Inside(l: LatLng, b: Box) {
    b.south <= l.lat <= b.north && b.west <= l.lng <= b.east
  }

  function Min(x: real, y: real): real {
    if x <= y then x else y
  }

  function Max(x: real, y: real): real {
    if x <= y then y else x
  }

  /** `bounds`: none without positions; otherwise the smallest box holding all of
      them, each edge touched by some position. */
  function Bounds(ls: seq<LatLng>): (r: Option<Box>)
    ensures r.None? <==> ls == []
    ensures r.Some? ==> forall l :: l in ls ==> Inside(l, r.value)
    ensures r.Some? ==> (exists l :: l in ls && l.lat == r.value.south) && (exists l :: l in ls && l.lat == r.value.north)
    ensures r.Some? ==> (exists l :: l in ls && l.lng == r.value.west) && (exists l :: l in ls && l.lng == r.value.east)
    decreases |ls|
  {
    if ls == [] then None
    else
      var l := ls[0];
      assert l in ls;
      assert forall x :: x in ls[1..] ==> x in ls;
      assert forall x :: x in ls ==> x == l || x in ls[1..];
      match Bounds(ls[1..])
      case None => Some(Box(l.lat, l.lng, l.lat, l.lng))
      case Some(b) => Some(Box(Min(l.lat, b.south), Min(l.lng, b.west), Max(l.lat, b.north), Max(l.lng, b.east)))
  }

  /** `getCenter()` of a box: as far from the south edge as from the north one, and from
      the west edge as from the east one. */
  function Center(b: Box): (c: LatLng)
    ensures c.lat - b.south == b.north - c.lat
    ensures c.lng - b.west == b.east - c.lng
  {
    LatLng((b.south + b.north) / 2.0, (b.west + b.east) / 2.0)
  }

  /** The centre of the map: the middle of the frame, or Mexico City's centre when there
      is nothing to frame. */
  function MapCenter(points: seq<MapPoint>): (c: LatLng)
    ensures Positions(points) == [] ==> c == DefaultCoordinates
    ensures Positions(points) != [] ==> Inside(c, Bounds(Positions(points)).value)
    ensures Positions(points) != [] ==> c == Center(Bounds(Positions(points)).value)
  {
    match Bounds(Positions(points))
    case None => DefaultCoordinates
    case Some(b) =>
      CenterInside(b, Positions(points)[0]);
      Center(b)
  }

  /** A box that holds a position holds its own centre. */
  lemma CenterInside(b: Box, l: LatLng)
    requires Inside(l, b)
    ensures Inside(Center(b), b)
  {
  }

  /** The frame holds every business, client and courier position the points add. */
  lemma FrameHoldsEveryPosition(points: seq<MapPoint>)
    ensures forall p, l :: p in points && l in PositionsOf(p) ==> InFrame(l, points)
  {
    forall p, l | p in points && l in PositionsOf(p)
      ensures InFrame(l, points)
    {
      assert l in Positions(points);
    }
  }

  /** The points have a frame and it holds `l`. */
  predicate InFrame(l: LatLng, points: seq<MapPoint>) {
    var frame := Bounds(Positions(points));
    frame.Some? && Inside(l, frame.value)
  }
}
