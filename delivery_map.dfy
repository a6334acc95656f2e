/**
 * The map of one order: the simulated courier position that moves 5% of the remaining
 * way to the client on every tick and snaps onto the client once close, and the
 * markers and route lines drawn around it. Distances are measured by a function the
 * caller provides.
 */
module DeliveryMap {
  import opened Common
  import opened Domain
  import AdminGlobalMap

  /** The share of the remaining gap covered on each tick. */
  const StepShare: real := 0.05

  /** Closer than this (in the distance function's unit, metres) the courier snaps on. */
  const SnapDistance: real := 10.0

  /** One interpolation step from `prev` towards `target`. */
  function Step(prev: LatLng, target: LatLng): (next: LatLng)
    ensures target.lat - next.lat == 0.95 * (target.lat - prev.lat)
    ensures target.lng - next.lng == 0.95 * (target.lng - prev.lng)
  {
    LatLng(prev.lat + (target.lat - prev.lat) * StepShare, prev.lng + (target.lng - prev.lng) * StepShare)
  }

  /** `x` lies between `a` and `b`, whichever is larger. */
  predicate Between(a: real, x: real, b: real) {
    (a <= x <= b) || (b <= x <= a)
  }

  /** A step never overshoots: each coordinate lands between where it was and the
      target, and stays put only when it was already there. */
  lemma StepStaysBetween(prev: LatLng, target: LatLng)
    ensures Between(prev.lat, Step(prev, target).lat, target.lat)
    ensures Between(prev.lng, Step(prev, target).lng, target.lng)
    ensures Step(prev, target) == prev <==> prev == target
  {
  }

  /** `0.95` to the power `n`. */
  function Remaining(n: nat): (r: real)
    ensures 0.0 < r <= 1.0
  {
    if n == 0 then 1.0 else 0.95 * Remaining(n - 1)
  }

  /** Where `n` steps without a snap lead. */
  function Steps(start: LatLng, target: LatLng, n: nat): LatLng {
    if n == 0 then start else Step(Steps(start, target, n - 1), target)
  }

  /** After `n` steps the gap on each axis is `0.95^n` of the starting gap. */
  lemma {:induction false} GapAfterSteps(start: LatLng, target: LatLng, n: nat)
    ensures target.lat - Steps(start, target, n).lat == Remaining(n) * (target.lat - start.lat)
    ensures target.lng - Steps(start, target, n).lng == Remaining(n) * (target.lng - start.lng)
  {
    if n > 0 {
      GapAfterSteps(start, target, n - 1);
      var p := Steps(start, target, n - 1);
      assert target.lat - Step(p, target).lat == 0.95 * (target.lat - p.lat);
      assert 0.95 * (Remaining(n - 1) * (target.lat - start.lat)) == (0.95 * Remaining(n - 1)) * (target.lat - start.lat);
      assert 0.95 * (Remaining(n - 1) * (target.lng - start.lng)) == (0.95 * Remaining(n - 1)) * (target.lng - start.lng);
    }
  }

  /** The simulated position of the courier and the interval that moves it. */
  class Simulation {
    var position: Option<LatLng>
    var running: bool
    /** Where the interval started from and is heading, fixed when it starts. */
    var home: LatLng
    var target: LatLng

    /** `useState(deliveryPerson?.current_location)`. */
    constructor(courier: Option<Courier>)
      ensures position == (if courier.Some? then courier.value.currentLocation else None)
      ensures !running
    {
      position := if courier.Some? then courier.value.currentLocation else None;
      running := false;
      home := LatLng(0.0, 0.0);
      target := LatLng(0.0, 0.0);
    }

    /**
     * The effect: the previous interval is cleared; a new one starts only for a known
     * courier on an order being delivered whose business and client both have a
     * location, from the courier's own location or else the business's.
     */
    method Start(courier: Option<Courier>, status: Status, business: Option<LatLng>, client: Option<LatLng>)
      modifies this
      ensures running <==> courier.Some? && status == Delivering && business.Some? && client.Some?
      ensures running ==> position == Some(courier.value.currentLocation.GetOr(business.value))
                          && home == business.value && target == client.value
      ensures !running ==> position == old(position)
    {
      running := false;
      if courier.Some? && status == Delivering && business.Some? && client.Some? {
        position := Some(courier.value.currentLocation.GetOr(business.value));
        home := business.value;
        target := client.value;
        running := true;
      }
    }

    /** The cleanup: the interval is cleared. */
    method Stop()
      modifies this`running
      ensures !running
    {
      running := false;
    }

    /**
     * One interval tick: a missing position becomes the business location; otherwise
     * the courier moves one step, and a step that ends closer than the snap distance
     * puts it exactly on the client and clears the interval. A cleared interval does
     * not tick.
     */
    method Tick(distance: (LatLng, LatLng) -> real)
      modifies this`position, this`running
      ensures !old(running) ==> position == old(position) && !running
      ensures old(running) && old(position).None? ==> position == Some(home) && running
      ensures old(running) && old(position).Some? ==>
        var next := Step(old(position).value, target);
        if distance(next, target) < SnapDistance then position == Some(target) && !running
        else position == Some(next) && running
    {
      if !running {
        return;
      }
      if position.None? {
        position := Some(home);
        return;
      }
      var next := Step(position.value, target);
      if distance(next, target) < SnapDistance {
        running := false;
        position := Some(target);
      } else {
        position := Some(next);
      }
    }
  }

  /** The points of the markers: the business, the client, and the courier while the
      order is being delivered. */
  function Markers(business: Option<LatLng>, client: Option<LatLng>, courier: Option<LatLng>, status: Status): (ps: seq<LatLng>)
    ensures |ps| <= 3
    ensures |ps| == (if business.Some? then 1 else 0) + (if client.Some? then 1 else 0)
                    + (if courier.Some? && status == Delivering then 1 else 0)
    ensures courier.Some? && status == Delivering ==> ps[|ps| - 1] == courier.value
  {
    (if business.Some? then [business.value] else [])
    + (if client.Some? then [client.value] else [])
    + (if courier.Some? && status == Delivering then [courier.value] else [])
  }

  /** `polylinePositions`: from the business to the courier. */
  function CourierLeg(business: Option<LatLng>, courier: Option<LatLng>, status: Status): seq<LatLng> {
    (if business.Some? then [business.value] else [])
    + (if courier.Some? && status == Delivering then [courier.value] else [])
  }

  /** `routeToClient`: from the courier to the client. */
  function RouteToClient(client: Option<LatLng>, courier: Option<LatLng>, status: Status): seq<LatLng> {
    (if courier.Some? && status == Delivering then [courier.value] else [])
    + (if client.Some? then [client.value] else [])
  }

  /** What the component shows. */
  datatype MapView =
    | MissingClient
    | Shown(markers: seq<LatLng>, leg: Option<seq<LatLng>>, route: Option<seq<LatLng>>)

  /** A line is drawn only through at least two points. */
  function Line2(ps: seq<LatLng>): Option<seq<LatLng>> {
    if |ps| > 1 then Some(ps) else None
  }

  function View(business: Option<LatLng>, client: Option<LatLng>, courier: Option<LatLng>, status: Status): (v: MapView)
    ensures client.None? <==> v == MissingClient
  {
    if client.None? then MissingClient
    else Shown(Markers(business, client, courier, status),
               Line2(CourierLeg(business, courier, status)),
               Line2(RouteToClient(client, courier, status)))
  }

  /** Unless the order is being delivered, the map shows no courier and draws no line;
      while it is, with every point known, it shows three markers and both lines. */
  lemma CourierOnlyWhileDelivering(business: Option<LatLng>, client: LatLng, courier: Option<LatLng>, status: Status)
    ensures status != Delivering ==>
      View(business, Some(client), courier, status)
        == Shown((if business.Some? then [business.value] else []) + [client], None, None)
    ensures status == Delivering && business.Some? && courier.Some? ==>
      View(business, Some(client), courier, status)
        == Shown([business.value, client, courier.value], Some([business.value, courier.value]), Some([courier.value, client]))
  {
    if status == Delivering && business.Some? && courier.Some? {
      assert Markers(business, Some(client), courier, status) == [business.value] + [client] + [courier.value];
      assert [business.value] + [client] + [courier.value] == [business.value, client, courier.value];
      assert CourierLeg(business, courier, status) == [business.value] + [courier.value] == [business.value, courier.value];
      assert RouteToClient(Some(client), courier, status) == [courier.value] + [client] == [courier.value, client];
    }
  }

  /** The centre of the map: the middle of the frame around the markers, else the
      client's position, else Mexico City's centre. Whenever the client is known the
      markers include it, so the centre lies inside their frame. */
  function MapCenter(business: Option<LatLng>, client: Option<LatLng>, courier: Option<LatLng>, status: Status): (c: LatLng)
    ensures client.Some? ==> AdminGlobalMap.Inside(c, AdminGlobalMap.Bounds(Markers(business, client, courier, status)).value)
    ensures Markers(business, client, courier, status) != [] ==>
      c == AdminGlobalMap.Center(AdminGlobalMap.Bounds(Markers(business, client, courier, status)).value)
    ensures client.None? && business.None? && !(courier.Some? && status == Delivering) ==> c == DefaultCoordinates
  {
    var ms := Markers(business, client, courier, status);
    match AdminGlobalMap.Bounds(ms)
    case Some(b) =>
      AdminGlobalMap.CenterInside(b, ms[0]);
      AdminGlobalMap.Center(b)
    case None => client.GetOr(DefaultCoordinates)
  }
}
