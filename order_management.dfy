/**
 * The business's order board: the actions each order card offers, the guards
 * `handleStatusChange` applies before writing a status, the 180-second countdown that
 * cancels an order left pending, the preparation-time input, the board's list (this
 * business's orders, newest first) and its per-status counts.
 */
module OrderManagement {
  import opened Common
  import opened Seqs
  import opened Texts
  import opened Domain
  import opened DataStore
  import opened DeliveryEstimate

  /** How far along the lifecycle a status is; statuses the board does not know rank 0. */
  function Stage(s: Status): nat {
    match s
    case Pending => 0
    case Accepted => 1
    case Preparing => 2
    case Ready => 3
    case Delivering => 4
    case Delivered => 5
    case Cancelled => 5
    case Other(_) => 0
  }

  /**
   * The status `handleStatusChange` writes when `requested` is asked for an order in
   * `current`, or `None` when it writes nothing: a cancel of a non-pending order is
   * written unless the order is already cancelled; `accepted` is written only from
   * pending; every other request is written as it is.
   */
  function StatusWrite(current: Status, requested: Status): (w: Option<Status>)
    ensures w.Some? ==> w.value == requested
    ensures requested == Cancelled ==> (w.None? <==> current == Cancelled)
    ensures requested == Accepted ==> (w.Some? <==> current == Pending)
    ensures requested != Cancelled && requested != Accepted ==> w.Some?
  {
    if requested == Cancelled && current != Pending then
      if current != Cancelled then Some(requested) else None
    else if requested != Cancelled && current != Pending && requested == Accepted then
      None
    else
      Some(requested)
  }

  /** `getNextActions(order)`: the statuses the card's buttons request. Each moves the
      order strictly forward and is one `handleStatusChange` writes. */
  function NextActions(o: Order): (acts: seq<Status>)
    ensures forall a :: a in acts ==> Stage(a) > Stage(o.status)
    ensures forall a :: a in acts ==> StatusWrite(o.status, a) == Some(a)
    ensures Completed(o.status) || o.status == Delivering || o.status.Other? ==> acts == []
    ensures o.status == Pending ==> acts == [Accepted, Cancelled]
    ensures o.status == Accepted ==> acts == if NonZero(o.prepTime) then [Preparing] else []
    ensures o.status == Preparing ==> acts == [Ready]
    ensures o.status == Ready ==> acts == [Delivered]
  {
    match o.status
    case Pending => [Accepted, Cancelled]
    case Accepted => if NonZero(o.prepTime) then [Preparing] else []
    case Preparing => [Ready]
    case Ready => [Delivered]
    case _ => []
  }

  /** A run of button presses, each one offered by the card of the order before it. */
  predicate OfferedPath(o: Order, path: seq<Status>)
    decreases |path|
  {
    path == [] || (path[0] in NextActions(o) && OfferedPath(o.(status := path[0]), path[1..]))
  }

  /** The board cannot loop an order: any run of offered actions has at most five
      steps, fewer the further along the order already is. */
  lemma {:induction false} OfferedPathsEnd(o: Order, path: seq<Status>)
    requires OfferedPath(o, path)
    ensures |path| <= 5 - Stage(o.status)
    decreases |path|
  {
    if path != [] {
      OfferedPathsEnd(o.(status := path[0]), path[1..]);
    }
  }

  /** The one run that takes a new order to delivered uses all four steps, and needs a
      preparation time before "preparing" is offered. */
  lemma HappyPath(o: Order)
    requires o.status == Pending && NonZero(o.prepTime)
    ensures OfferedPath(o, [Accepted, Preparing, Ready, Delivered])
    ensures !OfferedPath(o.(prepTime := None), [Accepted, Preparing])
  {
    var p := [Accepted, Preparing, Ready, Delivered];
    assert p[1..] == [Preparing, Ready, Delivered];
    assert p[1..][1..] == [Ready, Delivered];
    assert p[1..][1..][1..] == [Delivered];
    assert [Accepted, Preparing][1..] == [Preparing];
  }

  /** `handleStatusChange(orderId, requested)`: look the order up (no order, no write),
      then write the status `StatusWrite` allows. */
  method HandleStatusChange(store: Store, orderId: string, requested: Status, ok: bool)
    modifies store`orders
    ensures var found := FindOrder(old(store.orders), orderId);
      store.orders == if found.Some? && StatusWrite(found.value.status, requested).Some? && ok
                      then UpdateOrders(old(store.orders), orderId, SetStatus(requested))
                      else old(store.orders)
  {
    var found := FindOrder(store.orders, orderId);
    if found.None? {
      return;
    }
    var order := found.value;
    if requested == Cancelled && order.status != Pending {
      if order.status != Cancelled {
        store.UpdateOrder(orderId, SetStatus(requested), ok);
      }
      return;
    }
    if requested != Cancelled && order.status != Pending && requested == Accepted {
      return;
    }
    store.UpdateOrder(orderId, SetStatus(requested), ok);
  }

  /** `handlePrepTimeSet`: written as given, without a guard. */
  method HandlePrepTimeSet(store: Store, orderId: string, minutes: int, ok: bool)
    modifies store`orders
    ensures store.orders == if ok then UpdateOrders(old(store.orders), orderId, SetPrepTime(minutes))
                            else old(store.orders)
  {
    store.UpdateOrder(orderId, SetPrepTime(minutes), ok);
  }

  /** Seconds a pending order has left at `now`: `180 - floor((now - created) / 1000)`.
      Integer division by a positive number rounds down, as `Math.floor` does. */
  function InitialTimeLeft(createdAt: int, now: int): int {
    180 - (now - createdAt) / 1000
  }

  /** The countdown and preparation-time input of one order card. */
  class OrderCard {
    var timeLeft: int
    /** Whether the one-second interval is running. */
    var running: bool
    /** How many times the card has asked for the order to be cancelled. */
    var cancelRequests: nat
    var prepInput: string

    constructor()
      ensures timeLeft == 180 && !running && cancelRequests == 0 && prepInput == ""
    {
      timeLeft := 180;
      running := false;
      cancelRequests := 0;
      prepInput := "";
    }

    /**
     * The countdown effect, run when the card sees the order's status and creation time
     * at `now`: the previous interval is cleared; a pending order that is already out
     * of time is cancelled at once and no interval starts; otherwise the countdown
     * starts from the seconds left.
     */
    method Observe(status: Status, createdAt: int, now: int) returns (requestCancel: bool)
      modifies this`timeLeft, this`running, this`cancelRequests
      ensures var t := InitialTimeLeft(createdAt, now);
        && requestCancel == (status == Pending && t <= 0)
        && cancelRequests == old(cancelRequests) + (if requestCancel then 1 else 0)
        && running == (status == Pending && t > 0)
        && timeLeft == if running then t else old(timeLeft)
    {
      running := false;
      requestCancel := false;
      if status == Pending {
        var t := InitialTimeLeft(createdAt, now);
        if t <= 0 {
          cancelRequests := cancelRequests + 1;
          requestCancel := true;
          return;
        }
        timeLeft := t;
        running := true;
      }
    }

    /** One second of the interval: at 1 or below the countdown ends at 0, stops and
        asks for the cancel; otherwise it goes down by one. A stopped card ignores it. */
    method Tick() returns (requestCancel: bool)
      modifies this`timeLeft, this`running, this`cancelRequests
      ensures requestCancel == (old(running) && old(timeLeft) <= 1)
      ensures cancelRequests == old(cancelRequests) + (if requestCancel then 1 else 0)
      ensures running == (old(running) && old(timeLeft) > 1)
      ensures timeLeft == if !old(running) then old(timeLeft) else if requestCancel then 0 else old(timeLeft) - 1
    {
      requestCancel := false;
      if running {
        if timeLeft <= 1 {
          running := false;
          cancelRequests := cancelRequests + 1;
          requestCancel := true;
          timeLeft := 0;
        } else {
          timeLeft := timeLeft - 1;
        }
      }
    }

    /** `n` seconds of a running countdown from `T = timeLeft >= 1`: the cancel is asked
        for exactly once, at the `T`-th second, and the countdown then rests at 0. */
    method RunTicks(n: nat)
      requires running && timeLeft >= 1
      modifies this`timeLeft, this`running, this`cancelRequests
      ensures var start := old(timeLeft);
        && timeLeft == (if n < start then start - n else 0)
        && running == (n < start)
        && cancelRequests == old(cancelRequests) + (if n >= start then 1 else 0)
    {
      var start := timeLeft;
      var k := 0;
      while k < n
        invariant 0 <= k <= n
        invariant timeLeft == (if k < start then start - k else 0)
        invariant running == (k < start)
        invariant cancelRequests == old(cancelRequests) + (if k >= start then 1 else 0)
      {
        var _ := Tick();
        k := k + 1;
      }
    }

    /** Typing in the preparation-time box. */
    method TypePrepTime(text: string)
      modifies this`prepInput
      ensures prepInput == text
    {
      prepInput := text;
    }

    /** `handleSetPrepTime`: only an entry that reads as a positive integer is sent, and
        then the box is emptied; anything else changes neither the order nor the box. */
    method SavePrepTime(store: Store, orderId: string, ok: bool)
      modifies this`prepInput, store`orders
      ensures var t := ParseInt(old(prepInput));
        if t.Some? && t.value > 0 then
          && store.orders == (if ok then UpdateOrders(old(store.orders), orderId, SetPrepTime(t.value)) else old(store.orders))
          && prepInput == ""
        else
          store.orders == old(store.orders) && prepInput == old(prepInput)
    {
      var t := ParseInt(prepInput);
      if t.Some? && t.value > 0 {
        HandlePrepTimeSet(store, orderId, t.value, ok);
        prepInput := "";
      }
    }
  }

  /** A second of a card's countdown on the board: when the card asks for the cancel,
      it goes through `handleStatusChange`. */
  method CardTick(card: OrderCard, store: Store, orderId: string, ok: bool)
    modifies card`timeLeft, card`running, card`cancelRequests, store`orders
    ensures var asked := old(card.running) && old(card.timeLeft) <= 1;
      var found := FindOrder(old(store.orders), orderId);
      store.orders == if asked && found.Some? && StatusWrite(found.value.status, Cancelled).Some? && ok
                      then UpdateOrders(old(store.orders), orderId, SetStatus(Cancelled))
                      else old(store.orders)
  {
    var asked := card.Tick();
    if asked {
      HandleStatusChange(store, orderId, Cancelled, ok);
    }
  }

  /** A second cancel request writes nothing, and "accepted" is never written over a
      status other than pending, while a ready order can be marked delivered directly. */
  lemma StatusWriteFacts(s: Status)
    ensures StatusWrite(Cancelled, Cancelled) == None
    ensures s != Pending ==> StatusWrite(s, Accepted) == None
    ensures StatusWrite(Ready, Delivered) == Some(Delivered)
    ensures s != Cancelled ==> StatusWrite(s, Cancelled) == Some(Cancelled)
  {
  }

  /** `formatTime(seconds)`: minutes, a colon, and the seconds padded to two digits. */
  function FormatTime(seconds: nat): string {
    var m := seconds / 60;
    NatToString(m) + ":" + SecondsField(seconds % 60)
  }

  /** Reading "m:ss" back as seconds. */
  function ParseClock(t: string): Option<nat> {
    var parts := Split(t, ':');
    if |parts| == 2 && |parts[0]| > 0 && AllDigits(parts[0]) && |parts[1]| == 2 && AllDigits(parts[1])
    then Some(DigitsValue(parts[0]) * 60 + DigitsValue(parts[1]))
    else None
  }

  /** The clock always shows two digits of seconds, and reading it back gives the
      seconds it was made from. */
  lemma FormatTimeRoundTrip(seconds: nat)
    ensures ParseClock(FormatTime(seconds)) == Some(seconds)
  {
    var m := seconds / 60;
    var r := seconds % 60;
    var x := NatToString(m);
    var y := SecondsField(r);
    assert FormatTime(seconds) == x + [':'] + y;
    SecondsFieldReads(r);
    SplitAtFirst(x, ':', y);
    SplitWithoutSep(y, ':');
    NatToStringRoundTrip(m);
  }

  /** The seconds as the clock shows them. */
  function SecondsField(r: nat): string {
    (if r < 10 then "0" else "") + NatToString(r)
  }

  /** Seconds under a minute show as two digits that read back as the seconds. */
  lemma SecondsFieldReads(r: nat)
    requires r < 60
    ensures |SecondsField(r)| == 2 && AllDigits(SecondsField(r)) && ':' !in SecondsField(r)
    ensures DigitsValue(SecondsField(r)) == r
  {
    var y := SecondsField(r);
    NatToStringRoundTrip(r);
    if r < 10 {
      assert y == ['0', DigitChar(r)];
      assert y[..|y| - 1] == "0";
      assert DigitsValue("0") == 0 by {
        assert "0"[..0] == "";
      }
    } else {
      TwoDigitNumbers(r);
    }
  }

  /** The countdown is shown while the order is pending and time is left. */
  predicate ShowsCountdown(o: Order, timeLeft: int) {
    o.status == Pending && timeLeft > 0
  }

  /** The preparation-time box is shown for an accepted order without one. */
  predicate ShowsPrepInput(o: Order) {
    o.status == Accepted && o.prepTime.None?
  }

  /** `totalTime`: the estimate once a preparation time is set, else nothing. */
  function TotalTime(o: Order, business: Option<Business>): (r: string)
    ensures r != "" ==> business.Some? && NonZero(o.prepTime) && r == Estimate(Some(o), business)
    ensures business.Some? && NonZero(o.prepTime) ==> r == Estimate(Some(o), business)
  {
    if business.Some? && NonZero(o.prepTime) then Estimate(Some(o), business) else ""
  }

  function CreatedAtKey(o: Order): real {
    o.createdAt as real
  }

  /** `businessOrders`: this business's orders, newest first; none without a business. */
  function BusinessOrders(orders: seq<Order>, business: Option<Business>): (r: seq<Order>)
    ensures business.None? ==> r == []
    ensures business.Some? ==> multiset(r) == multiset(Filter(orders, (o: Order) => o.businessId == business.value.id))
    ensures SortedDesc(r, CreatedAtKey)
  {
    if business.None? then []
    else SortDesc(Filter(orders, (o: Order) => o.businessId == business.value.id), CreatedAtKey)
  }

  /** The board's status tabs: all orders, or one status. */
  datatype Tab = All | Only(status: Status)

  /** `filteredOrders`. */
  function FilteredOrders(board: seq<Order>, tab: Tab): (r: seq<Order>)
    ensures Subsequence(r, board)
    ensures forall o :: o in r <==> o in board && (tab.All? || o.status == tab.status)
  {
    if tab.All? then
      SubsequenceOfItself(board);
      board
    else
      var inTab := (o: Order) => o.status == tab.status;
      FilterIsSubsequence(board, inTab);
      Filter(board, inTab)
  }

  /** How many orders of a list have status `s`. */
  function CountStatus(orders: seq<Order>, s: Status): nat {
    |Filter(orders, (o: Order) => o.status == s)|
  }

  /** `statusFilters`: the tab keys with their counts. There is no tab for
      "delivering". */
  function StatusTabs(board: seq<Order>): (tabs: seq<(Tab, nat)>)
    ensures |tabs| == 7 && tabs[0] == (All, |board|)
    ensures forall i :: 1 <= i < 7 ==> tabs[i].0 == Only(TabStatuses[i - 1]) && tabs[i].1 == CountStatus(board, TabStatuses[i - 1])
    ensures forall i :: 0 <= i < 7 ==> tabs[i].0 != Only(Delivering)
  {
    [(All, |board|)] + Map(TabStatuses, (s: Status) => (Only(s), CountStatus(board, s)))
  }

  /** The statuses that have a tab, in tab order. */
  const TabStatuses: seq<Status> := [Pending, Accepted, Preparing, Ready, Delivered, Cancelled]

  /** Orders the tabs do not count: delivering ones and unknown statuses. */
  function Untabbed(orders: seq<Order>): nat {
    |Filter(orders, (o: Order) => o.status == Delivering || o.status.Other?)|
  }

  /** The six status tabs and the untabbed orders together count every order once. */
  lemma {:induction false} TabsCountEveryOrder(orders: seq<Order>)
    ensures CountStatus(orders, Pending) + CountStatus(orders, Accepted) + CountStatus(orders, Preparing)
          + CountStatus(orders, Ready) + CountStatus(orders, Delivered) + CountStatus(orders, Cancelled)
          + Untabbed(orders) == |orders|
    decreases |orders|
  {
    if orders != [] {
      TabsCountEveryOrder(orders[1..]);
      CountStatusCons(orders, Pending);
      CountStatusCons(orders, Accepted);
      CountStatusCons(orders, Preparing);
      CountStatusCons(orders, Ready);
      CountStatusCons(orders, Delivered);
      CountStatusCons(orders, Cancelled);
      UntabbedCons(orders);
    }
  }

  /** One step of counting a status. */
  lemma CountStatusCons(orders: seq<Order>, s: Status)
    requires orders != []
    ensures CountStatus(orders, s) == (if orders[0].status == s then 1 else 0) + CountStatus(orders[1..], s)
  {
  }

  /** One step of counting the untabbed orders. */
  lemma UntabbedCons(orders: seq<Order>)
    requires orders != []
    ensures Untabbed(orders) == (if orders[0].status == Delivering || orders[0].status.Other? then 1 else 0) + Untabbed(orders[1..])
  {
  }

  /** The tab counts of the board are the counts over this business's orders, whatever
      their order on the board; "all" counts every one of them. */
  lemma TabCounts(orders: seq<Order>, b: Business, s: Status)
    ensures var board := BusinessOrders(orders, Some(b));
      var mine := Filter(orders, (o: Order) => o.businessId == b.id);
      && |board| == |mine|
      && CountStatus(board, s) == CountStatus(mine, s)
  {
    var board := BusinessOrders(orders, Some(b));
    var mine := Filter(orders, (o: Order) => o.businessId == b.id);
    assert |multiset(board)| == |multiset(mine)|;
    CountOfPermutation(board, mine, (o: Order) => o.status == s);
  }

  /** `getStatusText`: the Spanish label, or the stored text for an unknown status. */
  function StatusText(s: Status): (t: string)
    ensures s.Other? ==> t == s.raw
  {
    match s
    case Pending => "Pendiente"
    case Accepted => "Aceptado"
    case Preparing => "Preparando"
    case Ready => "Listo para Recoger"
    case Delivering => "En Camino"
    case Delivered => "Entregado"
    case Cancelled => "Cancelado"
    case Other(raw) => raw
  }

  /** `getClientName`: the name of the first client with the id, or "Cliente Anónimo"
      when no client has it. */
  function ClientName(clients: seq<Client>, clientId: string): (name: string)
    ensures (forall c :: c in clients ==> c.id != clientId) ==> name == "Cliente Anónimo"
    ensures (exists c :: c in clients && c.id == clientId) ==>
      exists c :: c in clients && c.id == clientId && c.name == name
  {
    match Find(clients, (c: Client) => c.id == clientId)
    case Some(c) => c.name
    case None => "Cliente Anónimo"
  }
}
