/**
 * The client's cart page: changing a line's quantity, removing a product, emptying the
 * cart, the subtotal, delivery fee and total, the delivery address picked on the map,
 * and the checkout that turns the cart into a pending order.
 */
module Cart {
  import opened Common
  import opened Seqs
  import opened Texts
  import opened Domain
  import opened DataStore

  /** `updateQuantity(productId, change)`: the lines of the product get `change` more
      units, those that reach zero or less are dropped, every other line stays as it
      was and where it was. */
  function WithQuantityChange(cart: seq<Line>, productId: string, change: int): (r: seq<Line>)
    ensures |r| <= |cart|
    ensures forall l :: l in r && l.productId != productId ==> l in cart
    ensures forall l :: l in cart && l.productId != productId ==> l in r
    decreases |cart|
  {
    if cart == [] then []
    else
      var l := cart[0];
      var rest := WithQuantityChange(cart[1..], productId, change);
      if l.productId != productId then [l] + rest
      else if l.quantity + change > 0 then [l.(quantity := l.quantity + change)] + rest
      else rest
  }

  /** The line a line becomes: itself for another product, `change` more units of it,
      or nothing when that leaves no positive quantity. */
  function Changed(l: Line, productId: string, change: int): seq<Line> {
    if l.productId != productId then [l]
    else if l.quantity + change > 0 then [l.(quantity := l.quantity + change)]
    else []
  }

  lemma ChangeUnfold(cart: seq<Line>, productId: string, change: int)
    requires cart != []
    ensures WithQuantityChange(cart, productId, change)
         == Changed(cart[0], productId, change) + WithQuantityChange(cart[1..], productId, change)
  {
  }

  /** Each line of the product that keeps a positive quantity is still there with
      `change` more units. */
  lemma {:induction false} ChangedLinesKept(cart: seq<Line>, productId: string, change: int)
    ensures forall i :: 0 <= i < |cart| && cart[i].productId == productId && cart[i].quantity + change > 0 ==>
      cart[i].(quantity := cart[i].quantity + change) in WithQuantityChange(cart, productId, change)
    decreases |cart|
  {
    if cart != [] {
      ChangedLinesKept(cart[1..], productId, change);
      ChangeUnfold(cart, productId, change);
      forall i | 0 <= i < |cart| && cart[i].productId == productId && cart[i].quantity + change > 0
        ensures cart[i].(quantity := cart[i].quantity + change) in WithQuantityChange(cart, productId, change)
      {
        if i > 0 {
          assert cart[1..][i - 1] == cart[i];
        }
      }
    }
  }

  /** Every line of the product after a change is an earlier line with `change` more
      units, and has a positive quantity. */
  lemma {:induction false} ChangedLinesCome(cart: seq<Line>, productId: string, change: int)
    ensures forall l :: l in WithQuantityChange(cart, productId, change) && l.productId == productId ==>
      l.quantity > 0 && exists i :: 0 <= i < |cart| && l == cart[i].(quantity := cart[i].quantity + change)
    decreases |cart|
  {
    if cart != [] {
      ChangedLinesCome(cart[1..], productId, change);
      ChangeUnfold(cart, productId, change);
      var rest := WithQuantityChange(cart[1..], productId, change);
      forall l | l in WithQuantityChange(cart, productId, change) && l.productId == productId
        ensures l.quantity > 0 && exists i :: 0 <= i < |cart| && l == cart[i].(quantity := cart[i].quantity + change)
      {
        if l in rest {
          var i :| 0 <= i < |cart[1..]| && l == cart[1..][i].(quantity := cart[1..][i].quantity + change);
          assert cart[1..][i] == cart[i + 1];
        } else {
          assert l in Changed(cart[0], productId, change);
        }
      }
    }
  }

  /** Every view of the cart that ignores the changed product sees no change at all,
      order included. */
  lemma {:induction false} QuantityChangeKeepsOthers(cart: seq<Line>, productId: string, change: int, keep: Line -> bool)
    requires forall l :: keep(l) ==> l.productId != productId
    ensures Filter(WithQuantityChange(cart, productId, change), keep) == Filter(cart, keep)
    decreases |cart|
  {
    if cart != [] {
      var l := cart[0];
      var r := WithQuantityChange(cart, productId, change);
      var rest := WithQuantityChange(cart[1..], productId, change);
      QuantityChangeKeepsOthers(cart[1..], productId, change, keep);
      if l.productId != productId {
        assert r == [l] + rest;
        assert r[0] == l && r[1..] == rest;
      } else if l.quantity + change > 0 {
        assert r == [l.(quantity := l.quantity + change)] + rest;
        assert !keep(r[0]) && !keep(l) && r[1..] == rest;
      } else {
        assert !keep(l) && r == rest;
      }
    }
  }

  /** `removeItem(productId)`. */
  function WithoutProduct(cart: seq<Line>, productId: string): (r: seq<Line>)
    ensures forall l :: l in r <==> l in cart && l.productId != productId
  {
    Filter(cart, (l: Line) => l.productId != productId)
  }

  /** Removing a product is what lowering its quantity to nothing does. */
  lemma {:induction false} RemoveIsDropToZero(cart: seq<Line>, productId: string, change: int)
    requires forall l :: l in cart && l.productId == productId ==> l.quantity + change <= 0
    ensures WithQuantityChange(cart, productId, change) == WithoutProduct(cart, productId)
    decreases |cart|
  {
    if cart != [] {
      RemoveIsDropToZero(cart[1..], productId, change);
    }
  }

  /** `item.price * item.quantity`. */
  function Amount(l: Line): real {
    l.price * (l.quantity as real)
  }

  /** `cartTotal`. */
  function Subtotal(cart: seq<Line>): real {
    Sum(cart, Amount)
  }

  /** What `change` more units of each of a product's lines cost. */
  function ChangeValue(cart: seq<Line>, productId: string, change: int): real
    decreases |cart|
  {
    if cart == [] then 0.0
    else HeadChange(cart[0], productId, change) + ChangeValue(cart[1..], productId, change)
  }

  /** What a product's lines add to the subtotal. */
  function ProductAmount(cart: seq<Line>, productId: string): real
    decreases |cart|
  {
    if cart == [] then 0.0
    else (if cart[0].productId == productId then Amount(cart[0]) else 0.0) + ProductAmount(cart[1..], productId)
  }

  /** When no line of the product drops out, the subtotal moves by the price of `change`
      units of each of the product's lines. */
  lemma {:induction false} SubtotalAfterChange(cart: seq<Line>, productId: string, change: int)
    requires forall l :: l in cart && l.productId == productId ==> l.quantity + change > 0
    ensures Subtotal(WithQuantityChange(cart, productId, change))
         == Subtotal(cart) + ChangeValue(cart, productId, change)
    decreases |cart|
  {
    if cart != [] {
      SubtotalAfterChange(cart[1..], productId, change);
      ChangedHead(cart, productId, change);
      SubtotalCons(cart[0], cart[1..]);
      assert [cart[0]] + cart[1..] == cart;
    }
  }

  /** The first line of a cart after a change, when it stays, adds its amount plus the
      price of the change. */
  lemma ChangedHead(cart: seq<Line>, productId: string, change: int)
    requires cart != []
    requires cart[0].productId == productId ==> cart[0].quantity + change > 0
    ensures Subtotal(WithQuantityChange(cart, productId, change))
         == Amount(cart[0]) + HeadChange(cart[0], productId, change) + Subtotal(WithQuantityChange(cart[1..], productId, change))
  {
    var l := cart[0];
    var first := if l.productId != productId then l else l.(quantity := l.quantity + change);
    ChangeStep(cart, productId, change);
    SubtotalCons(first, WithQuantityChange(cart[1..], productId, change));
    AmountOfMore(l, change);
  }

  /** What `change` more units of line `l` cost, if it is of the product. */
  function HeadChange(l: Line, productId: string, change: int): real {
    if l.productId == productId then l.price * (change as real) else 0.0
  }

  /** With a single line of the product, that is `change` times its unit price. */
  lemma {:induction false} ChangeValueOfOneLine(cart: seq<Line>, productId: string, change: int, i: nat)
    requires i < |cart| && cart[i].productId == productId
    requires forall j :: 0 <= j < |cart| && j != i ==> cart[j].productId != productId
    ensures ChangeValue(cart, productId, change) == cart[i].price * (change as real)
    decreases |cart|
  {
    if i == 0 {
      NoChangeValue(cart[1..], productId, change);
    } else {
      ChangeValueOfOneLine(cart[1..], productId, change, i - 1);
    }
  }

  lemma {:induction false} NoChangeValue(cart: seq<Line>, productId: string, change: int)
    requires forall j :: 0 <= j < |cart| ==> cart[j].productId != productId
    ensures ChangeValue(cart, productId, change) == 0.0
    decreases |cart|
  {
    if cart != [] {
      NoChangeValue(cart[1..], productId, change);
    }
  }

  /** One step of a quantity change on a line that stays. */
  lemma ChangeStep(cart: seq<Line>, productId: string, change: int)
    requires cart != []
    requires cart[0].productId == productId ==> cart[0].quantity + change > 0
    ensures WithQuantityChange(cart, productId, change)
         == [if cart[0].productId != productId then cart[0] else cart[0].(quantity := cart[0].quantity + change)]
            + WithQuantityChange(cart[1..], productId, change)
  {
  }

  lemma SubtotalCons(first: Line, rest: seq<Line>)
    ensures Subtotal([first] + rest) == Amount(first) + Subtotal(rest)
  {
    assert ([first] + rest)[1..] == rest;
  }

  lemma AmountOfMore(l: Line, change: int)
    ensures Amount(l.(quantity := l.quantity + change)) == Amount(l) + l.price * (change as real)
  {
    assert ((l.quantity + change) as real) == (l.quantity as real) + (change as real);
  }

  /** Removing a product takes exactly its lines' amount off the subtotal. */
  lemma {:induction false} SubtotalAfterRemove(cart: seq<Line>, productId: string)
    ensures Subtotal(WithoutProduct(cart, productId)) == Subtotal(cart) - ProductAmount(cart, productId)
    decreases |cart|
  {
    if cart != [] {
      var l := cart[0];
      SubtotalAfterRemove(cart[1..], productId);
      var rest := WithoutProduct(cart[1..], productId);
      if l.productId != productId {
        assert WithoutProduct(cart, productId) == [l] + rest;
        assert ([l] + rest)[1..] == rest;
      } else {
        assert WithoutProduct(cart, productId) == [] + rest;
        assert [] + rest == rest;
      }
    }
  }

  /** `business?.delivery_fee || 0` for the business of the first line: nothing for an
      empty cart, an unknown business, or a business without a fee. */
  function DeliveryFee(cart: seq<Line>, businesses: seq<Business>): (fee: real)
    ensures cart == [] ==> fee == 0.0
    ensures cart != [] && (forall b :: b in businesses ==> b.id != cart[0].businessId) ==> fee == 0.0
    ensures fee != 0.0 ==> exists b :: b in businesses && b.id == cart[0].businessId && b.deliveryFee == Some(fee)
    ensures forall i :: cart != [] && FirstMatchAt(businesses, BusinessWithId(cart[0].businessId), i) ==>
      fee == OrZero(businesses[i].deliveryFee)
  {
    if cart == [] then 0.0
    else
      FindAtFirstMatch(businesses, BusinessWithId(cart[0].businessId));
      match Find(businesses, BusinessWithId(cart[0].businessId))
      case None => 0.0
      case Some(b) => OrZero(b.deliveryFee)
  }

  /** `finalTotal`. */
  function Total(cart: seq<Line>, businesses: seq<Business>): (t: real)
    ensures t - DeliveryFee(cart, businesses) == Sum(cart, Amount)
  {
    Subtotal(cart) + DeliveryFee(cart, businesses)
  }

  /** With non-negative prices, quantities and fee, the total is at least the subtotal,
      which is at least nothing. */
  lemma TotalBounds(cart: seq<Line>, businesses: seq<Business>)
    requires forall l :: l in cart ==> l.price >= 0.0 && l.quantity >= 0
    requires forall b :: b in businesses && b.deliveryFee.Some? ==> b.deliveryFee.value >= 0.0
    ensures 0.0 <= Subtotal(cart) <= Total(cart, businesses)
  {
    var hi := 0.0;
    forall i | 0 <= i < |cart|
      ensures Amount(cart[i]) >= 0.0
    {
      assert cart[i] in cart;
    }
    SubtotalNonNegative(cart);
  }

  lemma {:induction false} SubtotalNonNegative(cart: seq<Line>)
    requires forall i :: 0 <= i < |cart| ==> Amount(cart[i]) >= 0.0
    ensures Subtotal(cart) >= 0.0
    decreases |cart|
  {
    if cart != [] {
      SubtotalNonNegative(cart[1..]);
    }
  }

  /** `address.split(',')[0]`. */
  function Street(text: string): string {
    Split(text, ',')[0]
  }

  /** `address.split(',').slice(-3, -2)[0]?.trim() || ''`: the third piece from the
      end, trimmed, when there are at least three pieces. */
  function City(text: string): string {
    var parts := Split(text, ',');
    if |parts| >= 3 then Trim(parts[|parts| - 3]) else ""
  }

  /** `handleLocationChange(coords, address)`: the text, its street and city, and the
      coordinates replace the previous ones. */
  function Located(prev: Address, coords: LatLng, text: string): (a: Address)
    ensures a.fullAddress == text && a.coordinates == Some(coords)
    ensures a.street == Street(text) && a.city == City(text)
  {
    prev.(fullAddress := text, street := Street(text), city := City(text), coordinates := Some(coords))
  }

  /** The street is the text before the first comma, or all of it without one. */
  lemma StreetIsBeforeFirstComma(x: string, y: string)
    requires ',' !in x
    ensures Street(x + "," + y) == x
    ensures Street(x) == x
  {
    SplitAtFirst(x, ',', y);
    SplitWithoutSep(x, ',');
  }

  /** The city is the third comma-separated piece from the end, trimmed, whatever comes
      before it. */
  lemma CityIsThirdFromLast(a: string, b: string, c: string, d: string)
    requires ',' !in b && ',' !in c && ',' !in d
    ensures City(a + "," + b + "," + c + "," + d) == Trim(b)
  {
    var cd := c + [','] + d;
    var bcd := b + [','] + cd;
    var whole := a + [','] + bcd;
    assert a + "," + b + "," + c + "," + d == whole;
    SplitWithoutSep(b, ',');
    SplitWithoutSep(c, ',');
    SplitWithoutSep(d, ',');
    SplitAround(c, ',', d);
    SplitAround(b, ',', cd);
    SplitAround(a, ',', bcd);
    var parts := Split(whole, ',');
    assert parts == Split(a, ',') + [b, c, d];
    assert parts[|parts| - 3] == b;
  }

  /** An address with fewer than two commas names no city. */
  lemma NoCityWithoutTwoCommas(x: string, y: string)
    requires ',' !in x && ',' !in y
    ensures City(x) == "" && City(x + "," + y) == ""
  {
    SplitWithoutSep(x, ',');
    SplitWithoutSep(y, ',');
    SplitAround(x, ',', y);
    assert x + "," + y == x + [','] + y;
  }

  /** The order the checkout sends: a pending order of the first line's business for the
      whole cart at the final total. The id and creation time are the ones the backend
      assigns. */
  function OrderRecord(id: string, now: int, clientId: string, cart: seq<Line>, businesses: seq<Business>,
                       address: Address, notes: string): (o: Order)
    requires cart != []
    ensures o.status == Pending && o.clientId == clientId && o.businessId == cart[0].businessId
    ensures o.items == cart && o.totalPrice == Total(cart, businesses)
    ensures o.address == Some(address) && o.notes == notes
    ensures o.courierId.None? && o.prepTime.None? && o.clientRating.None? && o.deliveryRating.None?
  {
    Order(id, Pending, now, None, clientId, cart[0].businessId, None, cart, Total(cart, businesses),
          Some(address), notes, None, None)
  }

  /** The page's state: the cart, the notes for the business and the delivery address. */
  class CartPage {
    var cart: seq<Line>
    var notes: string
    var address: Address
    var submitting: bool

    constructor(saved: seq<Line>)
      ensures cart == saved && notes == "" && !submitting
      ensures address == Address("", "", "", Some(DefaultCoordinates))
    {
      cart := saved;
      notes := "";
      address := Address("", "", "", Some(DefaultCoordinates));
      submitting := false;
    }

    method UpdateQuantity(productId: string, change: int)
      modifies this`cart
      ensures cart == WithQuantityChange(old(cart), productId, change)
    {
      cart := WithQuantityChange(cart, productId, change);
    }

    method RemoveItem(productId: string)
      modifies this`cart
      ensures cart == WithoutProduct(old(cart), productId)
    {
      cart := WithoutProduct(cart, productId);
    }

    method ClearCart()
      modifies this`cart
      ensures cart == []
    {
      cart := [];
    }

    method LocationChange(coords: LatLng, text: string)
      modifies this`address
      ensures address == Located(old(address), coords, text)
    {
      address := Located(address, coords, text);
    }

    /**
     * `handleCheckout`: nothing happens without an address or a user; otherwise the
     * order is inserted, and only a successful insert empties the cart and the notes.
     * The button exists only on the page of a non-empty cart.
     */
    method Checkout(store: Store, user: Option<string>, businesses: seq<Business>, id: string, now: int, ok: bool)
      returns (placed: Option<Order>)
      requires cart != []
      modifies this`cart, this`notes, this`submitting, store`orders
      ensures address.fullAddress == "" || user.None? ==>
        placed.None? && cart == old(cart) && notes == old(notes) && store.orders == old(store.orders)
      ensures address.fullAddress != "" && user.Some? ==>
        var o := OrderRecord(id, now, user.value, old(cart), businesses, address, old(notes));
        && placed == (if ok then Some(o) else None)
        && store.orders == (if ok then old(store.orders) + [o] else old(store.orders))
        && cart == (if ok then [] else old(cart))
        && notes == (if ok then "" else old(notes))
      ensures !submitting
    {
      placed := None;
      if address.fullAddress == "" {
        submitting := false;
        return;
      }
      if user.None? {
        submitting := false;
        return;
      }
      submitting := true;
      var o := OrderRecord(id, now, user.value, cart, businesses, address, notes);
      placed := store.AddOrder(o, ok);
      if placed.Some? {
        cart := [];
        notes := "";
      }
      submitting := false;
    }
  }
}
