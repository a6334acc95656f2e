/**
 * The data context: the backend tables every view reads, the writes it offers
 * (insert and update of orders, couriers and businesses), the purge of finished orders
 * into the archive, the rating submission with its average recomputation, quick
 * messages and the promotion file bucket. Each backend call is a step whose outcome
 * (`ok`) is a parameter; the cached copy the views read is taken to be the table itself.
 */
module DataStore {
  import opened Common
  import opened Seqs
  import opened Texts
  import opened Domain

  predicate IsCompleted(o: Order) {
    Completed(o.status)
  }

  function OrderId(o: Order): string {
    o.id
  }

  /** `orders.find(o => o.id === id)`. */
  function FindOrder(orders: seq<Order>, id: string): (r: Option<Order>)
    ensures r.Some? ==> r.value in orders && r.value.id == id
    ensures r.None? <==> forall o :: o in orders ==> o.id != id
  {
    Find(orders, (o: Order) => o.id == id)
  }

  /** The archive row written for a finished order. */
  function ArchiveOf(o: Order, id: string): ArchiveRecord {
    ArchiveRecord(id, o.id, o.businessId, o.clientId, o.totalPrice, o.items, o.createdAt)
  }

  /** `orders.filter(o => !ids.includes(o.id))`: what `delete().in('id', ids)` leaves. */
  function WithoutIds(orders: seq<Order>, ids: seq<string>): (r: seq<Order>)
    ensures forall o :: o in r <==> o in orders && o.id !in ids
  {
    Filter(orders, (o: Order) => o.id !in ids)
  }

  predicate UniqueIds(orders: seq<Order>) {
    forall i, j :: 0 <= i < |orders| && 0 <= j < |orders| && orders[i].id == orders[j].id ==> i == j
  }

  /** With one row per id, deleting the ids of the finished orders leaves exactly the
      open orders, in their order. */
  lemma PurgeLeavesOpenOrders(orders: seq<Order>)
    requires UniqueIds(orders)
    ensures WithoutIds(orders, Map(Filter(orders, IsCompleted), OrderId))
         == Filter(orders, (o: Order) => !IsCompleted(o))
  {
    var done := Filter(orders, IsCompleted);
    var ids := Map(done, OrderId);
    forall o | o in orders
      ensures (o.id !in ids) == !IsCompleted(o)
    {
      if IsCompleted(o) {
        assert o in done;
        var k :| 0 <= k < |done| && done[k] == o;
        assert ids[k] == o.id;
      }
      if o.id in ids {
        var k :| 0 <= k < |ids| && ids[k] == o.id;
        var i :| 0 <= i < |orders| && orders[i] == o;
        assert done[k] in done;
        assert done[k] in orders;
        var j :| 0 <= j < |orders| && orders[j] == done[k];
        assert orders[i].id == orders[j].id;
      }
    }
    FilterCongruent(orders, (o: Order) => o.id !in ids, (o: Order) => !IsCompleted(o));
  }

  function AsReal(x: int): real {
    x as real
  }

  /** The mean of a non-empty list of scores: `sum / length`. */
  function Mean(xs: seq<int>): real
    requires |xs| > 0
  {
    Sum(xs, AsReal) / |xs| as real
  }

  /** A mean lies between the smallest and largest admissible score. */
  lemma MeanBounds(xs: seq<int>, lo: int, hi: int)
    requires |xs| > 0
    requires forall x :: x in xs ==> lo <= x <= hi
    ensures lo as real <= Mean(xs) <= hi as real
  {
    SumBounds(xs, AsReal, lo as real, hi as real);
    DivideBetween(Sum(xs, AsReal), |xs| as real, lo as real, hi as real);
  }

  /** Dividing by `n` a number between `n * lo` and `n * hi` gives one between `lo`
      and `hi`. */
  lemma DivideBetween(s: real, n: real, lo: real, hi: real)
    requires n > 0.0 && n * lo <= s <= n * hi
    ensures lo <= s / n <= hi
  {
    assert s / n - lo == (s - n * lo) / n;
    assert hi - s / n == (n * hi - s) / n;
  }

  /** The business scores `select('business_rating').eq('business_id', b).not('business_rating', 'is', null)`
      returns, in row order. */
  function BusinessScores(rows: seq<RatingRow>, b: string): (xs: seq<int>)
    ensures |xs| <= |rows|
    ensures forall x :: x in xs <==> exists r :: r in rows && r.businessId == b && r.businessRating == Some(x)
    decreases |rows|
  {
    if rows == [] then []
    else
      var r := rows[0];
      (if r.businessId == b && r.businessRating.Some? then [r.businessRating.value] else [])
      + BusinessScores(rows[1..], b)
  }

  /** The rows `BusinessScores` selects: those of business `b` with a business score. */
  function RatesBusiness(b: string): RatingRow -> bool {
    (r: RatingRow) => r.businessId == b && r.businessRating.Some?
  }

  function BusinessScore(r: RatingRow): int {
    r.businessRating.GetOr(0)
  }

  /** The selection keeps one score per selected row, duplicates included, in row
      order: exactly the rows' scores that `Mean` then averages. */
  lemma {:induction false} BusinessScoresOfEveryRow(rows: seq<RatingRow>, b: string)
    ensures BusinessScores(rows, b) == Map(Filter(rows, RatesBusiness(b)), BusinessScore)
    decreases |rows|
  {
    if rows != [] {
      BusinessScoresOfEveryRow(rows[1..], b);
      var r := rows[0];
      var head := if RatesBusiness(b)(r) then [r] else [];
      var tail := Filter(rows[1..], RatesBusiness(b));
      assert Filter(rows, RatesBusiness(b)) == head + tail;
      MapConcat(head, tail, BusinessScore);
      assert Map(head, BusinessScore) == if r.businessId == b && r.businessRating.Some? then [r.businessRating.value] else [];
    }
  }

  /** The courier scores selected the same way by `delivery_person_id`. */
  function CourierScores(rows: seq<RatingRow>, c: string): (xs: seq<int>)
    ensures |xs| <= |rows|
    ensures forall x :: x in xs <==> exists r :: r in rows && r.courierId == Some(c) && r.deliveryRating == Some(x)
    decreases |rows|
  {
    if rows == [] then []
    else
      var r := rows[0];
      (if r.courierId == Some(c) && r.deliveryRating.Some? then [r.deliveryRating.value] else [])
      + CourierScores(rows[1..], c)
  }

  /** The rows `CourierScores` selects: those of courier `c` with a delivery score. */
  function RatesCourier(c: string): RatingRow -> bool {
    (r: RatingRow) => r.courierId == Some(c) && r.deliveryRating.Some?
  }

  function CourierScore(r: RatingRow): int {
    r.deliveryRating.GetOr(0)
  }

  /** Appending a row adds its score, if it has one, at the end of the selection. */
  lemma {:induction false} BusinessScoresAppend(rows: seq<RatingRow>, r: RatingRow, b: string)
    ensures BusinessScores(rows + [r], b)
         == BusinessScores(rows, b) + (if r.businessId == b && r.businessRating.Some? then [r.businessRating.value] else [])
    decreases |rows|
  {
    if rows == [] {
      assert rows + [r] == [r];
    } else {
      assert (rows + [r])[1..] == rows[1..] + [r];
      BusinessScoresAppend(rows[1..], r, b);
    }
  }

  /** The courier selection likewise keeps one score per selected row. */
  lemma {:induction false} CourierScoresOfEveryRow(rows: seq<RatingRow>, c: string)
    ensures CourierScores(rows, c) == Map(Filter(rows, RatesCourier(c)), CourierScore)
    decreases |rows|
  {
    if rows != [] {
      CourierScoresOfEveryRow(rows[1..], c);
      var r := rows[0];
      var head := if RatesCourier(c)(r) then [r] else [];
      var tail := Filter(rows[1..], RatesCourier(c));
      assert Filter(rows, RatesCourier(c)) == head + tail;
      MapConcat(head, tail, CourierScore);
      assert Map(head, CourierScore) == if r.courierId == Some(c) && r.deliveryRating.Some? then [r.deliveryRating.value] else [];
    }
  }

  /** The same for the courier's scores. */
  lemma {:induction false} CourierScoresAppend(rows: seq<RatingRow>, r: RatingRow, c: string)
    ensures CourierScores(rows + [r], c)
         == CourierScores(rows, c) + (if r.courierId == Some(c) && r.deliveryRating.Some? then [r.deliveryRating.value] else [])
    decreases |rows|
  {
    if rows == [] {
      assert rows + [r] == [r];
    } else {
      assert (rows + [r])[1..] == rows[1..] + [r];
      CourierScoresAppend(rows[1..], r, c);
    }
  }

  /** A rating of 0 is a stored number, not a null, so it takes part in later averages:
      it adds nothing to the sum but one to the count. */
  lemma ZeroScoresCount(xs: seq<int>)
    ensures Mean(xs + [0]) == Sum(xs, AsReal) / (|xs| + 1) as real
  {
    var ys := xs + [0];
    assert |ys| == |xs| + 1;
    assert Sum(ys, AsReal) == Sum(xs, AsReal) by {
      SumConcat(xs, [0], AsReal);
      assert Sum([0], AsReal) == 0.0 by {
        assert [0][1..] == [];
      }
    }
  }

  datatype PurgeResult = PurgeResult(success: bool, message: string)

  /** What a promotion upload returns. */
  datatype UploadResult =
    | UploadError(message: string)
    | Uploaded(url: string, name: string, path: string)

  /** The extension `name.split('.').pop()` takes: the text after the last dot, or the
      whole name when it has none. */
  function Extension(name: string): (ext: string)
    ensures '.' !in ext
    ensures EndsWith(name, ext)
    ensures '.' !in name ==> ext == name
    ensures '.' in name ==> |ext| < |name| && name[|name| - |ext| - 1] == '.'
  {
    var parts := Split(name, '.');
    LastPartFacts(name, '.');
    parts[|parts| - 1]
  }

  /** The last piece of a split holds no separator and ends the text; it is the whole
      text when there is no separator, and follows one otherwise. */
  lemma LastPartFacts(name: string, sep: char)
    ensures var parts := Split(name, sep); var ext := parts[|parts| - 1];
      && sep !in ext && EndsWith(name, ext)
      && (sep !in name ==> ext == name)
      && (sep in name ==> |ext| < |name| && name[|name| - |ext| - 1] == sep)
  {
    var parts := Split(name, sep);
    SplitJoin(name, sep);
    LastPartIsSuffix(parts, sep);
    if sep !in name {
      SplitWithoutSep(name, sep);
    } else {
      SeparatorSplits(name, sep);
      LastPartAfterSep(parts, sep);
    }
  }

  /** Text holding the separator splits into two pieces or more. */
  lemma {:induction false} SeparatorSplits(s: string, sep: char)
    requires sep in s
    ensures |Split(s, sep)| >= 2
    decreases |s|
  {
    if s[0] != sep {
      assert sep in s[1..];
      SeparatorSplits(s[1..], sep);
    }
  }

  /** With two pieces or more, the last one follows a separator. */
  lemma {:induction false} LastPartAfterSep(parts: seq<string>, sep: char)
    requires |parts| >= 2
    ensures EndsWith(Join(parts, sep), [sep] + parts[|parts| - 1])
    decreases |parts|
  {
    var last := [sep] + parts[|parts| - 1];
    if |parts| == 2 {
      assert Join(parts, sep) == parts[0] + last;
    } else {
      LastPartAfterSep(parts[1..], sep);
      var tail := Join(parts[1..], sep);
      var j := Join(parts, sep);
      assert j == (parts[0] + [sep]) + tail;
      assert j[|j| - |last|..] == tail[|tail| - |last|..];
    }
  }

  /** The last piece is what a join ends with. */
  lemma {:induction false} LastPartIsSuffix(parts: seq<string>, sep: char)
    requires |parts| >= 1
    ensures EndsWith(Join(parts, sep), parts[|parts| - 1])
    decreases |parts|
  {
    if |parts| > 1 {
      LastPartIsSuffix(parts[1..], sep);
    }
  }

  class Store {
    var orders: seq<Order>
    var history: seq<ArchiveRecord>
    var ratings: seq<RatingRow>
    var businesses: seq<Business>
    var couriers: seq<Courier>
    var messages: seq<QuickMessage>
    /** Paths held by the `promotions` storage bucket. */
    var files: set<string>

    /** The tables as the backend holds them when the session starts: those `fetchData`
        loads, and the ratings table and promotions bucket that `addRating` and the
        upload and delete calls read and write in place. */
    constructor(orders: seq<Order>, history: seq<ArchiveRecord>, ratings: seq<RatingRow>,
                businesses: seq<Business>, couriers: seq<Courier>, messages: seq<QuickMessage>,
                files: set<string>)
      ensures this.orders == orders && this.history == history && this.ratings == ratings
      ensures this.businesses == businesses && this.couriers == couriers && this.messages == messages
      ensures this.files == files
    {
      this.orders := orders;
      this.history := history;
      this.ratings := ratings;
      this.businesses := businesses;
      this.couriers := couriers;
      this.messages := messages;
      this.files := files;
    }

    /** `addOrder`: the inserted row, or nothing when the insert fails. */
    method AddOrder(o: Order, ok: bool) returns (created: Option<Order>)
      modifies this`orders
      ensures created == if ok then Some(o) else None
      ensures orders == if ok then old(orders) + [o] else old(orders)
    {
      if ok {
        orders := orders + [o];
        created := Some(o);
      } else {
        created := None;
      }
    }

    /** `updateOrder(id, patch)`. */
    method UpdateOrder(id: string, p: OrderPatch, ok: bool)
      modifies this`orders
      ensures orders == if ok then UpdateOrders(old(orders), id, p) else old(orders)
    {
      if ok {
        orders := UpdateOrders(orders, id, p);
      }
    }

    /** `updateDeliveryPerson(id, patch)`. */
    method UpdateCourier(id: string, p: CourierPatch, ok: bool)
      modifies this`couriers
      ensures couriers == if ok then UpdateCouriers(old(couriers), id, p) else old(couriers)
    {
      if ok {
        couriers := UpdateCouriers(couriers, id, p);
      }
    }

    /** `updateBusiness(id, patch)`: reports whether it failed. */
    method UpdateBusiness(id: string, p: BusinessPatch, ok: bool) returns (failed: bool)
      modifies this`businesses
      ensures failed == !ok
      ensures businesses == if ok then UpdateBusinesses(old(businesses), id, p) else old(businesses)
    {
      if ok {
        businesses := UpdateBusinesses(businesses, id, p);
      }
      failed := !ok;
    }

    /**
     * `deleteCompletedOrders`: archive every delivered or cancelled order (one record
     * each, with a fresh id from `uuid`), then delete those ids. Nothing selected means
     * success without a write; a failed archive insert means failure and no delete.
     */
    method DeleteCompletedOrders(uuid: nat -> string, insertOk: bool, deleteOk: bool) returns (r: PurgeResult)
      modifies this`orders, this`history
      ensures var done := Filter(old(orders), IsCompleted);
        && (done == [] ==>
              && r == PurgeResult(true, "No hay pedidos completados para depurar.")
              && orders == old(orders) && history == old(history))
        && (done != [] && !insertOk ==>
              && r == PurgeResult(false, "Error al archivar los pedidos.")
              && orders == old(orders) && history == old(history))
        && (done != [] && insertOk ==>
              && |history| == |old(history)| + |done|
              && history[..|old(history)|] == old(history)
              && (forall i :: 0 <= i < |done| ==> history[|old(history)| + i] == ArchiveOf(done[i], uuid(i)))
              && orders == (if deleteOk then WithoutIds(old(orders), Map(done, OrderId)) else old(orders))
              && r == if deleteOk
                      then PurgeResult(true, IntToString(|done|) + " pedidos han sido depurados y archivados.")
                      else PurgeResult(false, "Error al eliminar los pedidos de la tabla principal."))
    {
      var done := Filter(orders, IsCompleted);
      if |done| == 0 {
        return PurgeResult(true, "No hay pedidos completados para depurar.");
      }
      var records := seq(|done|, i requires 0 <= i < |done| => ArchiveOf(done[i], uuid(i)));
      if !insertOk {
        return PurgeResult(false, "Error al archivar los pedidos.");
      }
      history := history + records;
      var ids := Map(done, OrderId);
      if !deleteOk {
        return PurgeResult(false, "Error al eliminar los pedidos de la tabla principal.");
      }
      orders := WithoutIds(orders, ids);
      r := PurgeResult(true, IntToString(|done|) + " pedidos han sido depurados y archivados.");
    }

    /**
     * `addRating`: without a user nothing happens; otherwise the order gets both scores
     * (stopping there if that fails), a rating row is inserted, and, if that succeeded,
     * the business average is recomputed when `businessRating > 0` and the courier
     * average when `deliveryRating > 0` and the order has a courier.
     */
    method AddRating(user: Option<string>, order: Order, businessRating: int, deliveryRating: int,
                     comment: string, updateOk: bool, insertOk: bool,
                     businessSelectOk: bool, businessUpdateOk: bool,
                     courierSelectOk: bool, courierUpdateOk: bool)
      modifies this`orders, this`ratings, this`businesses, this`couriers
      ensures user.None? ==> orders == old(orders) && ratings == old(ratings)
      ensures user.Some? ==>
        orders == if updateOk then UpdateOrders(old(orders), order.id, SetRatings(businessRating, deliveryRating)) else old(orders)
      ensures ratings == if user.Some? && updateOk && insertOk
        then old(ratings) + [RatingRow(order.id, user.value, order.businessId, order.courierId,
                                       Some(businessRating), Some(deliveryRating), comment)]
        else old(ratings)
      ensures var stored := user.Some? && updateOk && insertOk;
        var scores := BusinessScores(ratings, order.businessId);
        businesses == if stored && businessRating > 0 && businessSelectOk && |scores| > 0 && businessUpdateOk
          then UpdateBusinesses(old(businesses), order.businessId, SetBusinessRating(Mean(scores)))
          else old(businesses)
      ensures var stored := user.Some? && updateOk && insertOk;
        couriers == if stored && deliveryRating > 0 && Filled(order.courierId) && courierSelectOk
                       && |CourierScores(ratings, order.courierId.value)| > 0 && courierUpdateOk
          then UpdateCouriers(old(couriers), order.courierId.value,
                              SetCourierRating(Mean(CourierScores(ratings, order.courierId.value))))
          else old(couriers)
    {
      var stored := StoreRating(user, order, businessRating, deliveryRating, comment, updateOk, insertOk);
      if stored && businessRating > 0 {
        RefreshBusinessRating(order.businessId, businessSelectOk, businessUpdateOk);
      }
      if stored && deliveryRating > 0 && Filled(order.courierId) {
        RefreshCourierRating(order.courierId.value, courierSelectOk, courierUpdateOk);
      }
    }

    /** The first two steps of `addRating`: both scores on the order, then the rating
        row; `stored` tells whether both succeeded. */
    method StoreRating(user: Option<string>, order: Order, businessRating: int, deliveryRating: int,
                       comment: string, updateOk: bool, insertOk: bool) returns (stored: bool)
      modifies this`orders, this`ratings
      ensures stored == (user.Some? && updateOk && insertOk)
      ensures user.None? ==> orders == old(orders)
      ensures user.Some? ==>
        orders == if updateOk then UpdateOrders(old(orders), order.id, SetRatings(businessRating, deliveryRating)) else old(orders)
      ensures ratings == if stored
        then old(ratings) + [RatingRow(order.id, user.value, order.businessId, order.courierId,
                                       Some(businessRating), Some(deliveryRating), comment)]
        else old(ratings)
    {
      stored := false;
      if user.None? {
        return;
      }
      UpdateOrder(order.id, SetRatings(businessRating, deliveryRating), updateOk);
      if updateOk && insertOk {
        ratings := ratings + [RatingRow(order.id, user.value, order.businessId, order.courierId,
                                        Some(businessRating), Some(deliveryRating), comment)];
        stored := true;
      }
    }

    /** The business's average of its scores written back, when its ratings are read
        and hold a score. */
    method RefreshBusinessRating(id: string, selectOk: bool, updateOk: bool)
      modifies this`businesses
      ensures var scores := BusinessScores(ratings, id);
        businesses == if selectOk && |scores| > 0 && updateOk
          then UpdateBusinesses(old(businesses), id, SetBusinessRating(Mean(scores)))
          else old(businesses)
    {
      var scores := BusinessScores(ratings, id);
      if selectOk && |scores| > 0 {
        var _ := UpdateBusiness(id, SetBusinessRating(Mean(scores)), updateOk);
      }
    }

    /** The courier's average of its scores written back, when its ratings are read
        and hold a score. */
    method RefreshCourierRating(id: string, selectOk: bool, updateOk: bool)
      modifies this`couriers
      ensures var scores := CourierScores(ratings, id);
        couriers == if selectOk && |scores| > 0 && updateOk
          then UpdateCouriers(old(couriers), id, SetCourierRating(Mean(scores)))
          else old(couriers)
    {
      var scores := CourierScores(ratings, id);
      if selectOk && |scores| > 0 {
        UpdateCourier(id, SetCourierRating(Mean(scores)), updateOk);
      }
    }

    /** `sendQuickMessage`: nothing without a user; otherwise one inserted row. */
    method SendQuickMessage(user: Option<string>, orderId: string, recipientId: string, text: string,
                            now: int, ok: bool) returns (sent: bool)
      modifies this`messages
      ensures sent == (user.Some? && ok)
      ensures messages == if sent then old(messages) + [QuickMessage(orderId, user.value, recipientId, text, now)]
                          else old(messages)
    {
      sent := user.Some? && ok;
      if sent {
        messages := messages + [QuickMessage(orderId, user.value, recipientId, text, now)];
      }
    }

    /** `uploadPromotionFile`: stores the file under `{user}/{uuid}.{extension}` and
        returns its public address, original name and path. */
    method UploadPromotionFile(user: Option<string>, originalName: string, uuid: string,
                               publicBase: string, ok: bool) returns (r: UploadResult)
      modifies this`files
      ensures user.None? ==> r == UploadError("User not authenticated") && files == old(files)
      ensures user.Some? && !ok ==> r.UploadError? && files == old(files)
      ensures user.Some? && ok ==>
        var path := user.value + "/" + uuid + "." + Extension(originalName);
        r == Uploaded(publicBase + path, originalName, path) && files == old(files) + {path}
    {
      if user.None? {
        return UploadError("User not authenticated");
      }
      var path := user.value + "/" + uuid + "." + Extension(originalName);
      if !ok {
        return UploadError("upload failed");
      }
      files := files + {path};
      r := Uploaded(publicBase + path, originalName, path);
    }

    /** `deletePromotionFile`: reports whether it failed. */
    method DeletePromotionFile(user: Option<string>, path: string, ok: bool) returns (failed: bool)
      modifies this`files
      ensures failed == (user.None? || !ok)
      ensures files == if failed then old(files) else old(files) - {path}
    {
      failed := user.None? || !ok;
      if !failed {
        files := files - {path};
      }
    }
  }
}
