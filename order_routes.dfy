/** POST /api/orders, GET /api/orders and GET /api/orders/stats/monthly. */
module OrderRoutes {
  import opened Common
  import OM = OrderModel
  import MonthGroups
  import Store

  /** One element of the request's `items` array. */
  datatype RequestItem = RequestItem(productId: Option<Id>, quantity: Option<int>, priceAtOrder: Option<int>)

  /** The request's `items` field: missing or falsy, present but not an
      array, or an array. */
  datatype ItemsField = ItemsAbsent | ItemsNotArray | ItemsArray(items: seq<RequestItem>)

  /** The body of POST /api/orders. A client may send a `totalAmount`; the
      handler never reads it. */
  datatype OrderRequest = OrderRequest(userId: Option<Id>, items: ItemsField, status: Option<string>,
                                       totalAmount: Option<int>)

  /** The guard of the handler: a user and a non-empty array of items. */
  predicate HasUserAndItems(req: OrderRequest) {
    req.userId.Some? && req.items.ItemsArray? && req.items.items != []
  }

  /** `x || 0` on an optional number. */
  function OrZero(v: Option<int>): int {
    if v.None? then 0 else v.value
  }

  /** The server-side total: `quantity * priceAtOrder` summed over the
      submitted items, a missing quantity or price counting as 0. */
  function OrderTotal(items: seq<RequestItem>): int {
    if items == [] then 0
    else OrderTotal(items[..|items| - 1]) + OrZero(items[|items| - 1].quantity) * OrZero(items[|items| - 1].priceAtOrder)
  }

  /** The fold adds up item by item: the total of a concatenation is the sum
      of the totals. */
  lemma {:induction false} OrderTotalAppend(a: seq<RequestItem>, b: seq<RequestItem>)
    ensures OrderTotal(a + b) == OrderTotal(a) + OrderTotal(b)
  {
    if b != [] {
      var b' := b[..|b| - 1];
      assert (a + b)[..|a + b| - 1] == a + b';
      OrderTotalAppend(a, b');
    } else {
      assert a + b == a;
    }
  }

  /** The items handed to `Order.create`: `productId` renamed to `product`,
      quantity and price copied. */
  function ToInput(i: RequestItem): OM.ItemInput {
    OM.ItemInput(i.productId, i.quantity, i.priceAtOrder)
  }

  function MapItems(items: seq<RequestItem>): (r: seq<OM.ItemInput>)
    ensures |r| == |items|
  {
    seq(|items|, k requires 0 <= k < |items| => ToInput(items[k]))
  }

  /** `status || "pending"`. */
  function StatusOrDefault(status: Option<string>): (r: string)
    ensures Supplied(status) ==> r == status.value
    ensures !Supplied(status) ==> OM.ParseStatus(r) == Some(OM.DefaultStatus)
  {
    OM.ParseStatusName(OM.DefaultStatus);
    if Supplied(status) then status.value else OM.StatusName(OM.DefaultStatus)
  }

  /** Once the items pass validation, the total computed from the request
      equals the subtotal of the stored items. */
  lemma {:induction false} StoredTotal(items: seq<RequestItem>)
    requires OM.CastItems(MapItems(items)).Some?
    ensures OM.Subtotal(OM.CastItems(MapItems(items)).value) == OrderTotal(items)
  {
    if items != [] {
      var stored := OM.CastItems(MapItems(items)).value;
      var front := items[..|items| - 1];
      var last := items[|items| - 1];
      assert MapItems(front) == MapItems(items)[..|items| - 1];
      assert OM.CastItem(MapItems(items)[|items| - 1]) == Some(stored[|items| - 1]);
      StoredTotal(front);
      SubtotalSplit(stored);
      assert stored[..|stored| - 1] == OM.CastItems(MapItems(front)).value;
      OrderTotalAppend(front, [last]);
      assert front + [last] == items;
    }
  }

  lemma {:induction false} SubtotalSplit(s: seq<OM.OrderItem>)
    requires s != []
    ensures OM.Subtotal(s) == OM.Subtotal(s[..|s| - 1]) + s[|s| - 1].quantity * s[|s| - 1].priceAtOrder
  {
    if |s| > 1 {
      SubtotalSplit(s[1..]);
      assert s[1..][..|s[1..]| - 1] == s[..|s| - 1][1..];
    }
  }

  /** The items pass validation exactly when each has a product, a quantity
      of at least 1 and a price of at least 0. */
  predicate ItemsValid(items: seq<RequestItem>) {
    forall k :: 0 <= k < |items| ==>
      items[k].productId.Some? && items[k].quantity.Some? && items[k].quantity.value >= 1
      && items[k].priceAtOrder.Some? && items[k].priceAtOrder.value >= 0
  }

  /** Item validation succeeds exactly on valid items, and then stores each
      item's product, quantity and price unchanged, in the submitted order. */
  lemma StoredItems(items: seq<RequestItem>)
    ensures OM.CastItems(MapItems(items)).Some? <==> ItemsValid(items)
    ensures OM.CastItems(MapItems(items)).Some? ==>
      var stored := OM.CastItems(MapItems(items)).value;
      && |stored| == |items|
      && (forall k :: 0 <= k < |items| ==>
            Some(stored[k].product) == items[k].productId && Some(stored[k].quantity) == items[k].quantity
            && Some(stored[k].priceAtOrder) == items[k].priceAtOrder)
  {
    var inputs := MapItems(items);
    assert forall k :: 0 <= k < |items| ==> inputs[k] == ToInput(items[k]);
  }

  /** POST /api/orders. */
  method CreateOrder(db: Store.Database, req: OrderRequest, now: Instant) returns (res: Response<OM.Order>)
    requires db.Valid()
    modifies db
    ensures db.Valid()
    ensures res.BadRequest? <==> !HasUserAndItems(req)
    ensures res.ServerError? <==> HasUserAndItems(req) && !(ItemsValid(req.items.items) && OM.ParseStatus(StatusOrDefault(req.status)).Some?)
    ensures res.NotFound? == res.Conflict? == false
    ensures !res.Created? ==> db.orders == old(db.orders) && db.nextId == old(db.nextId)
    ensures res.Created? ==>
      var o := res.value;
      var items := req.items.items;
      && db.orders == old(db.orders) + [o] && db.nextId == old(db.nextId) + 1
      && o.id == old(db.nextId) && o.user == req.userId.value && o.createdAt == now
      && o.totalAmount == OrderTotal(items)
      && |o.items| == |items|
      && (forall k :: 0 <= k < |items| ==>
            Some(o.items[k].product) == items[k].productId && Some(o.items[k].quantity) == items[k].quantity
            && Some(o.items[k].priceAtOrder) == items[k].priceAtOrder)
      && OM.StatusName(o.status) == StatusOrDefault(req.status)
    ensures db.users == old(db.users) && db.products == old(db.products)
    ensures db.invoices == old(db.invoices) && db.reviews == old(db.reviews)
  {
    if !(req.userId.Some? && req.items.ItemsArray? && |req.items.items| > 0) {
      return BadRequest;
    }
    var items := req.items.items;
    var total := OrderTotal(items);
    var inputs := MapItems(items);
    StoredItems(items);
    if OM.CastItems(inputs).Some? {
      StoredTotal(items);
      OM.SubtotalNonNegative(OM.CastItems(inputs).value);
    }
    var candidate := OM.Cast(db.nextId, req.userId.value, inputs, StatusOrDefault(req.status), total, now);
    if candidate.None? {
      return ServerError;
    }
    var o := candidate.value;
    Store.AddOrderOk(db.users, db.products, db.orders, db.invoices, db.reviews, db.nextId, o);
    db.orders := db.orders + [o];
    db.nextId := db.nextId + 1;
    res := Created(o);
  }

  /** GET /api/orders: every stored order, in insertion order. */
  method ListOrders(db: Store.Database) returns (r: seq<OM.Order>)
    ensures r == db.orders
  {
    r := db.orders;
  }

  function CreatedMonth(o: OM.Order): YearMonth {
    MonthOf(o.createdAt)
  }

  function Amount(o: OM.Order): int {
    o.totalAmount
  }

  /** GET /api/orders/stats/monthly. */
  function MonthlyStats(orders: seq<OM.Order>): seq<MonthGroups.MonthTotal> {
    MonthGroups.Group(orders, CreatedMonth, Amount)
  }

  /** One row per month in which an order was created, keys strictly
      ascending; each row counts and sums that month's orders; the counts add
      up to the number of orders and the totals to the sum of all totals. */
  lemma MonthlyStatsSpec(orders: seq<OM.Order>)
    ensures var r := MonthlyStats(orders);
      && MonthGroups.Ascending(r)
      && (forall i :: 0 <= i < |r| ==>
            r[i].count >= 1 && r[i].count == MonthGroups.CountIn(orders, CreatedMonth, r[i].month)
            && r[i].total == MonthGroups.SumIn(orders, CreatedMonth, Amount, r[i].month))
      && (forall m :: MonthGroups.HasMonth(r, m) <==> MonthGroups.CountIn(orders, CreatedMonth, m) > 0)
      && MonthGroups.Counts(r) == |orders| && MonthGroups.Totals(r) == SumAll(orders, Amount)
  {
    MonthGroups.GroupSpec(orders, CreatedMonth, Amount);
  }
}
