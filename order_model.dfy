/** The Order and OrderItem schemas: the record types, their field
    constraints and what `Order.create` does with the fields it is given. */
module OrderModel {
  import opened Common

  datatype OrderStatus = Pending | Paid | Shipped | Cancelled

  function StatusName(s: OrderStatus): string {
    match s
    case Pending => "pending"
    case Paid => "paid"
    case Shipped => "shipped"
    case Cancelled => "cancelled"
  }

  /** The `enum` validator of `status`: only the four names are accepted. */
  function ParseStatus(s: string): (r: Option<OrderStatus>)
    ensures r.Some? <==> s in {"pending", "paid", "shipped", "cancelled"}
    ensures r.Some? ==> StatusName(r.value) == s
  {
    if s == "pending" then Some(Pending)
    else if s == "paid" then Some(Paid)
    else if s == "shipped" then Some(Shipped)
    else if s == "cancelled" then Some(Cancelled)
    else None
  }

  lemma ParseStatusName(st: OrderStatus)
    ensures ParseStatus(StatusName(st)) == Some(st)
  {
  }

  /** The `default` of `status`. */
  const DefaultStatus: OrderStatus := Pending

  /** An item as handed to `Order.create`; any field may be missing. */
  datatype ItemInput = ItemInput(product: Option<Id>, quantity: Option<int>, priceAtOrder: Option<int>)

  /** A stored item: product required, quantity at least 1, price at least 0. */
  datatype OrderItem = OrderItem(product: Id, quantity: int, priceAtOrder: int)

  predicate ValidItem(i: OrderItem) {
    i.quantity >= 1 && i.priceAtOrder >= 0
  }

  /** Sum of quantity times price over stored items. */
  function Subtotal(items: seq<OrderItem>): int {
    if items == [] then 0 else items[0].quantity * items[0].priceAtOrder + Subtotal(items[1..])
  }

  datatype Order = Order(id: Id, user: Id, items: seq<OrderItem>, status: OrderStatus,
                         totalAmount: int, createdAt: Instant)

  predicate ValidItems(items: seq<OrderItem>) {
    forall k :: 0 <= k < |items| ==> ValidItem(items[k])
  }

  /** The schema's constraints on a stored order. */
  predicate Valid(o: Order) {
    ValidItems(o.items) && o.totalAmount >= 0
  }

  /** Subdocument validation of one item. */
  function CastItem(i: ItemInput): (r: Option<OrderItem>)
    ensures r.Some? <==> (i.product.Some? && i.quantity.Some? && i.priceAtOrder.Some?
                          && i.quantity.value >= 1 && i.priceAtOrder.value >= 0)
    ensures r.Some? ==> ValidItem(r.value) && r.value.product == i.product.value
                        && r.value.quantity == i.quantity.value && r.value.priceAtOrder == i.priceAtOrder.value
  {
    if i.product.Some? && i.quantity.Some? && i.priceAtOrder.Some?
       && i.quantity.value >= 1 && i.priceAtOrder.value >= 0
    then Some(OrderItem(i.product.value, i.quantity.value, i.priceAtOrder.value))
    else None
  }

  /** Validation of the `items` array: every item must pass, and the stored
      array keeps the length and the order of the input. */
  function CastItems(items: seq<ItemInput>): (r: Option<seq<OrderItem>>)
    ensures r.Some? <==> forall k :: 0 <= k < |items| ==> CastItem(items[k]).Some?
    ensures r.Some? ==> |r.value| == |items|
                        && forall k :: 0 <= k < |items| ==> CastItem(items[k]) == Some(r.value[k])
  {
    if items == [] then Some([])
    else
      match (CastItem(items[0]), CastItems(items[1..]))
      case (Some(first), Some(rest)) => Some([first] + rest)
      case _ => None
  }

  /** `Order.create`: validates the fields and builds the stored record, or
      fails (the handler's 500 branch). */
  function Cast(id: Id, user: Id, items: seq<ItemInput>, status: string, totalAmount: int,
                now: Instant): (r: Option<Order>)
    ensures r.Some? <==> CastItems(items).Some? && ParseStatus(status).Some? && totalAmount >= 0
    ensures r.Some? ==> Valid(r.value)
    ensures r.Some? ==> r.value.id == id && r.value.user == user && r.value.items == CastItems(items).value
                        && StatusName(r.value.status) == status && r.value.totalAmount == totalAmount
                        && r.value.createdAt == now
  {
    match (CastItems(items), ParseStatus(status))
    case (Some(stored), Some(st)) =>
      if totalAmount >= 0 then Some(Order(id, user, stored, st, totalAmount, now)) else None
    case _ => None
  }

  function ItemInputOf(i: OrderItem): ItemInput {
    ItemInput(Some(i.product), Some(i.quantity), Some(i.priceAtOrder))
  }

  /** A stored order passes validation again unchanged. */
  lemma {:induction false} CastStored(o: Order)
    requires Valid(o)
    ensures Cast(o.id, o.user, seq(|o.items|, k requires 0 <= k < |o.items| => ItemInputOf(o.items[k])),
                 StatusName(o.status), o.totalAmount, o.createdAt) == Some(o)
  {
    var inputs := seq(|o.items|, k requires 0 <= k < |o.items| => ItemInputOf(o.items[k]));
    var stored := CastItems(inputs);
    assert stored.Some?;
    assert stored.value == o.items;
    ParseStatusName(o.status);
  }

  /** Valid items never give a negative subtotal, so the `min: 0` constraint on
      `totalAmount` never rejects a total computed from them. */
  lemma {:induction false} SubtotalNonNegative(items: seq<OrderItem>)
    requires ValidItems(items)
    ensures Subtotal(items) >= 0
  {
    if items != [] {
      assert ValidItem(items[0]);
      SubtotalNonNegative(items[1..]);
    }
  }
}
