/** The Order schema: line items, the status and payment enums, defaults and validation on `save`. */
module OrderModel {
  import opened Wrappers
  import opened Common

  datatype Status = Pending | Confirmed | Delivered | Cancelled

  function StatusName(s: Status): string
  {
    match s
    case Pending => "pending"
    case Confirmed => "confirmed"
    case Delivered => "delivered"
    case Cancelled => "cancelled"
  }

  /** The `status` enum check: exactly the four names are accepted. */
  function ParseStatus(t: string): (r: Option<Status>)
    ensures r.Some? ==> StatusName(r.value) == t
    ensures r.None? ==> forall s :: StatusName(s) != t
  {
    if t == "pending" then Some(Pending)
    else if t == "confirmed" then Some(Confirmed)
    else if t == "delivered" then Some(Delivered)
    else if t == "cancelled" then Some(Cancelled)
    else None
  }

  lemma StatusRoundTrip(s: Status)
    ensures ParseStatus(StatusName(s)) == Some(s)
  {
  }

  datatype PaymentMethod = Online | Cod | Upi

  function PaymentName(m: PaymentMethod): string
  {
    match m
    case Online => "online"
    case Cod => "cod"
    case Upi => "upi"
  }

  /** The `paymentMethod` enum check. */
  function ParsePayment(t: string): (r: Option<PaymentMethod>)
    ensures r.Some? ==> PaymentName(r.value) == t
    ensures r.None? ==> forall m :: PaymentName(m) != t
  {
    if t == "online" then Some(Online)
    else if t == "cod" then Some(Cod)
    else if t == "upi" then Some(Upi)
    else None
  }

  lemma PaymentRoundTrip(m: PaymentMethod)
    ensures ParsePayment(PaymentName(m)) == Some(m)
  {
  }

  /** A stored line item: both fields are required by the schema. */
  datatype OrderItem = OrderItem(productId: Id, quantity: int)

  /** A stored order document. */
  datatype Order = Order(
    id: Id,
    customerId: Id,
    items: seq<OrderItem>,
    totalPrice: int,
    contactName: Option<string>,
    contactPhone: Option<string>,
    paymentMethod: PaymentMethod,
    deliveryAddress: Option<string>,
    status: Status,
    createdAt: int)

  /** A line item as submitted. `quantity` is `None` when it is absent or not a number. */
  datatype RequestItem = RequestItem(productId: string, quantity: Option<int>)

  /** The body of an order-placement request. */
  datatype OrderRequest = OrderRequest(
    items: Option<seq<RequestItem>>,   // None: missing or not an array
    buyerId: Option<string>,
    totalPrice: Option<int>,           // None: missing or null
    paymentMethod: Option<string>,
    deliveryAddress: Option<string>,
    contactName: Option<string>,
    contactPhone: Option<string>)

  /** Every submitted item casts to the item schema. */
  predicate ItemsStorable(items: seq<RequestItem>)
  {
    forall i :: 0 <= i < |items| ==> ValidObjectId(items[i].productId) && items[i].quantity.Some?
  }

  function StoredItems(items: seq<RequestItem>): (r: seq<OrderItem>)
    requires ItemsStorable(items)
    ensures |r| == |items|
    ensures forall i :: 0 <= i < |items| ==>
      r[i] == OrderItem(items[i].productId, items[i].quantity.value)
  {
    seq(|items|, i requires 0 <= i < |items| => OrderItem(items[i].productId, items[i].quantity.value))
  }

  /**
   * `new Order({...})` followed by validation on `save`: `customerId`, `totalPrice` and every
   * item's fields are required, the two enums are checked, and the defaults fill in an absent
   * `paymentMethod` (cod), `status` (pending) and `createdAt` (now).
   */
  function NewOrder(id: Id, customerId: string, items: seq<RequestItem>, totalPrice: Option<int>,
                    contactName: Option<string>, contactPhone: Option<string>,
                    paymentMethod: Option<string>, deliveryAddress: Option<string>,
                    status: Option<string>, now: int): (r: Result<Order, Error>)
    ensures r.Ok? <==>
      && ValidObjectId(customerId)
      && ItemsStorable(items)
      && totalPrice.Some?
      && (paymentMethod.Some? ==> ParsePayment(paymentMethod.value).Some?)
      && (status.Some? ==> ParseStatus(status.value).Some?)
    ensures r.Err? ==> r.error == ValidationFailed
    ensures r.Ok? ==>
      && r.value.id == id && r.value.customerId == customerId && r.value.createdAt == now
      && r.value.totalPrice == totalPrice.value
      && |r.value.items| == |items|
      && (forall i :: 0 <= i < |items| ==>
            r.value.items[i] == OrderItem(items[i].productId, items[i].quantity.value))
      && PaymentName(r.value.paymentMethod) == (if paymentMethod.Some? then paymentMethod.value else "cod")
      && StatusName(r.value.status) == (if status.Some? then status.value else "pending")
      && r.value.deliveryAddress == deliveryAddress
      && r.value.contactName == contactName && r.value.contactPhone == contactPhone
  {
    if !ValidObjectId(customerId) || !ItemsStorable(items) || totalPrice.None? then Err(ValidationFailed)
    else
      var pm := if paymentMethod.Some? then ParsePayment(paymentMethod.value) else Some(Cod);
      var st := if status.Some? then ParseStatus(status.value) else Some(Pending);
      if pm.None? || st.None? then Err(ValidationFailed)
      else Ok(Order(id, customerId, StoredItems(items), totalPrice.value, contactName, contactPhone,
                    pm.value, deliveryAddress, st.value, now))
  }

  /** The `_id` unique index: no two orders share an id. */
  predicate DistinctIds(orders: seq<Order>)
  {
    forall i, j :: 0 <= i < j < |orders| ==> orders[i].id != orders[j].id
  }

  predicate IdTaken(orders: seq<Order>, id: Id)
  {
    exists o :: o in orders && o.id == id
  }

  /** The first order with the given id (`Order.findById`). */
  function FindOrder(orders: seq<Order>, id: Id): (r: Option<nat>)
    ensures r.Some? ==> r.value < |orders| && orders[r.value].id == id
    ensures r.None? <==> !IdTaken(orders, id)
  {
    if orders == [] then None
    else if orders[0].id == id then Some(0)
    else
      var r := FindOrder(orders[1..], id);
      assert forall o :: o in orders[1..] ==> o in orders;
      assert forall o :: o in orders ==> o == orders[0] || o in orders[1..];
      if r.Some? then Some(r.value + 1) else None
  }

  /** `{ 'items.productId': { $in: ids } }`: some line item names one of the products. */
  predicate Touches(o: Order, ids: set<Id>)
  {
    exists i :: 0 <= i < |o.items| && o.items[i].productId in ids
  }

  /** The sort key of `sort({ createdAt: -1 })`. */
  function OrderCreated(o: Order): int
  {
    o.createdAt
  }

  /** The number of submitted lines that name product `k`. */
  function LineCount(items: seq<RequestItem>, k: Id): nat
  {
    if items == [] then 0
    else (if items[0].productId == k then 1 else 0) + LineCount(items[1..], k)
  }

  /** The total quantity submitted for product `k` (an absent quantity adds nothing). */
  function QtySum(items: seq<RequestItem>, k: Id): int
  {
    if items == [] then 0
    else (if items[0].productId == k && items[0].quantity.Some? then items[0].quantity.value else 0)
         + QtySum(items[1..], k)
  }
}
