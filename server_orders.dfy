/**
 * The orders router of the current backend (server/routes/orders.js): the transactional
 * order placement, the three listings and the status update.
 */
module ServerOrders {
  import opened Wrappers
  import opened Common
  import opened ProductModel
  import opened OrderModel
  import opened Listing
  import opened Database

  // ---------------------------------------------------------------------------------------
  // POST / : place an order, all or nothing
  // ---------------------------------------------------------------------------------------

  /** One pass of the loop body against the session's current view of the products. */
  function StrictLine(ps: map<Id, Product>, item: RequestItem, customer: Id): (r: Result<map<Id, Product>, Error>)
    ensures r.Ok? ==> item.productId in r.value && r.value == ps[item.productId := r.value[item.productId]]
    ensures r.Ok? ==> item.productId in ps && r.value[item.productId].stock >= 0
  {
    var k := item.productId;
    if !ValidObjectId(k) then Err(InvalidProductId(k))
    else if k !in ps then Err(ProductNotFound(k))
    else if item.quantity.Some? && ps[k].stock < item.quantity.value then
      Err(InsufficientStock(ps[k].name, ps[k].stock))
    // `stock -= undefined` gives NaN, which does not cast; an invalid id does not cast into `buyers`
    else if item.quantity.None? || (customer !in ps[k].buyers && !ValidObjectId(customer)) then
      Err(ValidationFailed)
    else Ok(ps[k := Purchased(ps[k], item.quantity.value, customer)])
  }

  /** The whole loop: the lines in input order, each seeing the writes of the lines before it. */
  function StrictLines(ps: map<Id, Product>, items: seq<RequestItem>, customer: Id): (r: Result<map<Id, Product>, Error>)
    ensures r.Err? ==>
      r.error.InvalidProductId? || r.error.ProductNotFound? || r.error.InsufficientStock? || r.error == ValidationFailed
    decreases |items|
  {
    if items == [] then Ok(ps)
    else
      match StrictLine(ps, items[0], customer)
      case Err(e) => Err(e)
      case Ok(next) => StrictLines(next, items[1..], customer)
  }

  /** Line `i` passes its checks against the stock that the lines before it left. */
  ghost predicate StrictLineOk(ps: map<Id, Product>, items: seq<RequestItem>, i: nat)
    requires i < |items|
  {
    var k := items[i].productId;
    && ValidObjectId(k)
    && k in ps
    && items[i].quantity.Some?
    && ps[k].stock - QtySum(items[..i], k) >= items[i].quantity.value
  }

  /** The error a failing line `i` is reported with. */
  ghost function StrictLineError(ps: map<Id, Product>, items: seq<RequestItem>, i: nat): Error
    requires i < |items|
  {
    var k := items[i].productId;
    if !ValidObjectId(k) then InvalidProductId(k)
    else if k !in ps then ProductNotFound(k)
    else if items[i].quantity.Some? && ps[k].stock - QtySum(items[..i], k) < items[i].quantity.value then
      InsufficientStock(ps[k].name, ps[k].stock - QtySum(items[..i], k))
    else ValidationFailed
  }

  lemma QtySumPrefixStep(items: seq<RequestItem>, j: nat, k: Id)
    requires j < |items|
    ensures QtySum(items[..j + 1], k) ==
            (if items[0].productId == k && items[0].quantity.Some? then items[0].quantity.value else 0)
            + QtySum(items[1..][..j], k)
  {
    assert items[..j + 1][0] == items[0];
    assert items[..j + 1][1..] == items[1..][..j];
  }

  /** After a successful first line, line `j + 1` is judged on the rest exactly as on the whole. */
  lemma StrictShift(ps: map<Id, Product>, items: seq<RequestItem>, customer: Id, j: nat)
    requires |items| > 0 && StrictLine(ps, items[0], customer).Ok?
    requires j + 1 < |items|
    ensures StrictLineOk(StrictLine(ps, items[0], customer).value, items[1..], j) == StrictLineOk(ps, items, j + 1)
    ensures StrictLineError(StrictLine(ps, items[0], customer).value, items[1..], j) == StrictLineError(ps, items, j + 1)
  {
    var k := items[j + 1].productId;
    assert items[1..][j] == items[j + 1];
    QtySumPrefixStep(items, j + 1, k);
    assert items[..j + 1] == items[..j + 2][..j + 1];
    QtySumPrefixStep(items, j, k);
  }

  /** The loop from position `i` on: line `i` first, then the rest on what it wrote. */
  lemma StrictStep(ps: map<Id, Product>, items: seq<RequestItem>, i: nat, customer: Id)
    requires i < |items|
    ensures StrictLines(ps, items[i..], customer) ==
            match StrictLine(ps, items[i], customer)
            case Err(e) => Err(e)
            case Ok(next) => StrictLines(next, items[i + 1..], customer)
  {
    assert items[i..][0] == items[i] && items[i..][1..] == items[i + 1..];
  }

  /** What one successful line does: only the product it names changes. */
  lemma StrictLineEffect(ps: map<Id, Product>, item: RequestItem, customer: Id, k: Id)
    requires StrictLine(ps, item, customer).Ok? && k in ps
    ensures StrictLine(ps, item, customer).value.Keys == ps.Keys
    ensures StrictLine(ps, item, customer).value[k] ==
            if item.productId == k then Purchased(ps[k], item.quantity.value, customer) else ps[k]
  {
  }

  lemma {:induction false} StrictLinesKeys(ps: map<Id, Product>, items: seq<RequestItem>, customer: Id)
    requires StrictLines(ps, items, customer).Ok?
    ensures StrictLines(ps, items, customer).value.Keys == ps.Keys
  {
    if items != [] {
      StrictLinesKeys(StrictLine(ps, items[0], customer).value, items[1..], customer);
    }
  }

  /** What a successful placement does to one product. */
  lemma {:induction false} StrictLinesEffectAt(ps: map<Id, Product>, items: seq<RequestItem>, customer: Id, k: Id)
    requires StrictLines(ps, items, customer).Ok? && k in ps
    ensures k in StrictLines(ps, items, customer).value
    ensures var after := StrictLines(ps, items, customer).value[k];
      && SameListing(after, ps[k])
      && after.stock == ps[k].stock - QtySum(items, k)
      && after.buyersCount == ps[k].buyersCount + LineCount(items, k)
      && after.buyers == (if LineCount(items, k) > 0 then AddBuyer(ps[k].buyers, customer) else ps[k].buyers)
  {
    StrictLinesKeys(ps, items, customer);
    if items != [] {
      var next := StrictLine(ps, items[0], customer).value;
      StrictLineEffect(ps, items[0], customer, k);
      StrictLinesEffectAt(next, items[1..], customer, k);
      AddBuyerIdempotent(ps[k].buyers, customer);
    }
  }

  /**
   * What a successful placement does to each product: stock lowered by exactly the quantity
   * ordered, one purchase counted per line, the customer recorded once, and nothing else.
   */
  lemma StrictLinesEffect(ps: map<Id, Product>, items: seq<RequestItem>, customer: Id)
    requires StrictLines(ps, items, customer).Ok?
    ensures var after := StrictLines(ps, items, customer).value;
      && after.Keys == ps.Keys
      && forall k :: k in ps ==>
           && SameListing(after[k], ps[k])
           && after[k].stock == ps[k].stock - QtySum(items, k)
           && after[k].buyersCount == ps[k].buyersCount + LineCount(items, k)
           && after[k].buyers == (if LineCount(items, k) > 0 then AddBuyer(ps[k].buyers, customer) else ps[k].buyers)
  {
    StrictLinesKeys(ps, items, customer);
    forall k | k in ps {
      StrictLinesEffectAt(ps, items, customer, k);
    }
  }

  /** The placement succeeds exactly when every line passes against the stock left before it. */
  lemma {:induction false} StrictLinesOkIff(ps: map<Id, Product>, items: seq<RequestItem>, customer: Id)
    requires ValidObjectId(customer)
    ensures StrictLines(ps, items, customer).Ok? <==> forall i :: 0 <= i < |items| ==> StrictLineOk(ps, items, i)
  {
    if items != [] {
      assert items[..0] == [];
      assert StrictLineOk(ps, items, 0) <==> StrictLine(ps, items[0], customer).Ok?;
      if StrictLine(ps, items[0], customer).Ok? {
        var next := StrictLine(ps, items[0], customer).value;
        StrictLinesOkIff(next, items[1..], customer);
        forall j | 0 <= j < |items| - 1
          ensures StrictLineOk(next, items[1..], j) == StrictLineOk(ps, items, j + 1)
        {
          StrictShift(ps, items, customer, j);
        }
        if forall i :: 0 <= i < |items| - 1 ==> StrictLineOk(next, items[1..], i) {
          forall i | 0 <= i < |items| ensures StrictLineOk(ps, items, i) {
            if i > 0 {
              assert StrictLineOk(next, items[1..], i - 1);
            }
          }
        }
      }
    }
  }

  /** The first failing line decides the error, and the whole placement fails with it. */
  lemma {:induction false} StrictLinesFailure(ps: map<Id, Product>, items: seq<RequestItem>, customer: Id, i: nat)
    requires ValidObjectId(customer)
    requires i < |items|
    requires forall j :: 0 <= j < i ==> StrictLineOk(ps, items, j)
    requires !StrictLineOk(ps, items, i)
    ensures StrictLines(ps, items, customer) == Err(StrictLineError(ps, items, i))
  {
    assert items[..0] == [];
    if i == 0 {
    } else {
      assert StrictLineOk(ps, items, 0);
      var next := StrictLine(ps, items[0], customer).value;
      forall j | 0 <= j < i - 1 ensures StrictLineOk(next, items[1..], j) {
        StrictShift(ps, items, customer, j);
      }
      StrictShift(ps, items, customer, i - 1);
      StrictLinesFailure(next, items[1..], customer, i - 1);
    }
  }

  /** A successful placement never drives a non-negative stock below zero. */
  lemma {:induction false} StrictLinesKeepStock(ps: map<Id, Product>, items: seq<RequestItem>, customer: Id)
    requires forall k :: k in ps ==> ps[k].stock >= 0
    requires StrictLines(ps, items, customer).Ok?
    ensures forall k :: k in StrictLines(ps, items, customer).value ==> StrictLines(ps, items, customer).value[k].stock >= 0
  {
    if items != [] {
      StrictLinesKeepStock(StrictLine(ps, items[0], customer).value, items[1..], customer);
    }
  }

  /**
   * Two orders of the same customer, one after the other: the customer is recorded in `buyers`
   * once, while `buyersCount` counts every line of both orders.
   */
  lemma RepeatCustomer(ps: map<Id, Product>, first: seq<RequestItem>, second: seq<RequestItem>, customer: Id)
    requires StrictLines(ps, first, customer).Ok?
    requires StrictLines(StrictLines(ps, first, customer).value, second, customer).Ok?
    ensures var after := StrictLines(StrictLines(ps, first, customer).value, second, customer).value;
      forall k :: k in ps ==>
        && k in after
        && after[k].buyersCount == ps[k].buyersCount + LineCount(first, k) + LineCount(second, k)
        && after[k].buyers == (if LineCount(first, k) + LineCount(second, k) > 0
                               then AddBuyer(ps[k].buyers, customer) else ps[k].buyers)
  {
    var middle := StrictLines(ps, first, customer).value;
    StrictLinesEffect(ps, first, customer);
    StrictLinesEffect(middle, second, customer);
    forall k | k in ps {
      AddBuyerIdempotent(ps[k].buyers, customer);
    }
  }

  /** Checkouts run one after the other cannot oversell: the second fails on the reduced stock. */
  lemma NoOversell(ps: map<Id, Product>, k: Id, q1: int, q2: int, c1: Id, c2: Id)
    requires StrictLines(ps, [RequestItem(k, Some(q1))], c1).Ok?
    requires k in ps && q1 + q2 > ps[k].stock
    ensures StrictLines(StrictLines(ps, [RequestItem(k, Some(q1))], c1).value, [RequestItem(k, Some(q2))], c2)
            == Err(InsufficientStock(ps[k].name, ps[k].stock - q1))
  {
    StrictLinesEffect(ps, [RequestItem(k, Some(q1))], c1);
  }

  /** A committed placement: the products as written by the loop and the new order. */
  datatype Placement = Placement(products: map<Id, Product>, order: Order)

  /** The route's payment default: `paymentMethod || 'cod'`. */
  function PaymentOrCod(m: Option<string>): string
  {
    if Falsy(m) then "cod" else m.value
  }

  /**
   * The outcome of POST / on the given collections. The customer is the authenticated caller;
   * the body's `buyerId` is never read.
   */
  function PlaceOrderSpec(products: map<Id, Product>, orders: seq<Order>, req: OrderRequest,
                          principal: Principal, newId: Id, now: int): (r: Result<Placement, Error>)
    ensures (req.items.None? || req.items == Some([])) ==> r == Err(ItemsRequired)
    ensures req.items.Some? && req.items.value != [] ==>
      && (req.totalPrice.None? ==> r == Err(TotalPriceRequired))
      && (req.totalPrice.Some? && Falsy(req.deliveryAddress) ==> r == Err(DeliveryAddressRequired))
      && (req.totalPrice.Some? && !Falsy(req.deliveryAddress) && Falsy(principal.id) ==> r == Err(Unauthorized))
      && (req.totalPrice.Some? && !Falsy(req.deliveryAddress) && !Falsy(principal.id)
          && StrictLines(products, req.items.value, principal.id.value).Err? ==>
            r == Err(StrictLines(products, req.items.value, principal.id.value).error))
    ensures r.Ok? ==>
      && req.items.Some? && req.totalPrice.Some? && principal.id.Some?
      && StrictLines(products, req.items.value, principal.id.value) == Ok(r.value.products)
      && r.value.order.id == newId && !IdTaken(orders, newId)
      && r.value.order.customerId == principal.id.value
      && r.value.order.status == Pending
      && r.value.order.totalPrice == req.totalPrice.value
      && ItemsStorable(req.items.value) && r.value.order.items == StoredItems(req.items.value)
      && PaymentName(r.value.order.paymentMethod) == PaymentOrCod(req.paymentMethod)
      && r.value.order.deliveryAddress == req.deliveryAddress
      && r.value.order.createdAt == now
  {
    if req.items.None? || req.items.value == [] then Err(ItemsRequired)
    else if req.totalPrice.None? then Err(TotalPriceRequired)
    else if Falsy(req.deliveryAddress) then Err(DeliveryAddressRequired)
    else if Falsy(principal.id) then Err(Unauthorized)
    else
      var customer := principal.id.value;
      match StrictLines(products, req.items.value, customer)
      case Err(e) => Err(e)
      case Ok(written) =>
        match NewOrder(newId, customer, req.items.value, req.totalPrice, req.contactName, req.contactPhone,
                       Some(PaymentOrCod(req.paymentMethod)), req.deliveryAddress, Some("pending"), now)
        case Err(e) => Err(e)
        case Ok(order) =>
          if IdTaken(orders, newId) then Err(DuplicateKey) else Ok(Placement(written, order))
  }

  /** A request with items, a total and an address gets past the route's first three refusals. */
  lemma RequestFieldsPass(products: map<Id, Product>, orders: seq<Order>, req: OrderRequest,
                          principal: Principal, newId: Id, now: int)
    requires req.items.Some? && req.items.value != [] && req.totalPrice.Some? && !Falsy(req.deliveryAddress)
    ensures var r := PlaceOrderSpec(products, orders, req, principal, newId, now);
      r != Err(ItemsRequired) && r != Err(TotalPriceRequired) && r != Err(DeliveryAddressRequired)
  {
  }

  /** Exactly when POST / commits: the request checks, every line, the order's schema and a fresh id. */
  lemma PlaceOrderSucceedsIff(products: map<Id, Product>, orders: seq<Order>, req: OrderRequest,
                              principal: Principal, newId: Id, now: int)
    ensures PlaceOrderSpec(products, orders, req, principal, newId, now).Ok? <==>
      && req.items.Some? && req.items.value != []
      && req.totalPrice.Some?
      && !Falsy(req.deliveryAddress)
      && principal.id.Some? && ValidObjectId(principal.id.value)
      && (forall i :: 0 <= i < |req.items.value| ==> StrictLineOk(products, req.items.value, i))
      && ParsePayment(PaymentOrCod(req.paymentMethod)).Some?
      && !IdTaken(orders, newId)
  {
    if req.items.Some? && principal.id.Some? && ValidObjectId(principal.id.value) {
      StrictLinesOkIff(products, req.items.value, principal.id.value);
      if forall i :: 0 <= i < |req.items.value| ==> StrictLineOk(products, req.items.value, i) {
        forall i | 0 <= i < |req.items.value|
          ensures ValidObjectId(req.items.value[i].productId) && req.items.value[i].quantity.Some?
        {
          assert StrictLineOk(products, req.items.value, i);
        }
      }
    }
  }

  /** Whatever `buyerId` the body carries, the outcome is the same. */
  lemma PlaceOrderIgnoresBuyerId(products: map<Id, Product>, orders: seq<Order>, req: OrderRequest,
                                 principal: Principal, newId: Id, now: int, claimed: Option<string>)
    ensures PlaceOrderSpec(products, orders, req.(buyerId := claimed), principal, newId, now)
            == PlaceOrderSpec(products, orders, req, principal, newId, now)
  {
  }

  /** The session of the strict route: each line is checked and written against the stock the lines before it left. */
  method StageStrict(products: map<Id, Product>, items: seq<RequestItem>, customer: Id)
      returns (r: Result<map<Id, Product>, Error>)
    ensures r == StrictLines(products, items, customer)
  {
    var staged := products;
    for i := 0 to |items|
      invariant StrictLines(products, items, customer) == StrictLines(staged, items[i..], customer)
    {
      StrictStep(staged, items, i, customer);
      var productId := items[i].productId;
      var quantity := items[i].quantity;
      if !ValidObjectId(productId) {
        assert StrictLine(staged, items[i], customer) == Err(InvalidProductId(productId));
        return Err(InvalidProductId(productId));
      }
      if productId !in staged {
        return Err(ProductNotFound(productId));
      }
      var product := staged[productId];
      if quantity.Some? && product.stock < quantity.value {
        return Err(InsufficientStock(product.name, product.stock));
      }
      if quantity.None? {
        return Err(ValidationFailed);
      }
      product := product.(stock := product.stock - quantity.value);
      product := product.(buyersCount := product.buyersCount + 1);
      if customer !in product.buyers {
        if !ValidObjectId(customer) {
          return Err(ValidationFailed);
        }
        product := product.(buyers := product.buyers + [customer]);
      }
      assert product == Purchased(staged[productId], quantity.value, customer);
      assert StrictLine(staged, items[i], customer) == Ok(staged[productId := product]);
      staged := staged[productId := product];
    }
    assert items[|items|..] == [];
    r := Ok(staged);
  }

  /**
   * POST /. The lines are staged in the transaction's view of the products; an error returns
   * before the commit, so the collections are left as they were.
   */
  method PlaceOrder(db: Db, req: OrderRequest, principal: Principal, newId: Id, now: int)
      returns (r: Result<Order, Error>)
    requires db.Valid()
    modifies db
    ensures db.Valid()
    ensures match PlaceOrderSpec(old(db.products), old(db.orders), req, principal, newId, now)
            case Ok(placed) =>
              r == Ok(placed.order) && db.products == placed.products
              && db.orders == old(db.orders) + [placed.order]
            case Err(e) =>
              r == Err(e) && db.products == old(db.products) && db.orders == old(db.orders)
  {
    if req.items.None? || req.items.value == [] {
      return Err(ItemsRequired);
    }
    if req.totalPrice.None? {
      return Err(TotalPriceRequired);
    }
    if Falsy(req.deliveryAddress) {
      return Err(DeliveryAddressRequired);
    }
    if Falsy(principal.id) {
      return Err(Unauthorized);
    }
    var customer := principal.id.value;
    var items := req.items.value;

    // the session: writes go to `staged` and become visible only at the commit
    var staged := StageStrict(db.products, items, customer);
    if staged.Err? {
      return Err(staged.error);
    }
    StrictLinesEffect(db.products, items, customer);

    var order := NewOrder(newId, customer, items, req.totalPrice, req.contactName, req.contactPhone,
                          Some(PaymentOrCod(req.paymentMethod)), req.deliveryAddress, Some("pending"), now);
    if order.Err? {
      return Err(order.error);
    }
    if IdTaken(db.orders, newId) {
      return Err(DuplicateKey);
    }
    // commit
    db.products := staged.value;
    db.orders := db.orders + [order.value];
    r := Ok(order.value);
  }

  // ---------------------------------------------------------------------------------------
  // GET /, GET /customer/:id, GET /farmer
  // ---------------------------------------------------------------------------------------

  predicate IsSeller(principal: Principal)
  {
    principal.role == "farmer" || principal.role == "retailer"
  }

  /** `find` on an ObjectId field throws a CastError for a caller id that is present but not an ObjectId. */
  predicate CallerIdUncastable(principal: Principal)
  {
    principal.id.Some? && !ValidObjectId(principal.id.value)
  }

  /** GET /: a farmer or retailer sees the orders for their products, anyone else their own. */
  function MyOrders(products: map<Id, Product>, orders: seq<Order>, principal: Principal): (r: Result<seq<Order>, Error>)
    ensures r.Err? <==> CallerIdUncastable(principal)
    ensures r.Err? ==> r.error == CastFailed
    ensures r.Ok? ==> NewestFirst(r.value, OrderCreated)
    ensures r.Ok? && IsSeller(principal) ==>
      forall o :: multiset(r.value)[o] ==
                  (if Touches(o, SellerProductIds(products, IdText(principal.id))) then multiset(orders)[o] else 0)
    ensures r.Ok? && !IsSeller(principal) ==>
      forall o :: multiset(r.value)[o] == (if o.customerId == IdText(principal.id) then multiset(orders)[o] else 0)
  {
    if CallerIdUncastable(principal) then Err(CastFailed)
    else if IsSeller(principal) then Ok(SellerOrderList(products, orders, IdText(principal.id)))
    else Ok(CustomerOrderList(orders, IdText(principal.id)))
  }

  /** GET /customer/:id: only that customer or an admin may list, and only that customer's orders come back. */
  function CustomerOrders(orders: seq<Order>, id: string, principal: Principal): (r: Result<seq<Order>, Error>)
    ensures !ValidObjectId(id) ==> r == Err(InvalidId)
    ensures ValidObjectId(id) ==> (r == Err(Forbidden) <==> IdText(principal.id) != id && !IsAdmin(principal))
    ensures r.Err? ==> r.error == InvalidId || r.error == Forbidden
    ensures r.Ok? ==>
      && NewestFirst(r.value, OrderCreated)
      && forall o :: multiset(r.value)[o] == (if o.customerId == id then multiset(orders)[o] else 0)
  {
    if !ValidObjectId(id) then Err(InvalidId)
    else if IdText(principal.id) != id && !IsAdmin(principal) then Err(Forbidden)
    else Ok(CustomerOrderList(orders, id))
  }

  /** GET /farmer: the orders for the caller's own products. */
  function FarmerOrders(products: map<Id, Product>, orders: seq<Order>, principal: Principal): (r: Result<seq<Order>, Error>)
    ensures r.Err? <==> CallerIdUncastable(principal)
    ensures r.Err? ==> r.error == CastFailed
    ensures r.Ok? ==> NewestFirst(r.value, OrderCreated)
    ensures r.Ok? ==> forall o :: multiset(r.value)[o] ==
                        (if Touches(o, SellerProductIds(products, IdText(principal.id))) then multiset(orders)[o] else 0)
  {
    if CallerIdUncastable(principal) then Err(CastFailed)
    else Ok(SellerOrderList(products, orders, IdText(principal.id)))
  }

  // ---------------------------------------------------------------------------------------
  // PATCH /:orderId
  // ---------------------------------------------------------------------------------------

  /** `ownsAny`: some line item's product exists and belongs to the caller. */
  predicate OwnsAny(products: map<Id, Product>, o: Order, principal: Principal)
  {
    exists i :: 0 <= i < |o.items| && o.items[i].productId in products
                && products[o.items[i].productId].farmerId == IdText(principal.id)
  }

  /** The outcome of PATCH /:orderId: the collection with only the order's status rewritten. */
  function StatusUpdate(products: map<Id, Product>, orders: seq<Order>, orderId: string,
                        status: Option<string>, principal: Principal): (r: Result<seq<Order>, Error>)
    ensures !ValidObjectId(orderId) ==> r == Err(InvalidId)
    ensures ValidObjectId(orderId) && Falsy(status) ==> r == Err(StatusRequired)
    ensures ValidObjectId(orderId) && !Falsy(status) ==> (r == Err(NotFound) <==> !IdTaken(orders, orderId))
    ensures r == Err(Forbidden) <==>
      && ValidObjectId(orderId) && !Falsy(status) && FindOrder(orders, orderId).Some?
      && !OwnsAny(products, orders[FindOrder(orders, orderId).value], principal) && !IsAdmin(principal)
    ensures r.Ok? <==>
      && ValidObjectId(orderId) && !Falsy(status) && FindOrder(orders, orderId).Some?
      && (OwnsAny(products, orders[FindOrder(orders, orderId).value], principal) || IsAdmin(principal))
      && ParseStatus(status.value).Some?
    ensures r == Err(ValidationFailed) <==>
      && ValidObjectId(orderId) && !Falsy(status) && FindOrder(orders, orderId).Some?
      && (OwnsAny(products, orders[FindOrder(orders, orderId).value], principal) || IsAdmin(principal))
      && ParseStatus(status.value).None?
    ensures r.Ok? ==>
      && FindOrder(orders, orderId).Some? && !Falsy(status)
      && var i := FindOrder(orders, orderId).value;
      && (OwnsAny(products, orders[i], principal) || IsAdmin(principal))
      && |r.value| == |orders|
      && StatusName(r.value[i].status) == status.value
      && r.value[i] == orders[i].(status := r.value[i].status)
      && forall j :: 0 <= j < |orders| && j != i ==> r.value[j] == orders[j]
  {
    if !ValidObjectId(orderId) then Err(InvalidId)
    else if Falsy(status) then Err(StatusRequired)
    else
      match FindOrder(orders, orderId)
      case None => Err(NotFound)
      case Some(i) =>
        if !OwnsAny(products, orders[i], principal) && !IsAdmin(principal) then Err(Forbidden)
        else
          match ParseStatus(status.value)
          case None => Err(ValidationFailed)
          case Some(s) => Ok(orders[i := orders[i].(status := s)])
  }

  /** PATCH /:orderId: `order.status = status; order.save()`. */
  method UpdateOrderStatus(db: Db, orderId: string, status: Option<string>, principal: Principal)
      returns (r: Result<Order, Error>)
    requires db.Valid()
    modifies db
    ensures db.Valid() && db.products == old(db.products)
    ensures match StatusUpdate(old(db.products), old(db.orders), orderId, status, principal)
            case Ok(updated) =>
              db.orders == updated && r == Ok(updated[FindOrder(old(db.orders), orderId).value])
            case Err(e) => r == Err(e) && db.orders == old(db.orders)
  {
    if !ValidObjectId(orderId) {
      return Err(InvalidId);
    }
    if Falsy(status) {
      return Err(StatusRequired);
    }
    var found := FindOrder(db.orders, orderId);
    if found.None? {
      return Err(NotFound);
    }
    var i := found.value;
    var order := db.orders[i];
    if !OwnsAny(db.products, order, principal) && !IsAdmin(principal) {
      return Err(Forbidden);
    }
    var parsed := ParseStatus(status.value);
    if parsed.None? {
      return Err(ValidationFailed);
    }
    order := order.(status := parsed.value);
    db.orders := db.orders[i := order];
    r := Ok(order);
  }
}
