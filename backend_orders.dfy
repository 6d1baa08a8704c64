/**
 * The orders router of the earlier backend (Backend/orders.js): two listings guarded by the
 * caller's id and the status update.
 */
module BackendOrders {
  import opened Wrappers
  import opened Common
  import opened ProductModel
  import opened OrderModel
  import opened Listing
  import opened Database
  import opened ServerOrders

  /** `req.user.id !== id`: an absent id differs from every string. */
  predicate IsCaller(principal: Principal, id: string)
  {
    principal.id == Some(id)
  }

  /** GET /customer/:id: only that customer or an admin may list that customer's orders. */
  function BackendCustomerOrders(orders: seq<Order>, id: string, principal: Principal): (r: Result<seq<Order>, Error>)
    ensures !ValidObjectId(id) ==> r == Err(InvalidId)
    ensures ValidObjectId(id) ==> (r == Err(Forbidden) <==> !IsCaller(principal, id) && !IsAdmin(principal))
    ensures r.Ok? ==>
      && NewestFirst(r.value, OrderCreated)
      && forall o :: multiset(r.value)[o] == (if o.customerId == id then multiset(orders)[o] else 0)
  {
    if !ValidObjectId(id) then Err(InvalidId)
    else if !IsCaller(principal, id) && !IsAdmin(principal) then Err(Forbidden)
    else Ok(CustomerOrderList(orders, id))
  }

  /** The strict comparison here and the `String(...)` comparison of the current route agree. */
  lemma CustomerListingsAgree(orders: seq<Order>, id: string, principal: Principal)
    ensures BackendCustomerOrders(orders, id, principal) == CustomerOrders(orders, id, principal)
  {
  }

  /** GET /farmer/:farmerId: the orders for that seller's products, for that seller or an admin. */
  function BackendFarmerOrders(products: map<Id, Product>, orders: seq<Order>, farmerId: string,
                               principal: Principal): (r: Result<seq<Order>, Error>)
    ensures !ValidObjectId(farmerId) ==> r == Err(InvalidId)
    ensures ValidObjectId(farmerId) ==> (r == Err(Forbidden) <==> !IsCaller(principal, farmerId) && !IsAdmin(principal))
    ensures r.Ok? ==>
      && NewestFirst(r.value, OrderCreated)
      && forall o :: multiset(r.value)[o] ==
                     (if Touches(o, SellerProductIds(products, farmerId)) then multiset(orders)[o] else 0)
  {
    if !ValidObjectId(farmerId) then Err(InvalidId)
    else if !IsCaller(principal, farmerId) && !IsAdmin(principal) then Err(Forbidden)
    else Ok(SellerOrderList(products, orders, farmerId))
  }

  /** A seller asking for their own orders gets what the current route's GET /farmer returns. */
  lemma FarmerListingsAgree(products: map<Id, Product>, orders: seq<Order>, principal: Principal)
    requires principal.id.Some? && ValidObjectId(principal.id.value)
    ensures BackendFarmerOrders(products, orders, principal.id.value, principal) == FarmerOrders(products, orders, principal)
  {
  }

  /** `String(it.productId?.farmerId)`: the owner of a populated product, "undefined" when it is gone. */
  function OwnerText(products: map<Id, Product>, productId: Id): string
  {
    if productId in products then products[productId].farmerId else "undefined"
  }

  /** `ownsAny` without the null guard: a line whose product is gone matches an absent caller id. */
  predicate BackendOwnsAny(products: map<Id, Product>, o: Order, principal: Principal)
  {
    exists i :: 0 <= i < |o.items| && OwnerText(products, o.items[i].productId) == IdText(principal.id)
  }

  /**
   * The two `ownsAny` tests differ only for a caller whose id prints as "undefined", on an
   * order one of whose products no longer exists.
   */
  lemma OwnsAnyDiffers(products: map<Id, Product>, o: Order, principal: Principal)
    ensures BackendOwnsAny(products, o, principal) <==>
      || OwnsAny(products, o, principal)
      || (IdText(principal.id) == "undefined"
          && exists i :: 0 <= i < |o.items| && o.items[i].productId !in products)
  {
    if BackendOwnsAny(products, o, principal) && !OwnsAny(products, o, principal) {
      var i :| 0 <= i < |o.items| && OwnerText(products, o.items[i].productId) == IdText(principal.id);
      assert o.items[i].productId !in products;
    }
    if IdText(principal.id) == "undefined" && exists i :: 0 <= i < |o.items| && o.items[i].productId !in products {
      var i :| 0 <= i < |o.items| && o.items[i].productId !in products;
      assert OwnerText(products, o.items[i].productId) == IdText(principal.id);
    }
    if OwnsAny(products, o, principal) {
      var i :| 0 <= i < |o.items| && o.items[i].productId in products
               && products[o.items[i].productId].farmerId == IdText(principal.id);
      assert OwnerText(products, o.items[i].productId) == IdText(principal.id);
    }
  }

  /** The outcome of PATCH /:orderId on the order collection. */
  function BackendStatusUpdate(products: map<Id, Product>, orders: seq<Order>, orderId: string,
                               status: Option<string>, principal: Principal): (r: Result<seq<Order>, Error>)
    ensures !ValidObjectId(orderId) ==> r == Err(InvalidId)
    ensures ValidObjectId(orderId) && Falsy(status) ==> r == Err(StatusRequired)
    ensures ValidObjectId(orderId) && !Falsy(status) ==> (r == Err(NotFound) <==> !IdTaken(orders, orderId))
    ensures r == Err(Forbidden) <==>
      && ValidObjectId(orderId) && !Falsy(status) && FindOrder(orders, orderId).Some?
      && !BackendOwnsAny(products, orders[FindOrder(orders, orderId).value], principal) && !IsAdmin(principal)
    ensures r.Ok? <==>
      && ValidObjectId(orderId) && !Falsy(status) && FindOrder(orders, orderId).Some?
      && (BackendOwnsAny(products, orders[FindOrder(orders, orderId).value], principal) || IsAdmin(principal))
      && ParseStatus(status.value).Some?
    ensures r == Err(ValidationFailed) <==>
      && ValidObjectId(orderId) && !Falsy(status) && FindOrder(orders, orderId).Some?
      && (BackendOwnsAny(products, orders[FindOrder(orders, orderId).value], principal) || IsAdmin(principal))
      && ParseStatus(status.value).None?
    ensures r.Ok? ==>
      && FindOrder(orders, orderId).Some? && !Falsy(status)
      && var i := FindOrder(orders, orderId).value;
      && (BackendOwnsAny(products, orders[i], principal) || IsAdmin(principal))
      && |r.value| == |orders|
      && StatusName(r.value[i].status) == status.value
      && r.value[i] == orders[i].(status := r.value[i].status)
      && forall j :: 0 <= j < |orders| && j != i ==> r.value[j] == orders[j]
  {
    if !ValidObjectId(orderId) then Err(InvalidId)
    else if Falsy(status) then Err(StatusRequired)
    else
      match FindOrder(orders, orderId)
      case None => Err(NotFound)
      case Some(i) =>
        if !BackendOwnsAny(products, orders[i], principal) && !IsAdmin(principal) then Err(Forbidden)
        else
          match ParseStatus(status.value)
          case None => Err(ValidationFailed)
          case Some(s) => Ok(orders[i := orders[i].(status := s)])
  }

  /** PATCH /:orderId: `order.status = status; order.save()`. */
  method BackendUpdateOrderStatus(db: Db, orderId: string, status: Option<string>, principal: Principal)
      returns (r: Result<Order, Error>)
    requires db.Valid()
    modifies db
    ensures db.Valid() && db.products == old(db.products)
    ensures match BackendStatusUpdate(old(db.products), old(db.orders), orderId, status, principal)
            case Ok(updated) =>
              db.orders == updated && r == Ok(updated[FindOrder(old(db.orders), orderId).value])
            case Err(e) => r == Err(e) && db.orders == old(db.orders)
  {
    if !ValidObjectId(orderId) {
      return Err(InvalidId);
    }
    if Falsy(status) {
      return Err(StatusRequired);
    }
    var found := FindOrder(db.orders, orderId);
    if found.None? {
      return Err(NotFound);
    }
    var i := found.value;
    var order := db.orders[i];
    if !BackendOwnsAny(db.products, order, principal) && !IsAdmin(principal) {
      return Err(Forbidden);
    }
    var parsed := ParseStatus(status.value);
    if parsed.None? {
      return Err(ValidationFailed);
    }
    order := order.(status := parsed.value);
    db.orders := db.orders[i := order];
    r := Ok(order);
  }
}
