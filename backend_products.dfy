/**
 * The products router of the earlier backend (Backend/products.js): creating, listing and
 * patching products, and its own order placement, which skips the decrement when stock is short.
 */
module BackendProducts {
  import opened Wrappers
  import opened Common
  import opened ProductModel
  import opened OrderModel
  import opened Listing
  import opened Database
  import opened ServerOrders

  // ---------------------------------------------------------------------------------------
  // POST /order
  // ---------------------------------------------------------------------------------------

  /** The quantity a line takes from stock: all of it when it is a number the stock covers, else none. */
  function LegacyTake(stock: int, quantity: Option<int>): int
  {
    if quantity.Some? && stock >= quantity.value then quantity.value else 0
  }

  /** One pass of the loop body: invalid and missing products abort, short stock does not. */
  function LegacyLine(ps: map<Id, Product>, item: RequestItem, buyer: Id): (r: Result<map<Id, Product>, Error>)
    ensures r.Ok? ==> item.productId in r.value && r.value == ps[item.productId := r.value[item.productId]]
    ensures r.Ok? ==> item.productId in ps && (ps[item.productId].stock >= 0 ==> r.value[item.productId].stock >= 0)
  {
    var k := item.productId;
    if !ValidObjectId(k) then Err(InvalidProductId(k))
    else if k !in ps then Err(ProductNotFound(k))
    // an id that is not an ObjectId does not cast into `buyers`
    else if buyer !in ps[k].buyers && !ValidObjectId(buyer) then Err(ValidationFailed)
    else Ok(ps[k := Purchased(ps[k], LegacyTake(ps[k].stock, item.quantity), buyer)])
  }

  /** The whole loop; it never reports short stock. */
  function LegacyLines(ps: map<Id, Product>, items: seq<RequestItem>, buyer: Id): (r: Result<map<Id, Product>, Error>)
    ensures r.Err? ==> r.error.InvalidProductId? || r.error.ProductNotFound? || r.error == ValidationFailed
    decreases |items|
  {
    if items == [] then Ok(ps)
    else
      match LegacyLine(ps, items[0], buyer)
      case Err(e) => Err(e)
      case Ok(next) => LegacyLines(next, items[1..], buyer)
  }

  /** The stock of product `k` after the lines, each taking what it can. */
  function LegacyStock(stock: int, items: seq<RequestItem>, k: Id): int
    decreases |items|
  {
    if items == [] then stock
    else
      var taken := if items[0].productId == k then LegacyTake(stock, items[0].quantity) else 0;
      LegacyStock(stock - taken, items[1..], k)
  }

  /** The lines that neither have a bad id nor name a product that is missing. */
  ghost predicate LegacyLineOk(ps: map<Id, Product>, item: RequestItem)
  {
    ValidObjectId(item.productId) && item.productId in ps
  }

  /** The loop from position `i` on: line `i` first, then the rest on what it wrote. */
  lemma LegacyStep(ps: map<Id, Product>, items: seq<RequestItem>, i: nat, buyer: Id)
    requires i < |items|
    ensures LegacyLines(ps, items[i..], buyer) ==
            match LegacyLine(ps, items[i], buyer)
            case Err(e) => Err(e)
            case Ok(next) => LegacyLines(next, items[i + 1..], buyer)
  {
    assert items[i..][0] == items[i] && items[i..][1..] == items[i + 1..];
  }

  /** What one successful line does: only the product it names changes. */
  lemma LegacyLineEffect(ps: map<Id, Product>, item: RequestItem, buyer: Id, k: Id)
    requires LegacyLine(ps, item, buyer).Ok? && k in ps
    ensures LegacyLine(ps, item, buyer).value.Keys == ps.Keys
    ensures LegacyLine(ps, item, buyer).value[k] ==
            if item.productId == k then Purchased(ps[k], LegacyTake(ps[k].stock, item.quantity), buyer) else ps[k]
  {
  }

  lemma {:induction false} LegacyLinesKeys(ps: map<Id, Product>, items: seq<RequestItem>, buyer: Id)
    requires LegacyLines(ps, items, buyer).Ok?
    ensures LegacyLines(ps, items, buyer).value.Keys == ps.Keys
  {
    if items != [] {
      LegacyLinesKeys(LegacyLine(ps, items[0], buyer).value, items[1..], buyer);
    }
  }

  lemma {:induction false} LegacyLinesEffectAt(ps: map<Id, Product>, items: seq<RequestItem>, buyer: Id, k: Id)
    requires LegacyLines(ps, items, buyer).Ok? && k in ps
    ensures k in LegacyLines(ps, items, buyer).value
    ensures var after := LegacyLines(ps, items, buyer).value[k];
      && SameListing(after, ps[k])
      && after.stock == LegacyStock(ps[k].stock, items, k)
      && after.buyersCount == ps[k].buyersCount + LineCount(items, k)
      && after.buyers == (if LineCount(items, k) > 0 then AddBuyer(ps[k].buyers, buyer) else ps[k].buyers)
  {
    LegacyLinesKeys(ps, items, buyer);
    if items != [] {
      var next := LegacyLine(ps, items[0], buyer).value;
      LegacyLineEffect(ps, items[0], buyer, k);
      LegacyLinesEffectAt(next, items[1..], buyer, k);
      AddBuyerIdempotent(ps[k].buyers, buyer);
    }
  }

  /** What a successful legacy placement does to each product. */
  lemma LegacyLinesEffect(ps: map<Id, Product>, items: seq<RequestItem>, buyer: Id)
    requires LegacyLines(ps, items, buyer).Ok?
    ensures var after := LegacyLines(ps, items, buyer).value;
      && after.Keys == ps.Keys
      && forall k :: k in ps ==>
           && SameListing(after[k], ps[k])
           && after[k].stock == LegacyStock(ps[k].stock, items, k)
           && after[k].buyersCount == ps[k].buyersCount + LineCount(items, k)
           && after[k].buyers == (if LineCount(items, k) > 0 then AddBuyer(ps[k].buyers, buyer) else ps[k].buyers)
  {
    LegacyLinesKeys(ps, items, buyer);
    forall k | k in ps {
      LegacyLinesEffectAt(ps, items, buyer, k);
    }
  }

  /** The legacy loop fails only on a bad or unknown product id: stock never stops it. */
  lemma {:induction false} LegacyLinesOkIff(ps: map<Id, Product>, items: seq<RequestItem>, buyer: Id)
    requires ValidObjectId(buyer)
    ensures LegacyLines(ps, items, buyer).Ok? <==> forall i :: 0 <= i < |items| ==> LegacyLineOk(ps, items[i])
  {
    if items != [] && LegacyLine(ps, items[0], buyer).Ok? {
      var next := LegacyLine(ps, items[0], buyer).value;
      LegacyLinesOkIff(next, items[1..], buyer);
      assert next.Keys == ps.Keys;
      assert forall i :: 1 <= i < |items| ==> items[i] == items[1..][i - 1];
    }
  }

  /** The first bad or unknown id is the error the legacy placement reports. */
  lemma {:induction false} LegacyLinesFailure(ps: map<Id, Product>, items: seq<RequestItem>, buyer: Id, i: nat)
    requires ValidObjectId(buyer)
    requires i < |items|
    requires forall j :: 0 <= j < i ==> LegacyLineOk(ps, items[j])
    requires !LegacyLineOk(ps, items[i])
    ensures LegacyLines(ps, items, buyer) ==
            Err(if !ValidObjectId(items[i].productId) then InvalidProductId(items[i].productId)
                else ProductNotFound(items[i].productId))
  {
    if i > 0 {
      var next := LegacyLine(ps, items[0], buyer).value;
      assert next.Keys == ps.Keys;
      assert forall j :: 1 <= j <= i ==> items[j] == items[1..][j - 1];
      LegacyLinesFailure(next, items[1..], buyer, i - 1);
    }
  }

  /** Taking only what the stock covers keeps a non-negative stock non-negative. */
  lemma {:induction false} LegacyStockNonNegative(stock: int, items: seq<RequestItem>, k: Id)
    requires stock >= 0
    ensures LegacyStock(stock, items, k) >= 0
    decreases |items|
  {
    if items != [] {
      var taken := if items[0].productId == k then LegacyTake(stock, items[0].quantity) else 0;
      LegacyStockNonNegative(stock - taken, items[1..], k);
    }
  }

  /** Wherever every line fits the stock, the legacy loop writes what the strict loop writes. */
  lemma {:induction false} LegacyAgreesWithStrict(ps: map<Id, Product>, items: seq<RequestItem>, customer: Id)
    requires StrictLines(ps, items, customer).Ok?
    ensures LegacyLines(ps, items, customer) == StrictLines(ps, items, customer)
  {
    if items != [] {
      assert LegacyLine(ps, items[0], customer) == StrictLine(ps, items[0], customer);
      LegacyAgreesWithStrict(StrictLine(ps, items[0], customer).value, items[1..], customer);
    }
  }

  /** A line the stock does not cover still goes through: the buyer is counted, the stock stays. */
  lemma ShortStockStillBuys(ps: map<Id, Product>, k: Id, q: int, buyer: Id)
    requires ValidObjectId(k) && ValidObjectId(buyer) && k in ps && ps[k].stock < q
    ensures LegacyLines(ps, [RequestItem(k, Some(q))], buyer) == Ok(ps[k := Purchased(ps[k], 0, buyer)])
  {
  }

  /** The outcome of POST /order. The customer is the body's `buyerId`; the caller is not consulted. */
  function LegacyOrderSpec(products: map<Id, Product>, orders: seq<Order>, req: OrderRequest,
                           newId: Id, now: int): (r: Result<Placement, Error>)
    ensures (req.items.None? || req.items == Some([])) ==> r == Err(ItemsRequired)
    ensures req.items.Some? && req.items.value != [] && Falsy(req.buyerId) ==> r == Err(BuyerIdRequired)
    ensures req.items.Some? && req.items.value != [] && !Falsy(req.buyerId)
            && LegacyLines(products, req.items.value, req.buyerId.value).Err? ==>
              r == Err(LegacyLines(products, req.items.value, req.buyerId.value).error)
    ensures r.Ok? ==>
      && req.items.Some? && req.buyerId.Some? && req.totalPrice.Some?
      && LegacyLines(products, req.items.value, req.buyerId.value) == Ok(r.value.products)
      && r.value.order.id == newId && !IdTaken(orders, newId)
      && r.value.order.customerId == req.buyerId.value
      && r.value.order.status == Pending
      && r.value.order.totalPrice == req.totalPrice.value
      && ItemsStorable(req.items.value) && r.value.order.items == StoredItems(req.items.value)
      && PaymentName(r.value.order.paymentMethod) ==
         (if req.paymentMethod.Some? then req.paymentMethod.value else "cod")
      && r.value.order.deliveryAddress == req.deliveryAddress
      && r.value.order.createdAt == now
  {
    if req.items.None? || req.items.value == [] then Err(ItemsRequired)
    else if Falsy(req.buyerId) then Err(BuyerIdRequired)
    else
      var buyer := req.buyerId.value;
      match LegacyLines(products, req.items.value, buyer)
      case Err(e) => Err(e)
      case Ok(written) =>
        match NewOrder(newId, buyer, req.items.value, req.totalPrice, req.contactName, req.contactPhone,
                       req.paymentMethod, req.deliveryAddress, Some("pending"), now)
        case Err(e) => Err(e)
        case Ok(order) =>
          if IdTaken(orders, newId) then Err(DuplicateKey) else Ok(Placement(written, order))
  }

  /**
   * Exactly when POST /order commits. Unlike the current route, stock plays no part, and a
   * missing total price or delivery address is caught only by the order schema, or not at all.
   */
  lemma LegacyOrderSucceedsIff(products: map<Id, Product>, orders: seq<Order>, req: OrderRequest,
                               newId: Id, now: int)
    ensures LegacyOrderSpec(products, orders, req, newId, now).Ok? <==>
      && req.items.Some? && req.items.value != []
      && req.buyerId.Some? && ValidObjectId(req.buyerId.value)
      && (forall i :: 0 <= i < |req.items.value| ==> LegacyLineOk(products, req.items.value[i]))
      && (forall i :: 0 <= i < |req.items.value| ==> req.items.value[i].quantity.Some?)
      && req.totalPrice.Some?
      && (req.paymentMethod.Some? ==> ParsePayment(req.paymentMethod.value).Some?)
      && !IdTaken(orders, newId)
  {
    if req.items.Some? && req.buyerId.Some? && ValidObjectId(req.buyerId.value) {
      LegacyLinesOkIff(products, req.items.value, req.buyerId.value);
    }
  }

  /** The loop of the legacy route: each line is written against the stock the lines before it left. */
  method StageLegacy(products: map<Id, Product>, items: seq<RequestItem>, buyer: Id)
      returns (r: Result<map<Id, Product>, Error>)
    ensures r == LegacyLines(products, items, buyer)
  {
    var staged := products;
    for i := 0 to |items|
      invariant LegacyLines(products, items, buyer) == LegacyLines(staged, items[i..], buyer)
    {
      LegacyStep(staged, items, i, buyer);
      var productId := items[i].productId;
      var quantity := items[i].quantity;
      if !ValidObjectId(productId) {
        assert LegacyLine(staged, items[i], buyer) == Err(InvalidProductId(productId));
        return Err(InvalidProductId(productId));
      }
      if productId !in staged {
        return Err(ProductNotFound(productId));
      }
      var product := staged[productId];
      ghost var before := product;
      if quantity.Some? && product.stock >= quantity.value {
        product := product.(stock := product.stock - quantity.value);
      }
      assert product == before.(stock := before.stock - LegacyTake(before.stock, quantity));
      product := product.(buyersCount := product.buyersCount + 1);
      if buyer !in product.buyers {
        if !ValidObjectId(buyer) {
          return Err(ValidationFailed);
        }
        product := product.(buyers := product.buyers + [buyer]);
      }
      assert product == Purchased(before, LegacyTake(before.stock, quantity), buyer);
      assert LegacyLine(staged, items[i], buyer) == Ok(staged[productId := product]);
      staged := staged[productId := product];
    }
    assert items[|items|..] == [];
    r := Ok(staged);
  }

  /** POST /order, with the lines staged in the transaction's view of the products. */
  method PlaceProductOrder(db: Db, req: OrderRequest, newId: Id, now: int) returns (r: Result<Order, Error>)
    requires db.Valid()
    modifies db
    ensures db.Valid()
    ensures match LegacyOrderSpec(old(db.products), old(db.orders), req, newId, now)
            case Ok(placed) =>
              r == Ok(placed.order) && db.products == placed.products
              && db.orders == old(db.orders) + [placed.order]
            case Err(e) =>
              r == Err(e) && db.products == old(db.products) && db.orders == old(db.orders)
  {
    if req.items.None? || req.items.value == [] {
      return Err(ItemsRequired);
    }
    if Falsy(req.buyerId) {
      return Err(BuyerIdRequired);
    }
    var buyer := req.buyerId.value;
    var items := req.items.value;

    var staged := StageLegacy(db.products, items, buyer);
    if staged.Err? {
      return Err(staged.error);
    }
    LegacyLinesEffect(db.products, items, buyer);

    var order := NewOrder(newId, buyer, items, req.totalPrice, req.contactName, req.contactPhone,
                          req.paymentMethod, req.deliveryAddress, Some("pending"), now);
    if order.Err? {
      return Err(order.error);
    }
    if IdTaken(db.orders, newId) {
      return Err(DuplicateKey);
    }
    db.products := staged.value;
    db.orders := db.orders + [order.value];
    r := Ok(order.value);
  }

  // ---------------------------------------------------------------------------------------
  // POST /
  // ---------------------------------------------------------------------------------------

  /** The fields of a create request; absent ones are `None`. */
  datatype ProductBody = ProductBody(
    name: Option<string>,
    description: Option<string>,
    price: Option<int>,
    unit: Option<string>,
    stock: Option<int>,
    imageUrl: Option<string>,
    videoUrl: Option<string>)

  /** The outcome of POST /: the new product, owned by the caller whatever the body says. */
  function CreateProductSpec(products: map<Id, Product>, body: ProductBody, principal: Principal,
                             newId: Id, now: int): (r: Result<Product, Error>)
    ensures r == Err(ProductFieldsRequired) <==>
      Falsy(body.name) || body.price.None? || body.price == Some(0) || Falsy(principal.id)
    ensures r.Ok? <==>
      && !Falsy(body.name) && body.price.Some? && body.price.value != 0
      && principal.id.Some? && ValidObjectId(principal.id.value)
      && newId !in products
    ensures r.Ok? ==>
      && r.value.id == newId && r.value.name == body.name.value && r.value.price == body.price.value
      && r.value.farmerId == principal.id.value && r.value.createdAt == now
      && r.value.unit == (if body.unit.Some? then body.unit.value else DefaultUnit)
      && r.value.stock == (if body.stock.Some? then body.stock.value else 0)
      && r.value.buyersCount == 0 && r.value.buyers == [] && r.value.visible
  {
    if Falsy(body.name) || body.price.None? || body.price.value == 0 || Falsy(principal.id) then
      Err(ProductFieldsRequired)
    else
      match NewProduct(newId, body.name.value, body.description, body.price.value, body.unit, body.stock,
                       body.imageUrl, body.videoUrl, principal.id.value, now)
      case Err(e) => Err(e)
      case Ok(p) => if newId in products then Err(DuplicateKey) else Ok(p)
  }

  /** POST /: `new Product({...}).save()`. */
  method CreateProduct(db: Db, body: ProductBody, principal: Principal, newId: Id, now: int)
      returns (r: Result<Product, Error>)
    requires db.Valid()
    modifies db
    ensures db.Valid() && db.orders == old(db.orders)
    ensures r == CreateProductSpec(old(db.products), body, principal, newId, now)
    ensures db.products == if r.Ok? then old(db.products)[newId := r.value] else old(db.products)
  {
    if Falsy(body.name) || body.price.None? || body.price.value == 0 || Falsy(principal.id) {
      return Err(ProductFieldsRequired);
    }
    var product := NewProduct(newId, body.name.value, body.description, body.price.value, body.unit,
                              body.stock, body.imageUrl, body.videoUrl, principal.id.value, now);
    if product.Err? {
      return Err(product.error);
    }
    if newId in db.products {
      return Err(DuplicateKey);
    }
    db.products := db.products[newId := product.value];
    r := Ok(product.value);
  }

  // ---------------------------------------------------------------------------------------
  // GET /farmer/:id
  // ---------------------------------------------------------------------------------------

  /** GET /farmer/:id: that farmer's products, visible or not, newest first. */
  ghost function FarmerProducts(products: map<Id, Product>, id: string): (r: Result<seq<Product>, Error>)
    ensures !ValidObjectId(id) <==> r == Err(InvalidId)
    ensures r.Ok? ==>
      && NewestFirst(r.value, ProductCreated)
      && (forall p :: p in r.value <==> p in products.Values && p.farmerId == id)
      && (Keyed(products) ==>
            forall p :: multiset(r.value)[p] == if p in products.Values && p.farmerId == id then 1 else 0)
  {
    if !ValidObjectId(id) then Err(InvalidId) else Ok(FarmerProductList(products, id))
  }

  // ---------------------------------------------------------------------------------------
  // PATCH /:id
  // ---------------------------------------------------------------------------------------

  /** A partial update: every schema field the body names, and only those. */
  datatype ProductPatch = ProductPatch(
    name: Option<string>,
    description: Option<string>,
    price: Option<int>,
    unit: Option<string>,
    stock: Option<int>,
    imageUrl: Option<string>,
    videoUrl: Option<string>,
    farmerId: Option<Id>,
    buyersCount: Option<int>,
    buyers: Option<seq<Id>>,
    visible: Option<bool>,
    createdAt: Option<int>)

  const EmptyPatch := ProductPatch(None, None, None, None, None, None, None, None, None, None, None, None)

  function Pick<T>(u: Option<T>, current: T): T
  {
    if u.Some? then u.value else current
  }

  /** `Object.assign(product, updates)`. */
  function ApplyPatch(p: Product, u: ProductPatch): (r: Product)
    ensures r.id == p.id
  {
    Product(p.id, Pick(u.name, p.name),
            if u.description.Some? then u.description else p.description,
            Pick(u.price, p.price), Pick(u.unit, p.unit), Pick(u.stock, p.stock),
            if u.imageUrl.Some? then u.imageUrl else p.imageUrl,
            if u.videoUrl.Some? then u.videoUrl else p.videoUrl,
            Pick(u.farmerId, p.farmerId), Pick(u.buyersCount, p.buyersCount), Pick(u.buyers, p.buyers),
            Pick(u.visible, p.visible), Pick(u.createdAt, p.createdAt))
  }

  /** Two patches one after the other: the later one wins field by field. */
  function Then(u: ProductPatch, v: ProductPatch): ProductPatch
  {
    ProductPatch(if v.name.Some? then v.name else u.name,
                 if v.description.Some? then v.description else u.description,
                 if v.price.Some? then v.price else u.price,
                 if v.unit.Some? then v.unit else u.unit,
                 if v.stock.Some? then v.stock else u.stock,
                 if v.imageUrl.Some? then v.imageUrl else u.imageUrl,
                 if v.videoUrl.Some? then v.videoUrl else u.videoUrl,
                 if v.farmerId.Some? then v.farmerId else u.farmerId,
                 if v.buyersCount.Some? then v.buyersCount else u.buyersCount,
                 if v.buyers.Some? then v.buyers else u.buyers,
                 if v.visible.Some? then v.visible else u.visible,
                 if v.createdAt.Some? then v.createdAt else u.createdAt)
  }

  lemma EmptyPatchIdentity(p: Product)
    ensures ApplyPatch(p, EmptyPatch) == p
  {
  }

  lemma PatchIdempotent(p: Product, u: ProductPatch)
    ensures ApplyPatch(ApplyPatch(p, u), u) == ApplyPatch(p, u)
  {
  }

  lemma PatchCompose(p: Product, u: ProductPatch, v: ProductPatch)
    ensures ApplyPatch(ApplyPatch(p, u), v) == ApplyPatch(p, Then(u, v))
  {
  }

  /** The owner (or an admin) may rewrite any field but the id, the owner included. */
  lemma PatchCanHandOver(p: Product, u: ProductPatch, other: Id)
    requires u.farmerId == Some(other)
    ensures ApplyPatch(p, u).farmerId == other && ApplyPatch(p, u).id == p.id
  {
  }

  /** Only the owner or an admin may patch, and the saved document must pass the schema. */
  function PatchSpec(products: map<Id, Product>, id: string, patch: ProductPatch, principal: Principal)
    : (r: Result<Product, Error>)
    ensures !ValidObjectId(id) ==> r == Err(InvalidId)
    ensures ValidObjectId(id) ==> (r == Err(NotFound) <==> id !in products)
    ensures r == Err(Forbidden) <==>
      ValidObjectId(id) && id in products && products[id].farmerId != IdText(principal.id) && !IsAdmin(principal)
    ensures r.Ok? ==>
      && id in products
      && (products[id].farmerId == IdText(principal.id) || IsAdmin(principal))
      && r.value == ApplyPatch(products[id], patch) && SchemaValid(r.value)
    ensures r == Err(ValidationFailed) ==> id in products && !SchemaValid(ApplyPatch(products[id], patch))
  {
    if !ValidObjectId(id) then Err(InvalidId)
    else if id !in products then Err(NotFound)
    else if products[id].farmerId != IdText(principal.id) && !IsAdmin(principal) then Err(Forbidden)
    else
      var updated := ApplyPatch(products[id], patch);
      if SchemaValid(updated) then Ok(updated) else Err(ValidationFailed)
  }

  /** PATCH /:id: `Object.assign(product, updates); product.save()`. */
  method PatchProduct(db: Db, id: string, patch: ProductPatch, principal: Principal)
      returns (r: Result<Product, Error>)
    requires db.Valid()
    modifies db
    ensures db.Valid() && db.orders == old(db.orders)
    ensures r == PatchSpec(old(db.products), id, patch, principal)
    ensures db.products == if r.Ok? then old(db.products)[id := r.value] else old(db.products)
  {
    if !ValidObjectId(id) {
      return Err(InvalidId);
    }
    if id !in db.products {
      return Err(NotFound);
    }
    var product := db.products[id];
    if product.farmerId != IdText(principal.id) && !IsAdmin(principal) {
      return Err(Forbidden);
    }
    product := ApplyPatch(product, patch);
    if !SchemaValid(product) {
      return Err(ValidationFailed);
    }
    db.products := db.products[id := product];
    r := Ok(product);
  }
}
