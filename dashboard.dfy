/** The customer dashboard's cart (Frontend/src/Components/Dashboard.jsx) and its order submission. */
module Dashboard {
  import opened Wrappers
  import opened Common
  import opened OrderModel
  import opened Listing
  import opened CartLines
  import opened ServerOrders
  import BackendProducts

  // ---------------------------------------------------------------------------------------
  // addToCart
  // ---------------------------------------------------------------------------------------

  /** The line `addToCart` appends: `_id` and `id` both set to the product's `_id`. */
  function NewLine(p: ClientProduct): Line
  {
    Line(p.oid, p.oid, p.name, p.price, 1)
  }

  /** `cart.map`: one more unit on every line with the key. */
  function Bump(cart: seq<Line>, key: Option<string>): (r: seq<Line>)
    ensures |r| == |cart|
    ensures forall i :: 0 <= i < |cart| ==>
      r[i] == if LineKey(cart[i]) == key then cart[i].(quantity := cart[i].quantity + 1) else cart[i]
  {
    seq(|cart|, i requires 0 <= i < |cart| =>
      if LineKey(cart[i]) == key then cart[i].(quantity := cart[i].quantity + 1) else cart[i])
  }

  /** `addToCart`: refuse at the stock limit, else increment the matching line or append one. */
  function AddToCart(cart: seq<Line>, product: ClientProduct): (r: seq<Line>)
    ensures r == cart <==>
      || product.stock < 1
      || (FindLine(cart, ProductKey(product)).Some?
          && cart[FindLine(cart, ProductKey(product)).value].quantity >= product.stock)
    ensures r != cart && FindLine(cart, ProductKey(product)).None? ==> r == cart + [NewLine(product)]
    ensures r != cart && FindLine(cart, ProductKey(product)).Some? ==>
      && |r| == |cart|
      && forall i :: 0 <= i < |cart| ==>
           r[i].quantity == cart[i].quantity + (if LineKey(cart[i]) == ProductKey(product) then 1 else 0)
           && r[i] == cart[i].(quantity := r[i].quantity)
  {
    var key := ProductKey(product);
    if product.stock < 1 then cart
    else
      match FindLine(cart, key)
      case Some(i) =>
        if cart[i].quantity >= product.stock then cart
        else
          var r := Bump(cart, key);
          assert r[i] != cart[i];
          r
      case None => cart + [NewLine(product)]
  }

  /** Replacing one line changes the totals by that line alone. */
  lemma ReplaceLine(cart: seq<Line>, i: nat, x: Line)
    requires i < |cart|
    ensures Units(cart[i := x]) == Units(cart) - cart[i].quantity + x.quantity
    ensures Subtotal(cart[i := x]) == Subtotal(cart) - cart[i].price * cart[i].quantity + x.price * x.quantity
  {
    assert cart == cart[..i] + [cart[i]] + cart[i + 1..];
    assert cart[i := x] == cart[..i] + [x] + cart[i + 1..];
    UnitsConcat(cart[..i] + [cart[i]], cart[i + 1..]);
    UnitsConcat(cart[..i], [cart[i]]);
    UnitsConcat(cart[..i] + [x], cart[i + 1..]);
    UnitsConcat(cart[..i], [x]);
    SubtotalConcat(cart[..i] + [cart[i]], cart[i + 1..]);
    SubtotalConcat(cart[..i], [cart[i]]);
    SubtotalConcat(cart[..i] + [x], cart[i + 1..]);
    SubtotalConcat(cart[..i], [x]);
  }

  /**
   * On a cart without repeated keys, and for a product with an `_id`: an accepted add leaves
   * keys unique, adds exactly one unit, and keeps that product's line within its stock.
   */
  lemma AddToCartUnique(cart: seq<Line>, product: ClientProduct)
    requires UniqueKeys(cart) && !Falsy(product.oid)
    ensures UniqueKeys(AddToCart(cart, product))
    ensures AddToCart(cart, product) != cart ==>
      && Units(AddToCart(cart, product)) == Units(cart) + 1
      && forall i :: 0 <= i < |AddToCart(cart, product)| && LineKey(AddToCart(cart, product)[i]) == ProductKey(product)
                     ==> AddToCart(cart, product)[i].quantity <= product.stock
  {
    var key := ProductKey(product);
    var r := AddToCart(cart, product);
    if r != cart {
      match FindLine(cart, key)
      case Some(i) =>
        assert r == cart[i := cart[i].(quantity := cart[i].quantity + 1)];
        ReplaceLine(cart, i, cart[i].(quantity := cart[i].quantity + 1));
      case None =>
        assert LineKey(NewLine(product)) == key;
        UnitsConcat(cart, [NewLine(product)]);
    }
  }

  // ---------------------------------------------------------------------------------------
  // removeFromCart
  // ---------------------------------------------------------------------------------------

  /** `removeFromCart`: drop every line with the key, keep the rest in order. */
  function RemoveFromCart(cart: seq<Line>, key: Option<string>): (r: seq<Line>)
    ensures forall l :: l in r <==> l in cart && LineKey(l) != key
    ensures forall l :: multiset(r)[l] == if LineKey(l) != key then multiset(cart)[l] else 0
  {
    Filter(cart, (l: Line) => LineKey(l) != key)
  }

  /** In a cart without repeated keys, no other line has the key of the line at `i`. */
  lemma UniqueOthers(cart: seq<Line>, i: nat)
    requires UniqueKeys(cart) && i < |cart|
    ensures forall l :: l in cart[..i] ==> LineKey(l) != LineKey(cart[i])
    ensures forall l :: l in cart[i + 1..] ==> LineKey(l) != LineKey(cart[i])
  {
    forall l | l in cart[..i] ensures LineKey(l) != LineKey(cart[i]) {
      var j :| 0 <= j < |cart[..i]| && cart[..i][j] == l;
      assert cart[j] == l;
    }
    forall l | l in cart[i + 1..] ensures LineKey(l) != LineKey(cart[i]) {
      var j :| 0 <= j < |cart[i + 1..]| && cart[i + 1..][j] == l;
      assert cart[i + 1 + j] == l;
    }
  }

  /** Dropping `x` from between `a` and `b` lowers the subtotal by that line's amount. */
  lemma SubtotalDropOne(a: seq<Line>, x: Line, b: seq<Line>)
    ensures Subtotal(a + b) == Subtotal(a + [x] + b) - x.price * x.quantity
  {
    SubtotalConcat(a + [x], b);
    SubtotalConcat(a, [x]);
    SubtotalConcat(a, b);
  }

  /** Removing the key of a line that no neighbour shares drops that line alone. */
  lemma RemoveAround(a: seq<Line>, x: Line, b: seq<Line>)
    requires forall l :: l in a ==> LineKey(l) != LineKey(x)
    requires forall l :: l in b ==> LineKey(l) != LineKey(x)
    ensures RemoveFromCart(a + [x] + b, LineKey(x)) == a + b
  {
    var p := (l: Line) => LineKey(l) != LineKey(x);
    assert forall j :: 0 <= j < |a| ==> p(a[j]) by {
      forall j | 0 <= j < |a| ensures p(a[j]) {
        assert a[j] in a;
      }
    }
    assert forall j :: 0 <= j < |b| ==> p(b[j]) by {
      forall j | 0 <= j < |b| ensures p(b[j]) {
        assert b[j] in b;
      }
    }
    FilterDropOne(a, x, b, p);
  }

  /** With unique keys, removing a present line closes the gap and lowers the subtotal by that line. */
  lemma RemoveUniqueLine(cart: seq<Line>, i: nat)
    requires UniqueKeys(cart) && i < |cart|
    ensures RemoveFromCart(cart, LineKey(cart[i])) == cart[..i] + cart[i + 1..]
    ensures Subtotal(RemoveFromCart(cart, LineKey(cart[i]))) == Subtotal(cart) - cart[i].price * cart[i].quantity
  {
    Around(cart, i);
    UniqueOthers(cart, i);
    RemoveAround(cart[..i], cart[i], cart[i + 1..]);
    SubtotalDropOne(cart[..i], cart[i], cart[i + 1..]);
  }

  /** Removing a key the cart does not hold changes nothing. */
  lemma RemoveAbsent(cart: seq<Line>, key: Option<string>)
    requires FindLine(cart, key).None?
    ensures RemoveFromCart(cart, key) == cart
  {
    FilterAll(cart, (l: Line) => LineKey(l) != key);
  }

  // ---------------------------------------------------------------------------------------
  // updateQuantity
  // ---------------------------------------------------------------------------------------

  /** The `map` callback: the new line, or `None` for the `null` that `filter(Boolean)` drops. */
  function Adjusted(l: Line, key: Option<string>, delta: int, stock: Option<int>): Option<Line>
  {
    if LineKey(l) != key then Some(l)
    else if l.quantity + delta < 1 then None
    else if stock.Some? && l.quantity + delta > stock.value then Some(l)
    else Some(l.(quantity := l.quantity + delta))
  }

  /** What `filter(Boolean)` keeps of one mapped line. */
  function AdjustedSeq(l: Line, key: Option<string>, delta: int, stock: Option<int>): (r: seq<Line>)
    ensures |r| <= 1
  {
    match Adjusted(l, key, delta, stock)
    case None => []
    case Some(m) => [m]
  }

  function AdjustAll(cart: seq<Line>, key: Option<string>, delta: int, stock: Option<int>): (r: seq<Line>)
    ensures |r| <= |cart|
  {
    FlatMapShorter(cart, (l: Line) => AdjustedSeq(l, key, delta, stock));
    FlatMap(cart, (l: Line) => AdjustedSeq(l, key, delta, stock))
  }

  /** The stock of the listed product with the key, when there is one. */
  function KnownStock(products: seq<ClientProduct>, key: Option<string>): Option<int>
  {
    match FindProduct(products, key)
    case None => None
    case Some(j) => Some(products[j].stock)
  }

  /** `updateQuantity`: change the matching lines by `delta`, within the listed stock. */
  function UpdateQuantity(cart: seq<Line>, products: seq<ClientProduct>, key: Option<string>, delta: int): (r: seq<Line>)
    ensures |r| <= |cart|
  {
    AdjustAll(cart, key, delta, KnownStock(products, key))
  }

  lemma AdjustAllConcat(a: seq<Line>, b: seq<Line>, key: Option<string>, delta: int, stock: Option<int>)
    ensures AdjustAll(a + b, key, delta, stock) == AdjustAll(a, key, delta, stock) + AdjustAll(b, key, delta, stock)
  {
    FlatMapConcat(a, b, (l: Line) => AdjustedSeq(l, key, delta, stock));
  }

  lemma AdjustAllAbsent(cart: seq<Line>, key: Option<string>, delta: int, stock: Option<int>)
    requires forall i :: 0 <= i < |cart| ==> LineKey(cart[i]) != key
    ensures AdjustAll(cart, key, delta, stock) == cart
  {
    FlatMapKeepAll(cart, (l: Line) => AdjustedSeq(l, key, delta, stock));
  }

  /** The `map` callback keeps a line's key. */
  lemma AdjustedKeepsKey(l: Line, key: Option<string>, delta: int, stock: Option<int>)
    ensures Adjusted(l, key, delta, stock).Some? ==> LineKey(Adjusted(l, key, delta, stock).value) == LineKey(l)
    ensures LineKey(l) != key ==> Adjusted(l, key, delta, stock) == Some(l)
  {
  }

  /** Removing a key from two carts joined is removing it from each. */
  lemma RemoveConcat(a: seq<Line>, b: seq<Line>, key: Option<string>)
    ensures RemoveFromCart(a + b, key) == RemoveFromCart(a, key) + RemoveFromCart(b, key)
  {
    FilterConcat(a, b, (l: Line) => LineKey(l) != key);
  }

  /** The `map` callback on one line, seen with the key removed. */
  lemma HeadKeepsOthers(x: Line, key: Option<string>, delta: int, stock: Option<int>)
    ensures RemoveFromCart(AdjustAll([x], key, delta, stock), key) == RemoveFromCart([x], key)
  {
    var p := (l: Line) => LineKey(l) != key;
    FlatMapSingle(x, (l: Line) => AdjustedSeq(l, key, delta, stock));
    FilterSingle(x, p);
    AdjustedKeepsKey(x, key, delta, stock);
    match Adjusted(x, key, delta, stock)
    case None =>
    case Some(l) => FilterSingle(l, p);
  }

  /** Lines with other keys come through unchanged and in order. */
  lemma {:induction false} UpdateKeepsOthers(cart: seq<Line>, key: Option<string>, delta: int, stock: Option<int>)
    ensures RemoveFromCart(AdjustAll(cart, key, delta, stock), key) == RemoveFromCart(cart, key)
  {
    if cart != [] {
      var rest := cart[1..];
      assert cart == [cart[0]] + rest;
      AdjustAllConcat([cart[0]], rest, key, delta, stock);
      RemoveConcat(AdjustAll([cart[0]], key, delta, stock), AdjustAll(rest, key, delta, stock), key);
      RemoveConcat([cart[0]], rest, key);
      HeadKeepsOthers(cart[0], key, delta, stock);
      UpdateKeepsOthers(rest, key, delta, stock);
    }
  }

  /** Around lines that do not match, the update acts on the matching line alone. */
  lemma AdjustAllAround(a: seq<Line>, x: Line, b: seq<Line>, key: Option<string>, delta: int, stock: Option<int>)
    requires forall l :: l in a ==> LineKey(l) != key
    requires forall l :: l in b ==> LineKey(l) != key
    ensures AdjustAll(a + [x] + b, key, delta, stock) == a + AdjustAll([x], key, delta, stock) + b
  {
    assert forall j :: 0 <= j < |a| ==> a[j] in a;
    assert forall j :: 0 <= j < |b| ==> b[j] in b;
    AdjustAllConcat(a + [x], b, key, delta, stock);
    AdjustAllConcat(a, [x], key, delta, stock);
    AdjustAllAbsent(a, key, delta, stock);
    AdjustAllAbsent(b, key, delta, stock);
  }

  lemma AdjustOne(x: Line, key: Option<string>, delta: int, stock: Option<int>)
    requires LineKey(x) == key
    ensures AdjustAll([x], key, delta, stock) ==
      if x.quantity + delta < 1 then []
      else if stock.Some? && x.quantity + delta > stock.value then [x]
      else [x.(quantity := x.quantity + delta)]
  {
    FlatMapSingle(x, (l: Line) => AdjustedSeq(l, key, delta, stock));
  }

  /**
   * With unique keys and the line at `i` matching: a result below 1 removes it, a result above
   * a listed product's stock leaves it as it was, anything else sets the new quantity.
   */
  lemma UpdateQuantityEffect(cart: seq<Line>, products: seq<ClientProduct>, i: nat, delta: int)
    requires UniqueKeys(cart) && i < |cart|
    ensures var key := LineKey(cart[i]);
      var q := cart[i].quantity + delta;
      UpdateQuantity(cart, products, key, delta) ==
        cart[..i]
        + (if q < 1 then []
           else if KnownStock(products, key).Some? && q > KnownStock(products, key).value then [cart[i]]
           else [cart[i].(quantity := q)])
        + cart[i + 1..]
  {
    var key := LineKey(cart[i]);
    var stock := KnownStock(products, key);
    UniqueOthers(cart, i);
    Around(cart, i);
    AdjustAllAround(cart[..i], cart[i], cart[i + 1..], key, delta, stock);
    AdjustOne(cart[i], key, delta, stock);
  }

  /** Updating a key the cart does not hold changes nothing. */
  lemma UpdateAbsent(cart: seq<Line>, products: seq<ClientProduct>, key: Option<string>, delta: int)
    requires FindLine(cart, key).None?
    ensures UpdateQuantity(cart, products, key, delta) == cart
  {
    AdjustAllAbsent(cart, key, delta, KnownStock(products, key));
  }

  // ---------------------------------------------------------------------------------------
  // placeOrder
  // ---------------------------------------------------------------------------------------

  /** A listed product with the line's key has at least the line's quantity in stock. */
  predicate StockCovers(products: seq<ClientProduct>, l: Line)
  {
    FindProduct(products, LineKey(l)).Some? && products[FindProduct(products, LineKey(l)).value].stock >= l.quantity
  }

  /** The position of the first line whose product is not listed or is short. */
  function FirstShort(cart: seq<Line>, products: seq<ClientProduct>): (r: Option<nat>)
    ensures r.Some? ==>
      && r.value < |cart| && !StockCovers(products, cart[r.value])
      && forall j :: 0 <= j < r.value ==> StockCovers(products, cart[j])
    ensures r.None? <==> forall i :: 0 <= i < |cart| ==> StockCovers(products, cart[i])
  {
    if cart == [] then None
    else if !StockCovers(products, cart[0]) then Some(0)
    else match FirstShort(cart[1..], products)
      case None => None
      case Some(j) => Some(j + 1)
  }

  /** The stock check loop: it stops at the first line whose product is not listed or is short. */
  function CheckStock(cart: seq<Line>, products: seq<ClientProduct>): (r: Option<CheckoutError>)
    ensures r.None? <==> forall i :: 0 <= i < |cart| ==> StockCovers(products, cart[i])
    ensures r.Some? ==> exists i :: 0 <= i < |cart| && !StockCovers(products, cart[i])
                                    && forall j :: 0 <= j < i ==> StockCovers(products, cart[j])
    ensures r.Some? ==> r.value.ProductUnknown? || r.value.OutOfStock?
    ensures forall i :: 0 <= i < |cart| && !StockCovers(products, cart[i])
                        && (forall j :: 0 <= j < i ==> StockCovers(products, cart[j])) ==>
      && (r == Some(ProductUnknown(cart[i].name)) <==>
            forall k :: 0 <= k < |products| ==> ProductKey(products[k]) != LineKey(cart[i]))
      && (FindProduct(products, LineKey(cart[i])).Some? ==>
            r == Some(OutOfStock(cart[i].name, products[FindProduct(products, LineKey(cart[i])).value].stock)))
  {
    match FirstShort(cart, products)
    case None => None
    case Some(i) =>
      match FindProduct(products, LineKey(cart[i]))
      case None => Some(ProductUnknown(cart[i].name))
      case Some(j) => Some(OutOfStock(cart[i].name, products[j].stock))
  }

  /** The order items: `String(getProductId(ci))` and the quantity, in cart order. */
  function PayloadItems(cart: seq<Line>): (r: seq<PayloadItem>)
    ensures |r| == |cart|
    ensures forall i :: 0 <= i < |cart| ==> r[i] == PayloadItem(Some(IdText(LineKey(cart[i]))), cart[i].quantity)
  {
    seq(|cart|, i requires 0 <= i < |cart| => PayloadItem(Some(IdText(LineKey(cart[i]))), cart[i].quantity))
  }

  /** The checks and payload of `placeOrder`, up to the request it sends. */
  function PlaceOrder(cart: seq<Line>, products: seq<ClientProduct>, user: StoredUser, token: Option<string>)
    : (r: Result<Payload, CheckoutError>)
    ensures cart == [] ==> r == Err(EmptyCart)
    ensures cart != [] && (Falsy(user.phone) || Falsy(user.location)) ==> r == Err(ProfileIncomplete)
    ensures cart != [] && !Falsy(user.phone) && !Falsy(user.location) && Falsy(token) ==> r == Err(LoginRequired)
    ensures !Falsy(token) && r.Err? ==> r.error != LoginRequired
    ensures r.Err? && !r.error.EmptyCart? && !r.error.ProfileIncomplete? && !r.error.LoginRequired? ==>
      (r.error.ProductUnknown? || r.error.OutOfStock?)
    ensures r.Ok? <==>
      && cart != [] && !Falsy(user.phone) && !Falsy(user.location) && !Falsy(token)
      && forall i :: 0 <= i < |cart| ==> StockCovers(products, cart[i])
    ensures r.Ok? ==>
      && |r.value.items| == |cart|
      && (forall i :: 0 <= i < |cart| ==>
            r.value.items[i] == PayloadItem(Some(IdText(LineKey(cart[i]))), cart[i].quantity))
      && r.value.totalPrice == Subtotal(cart) + DeliveryFee
      && r.value.buyerId == Either(user.id, user.oid)
      && r.value.paymentMethod == Some("cod")
      && r.value.deliveryAddress == user.location
      && r.value.contactName == user.name && r.value.contactPhone == user.phone
  {
    if cart == [] then Err(EmptyCart)
    else if Falsy(user.phone) || Falsy(user.location) then Err(ProfileIncomplete)
    else if Falsy(token) then Err(LoginRequired)
    else
      match CheckStock(cart, products)
      case Some(e) => Err(e)
      case None =>
        Ok(Payload(PayloadItems(cart), Either(user.id, user.oid), Subtotal(cart) + DeliveryFee,
                   Some("cod"), user.location, user.name, user.phone))
  }

  /**
   * What the dashboard submits always passes the order route's request checks, and the route
   * records cash on delivery.
   */
  lemma DashboardPayloadAccepted(cart: seq<Line>, products: seq<ClientProduct>, user: StoredUser,
                                 token: Option<string>, ps: map<Id, ProductModel.Product>, orders: seq<Order>,
                                 principal: Principal, newId: Id, now: int)
    requires PlaceOrder(cart, products, user, token).Ok?
    ensures var outcome := PlaceOrderSpec(ps, orders, AsRequest(PlaceOrder(cart, products, user, token).value),
                                          principal, newId, now);
      && outcome != Err(ItemsRequired) && outcome != Err(TotalPriceRequired)
      && outcome != Err(DeliveryAddressRequired)
      && (outcome.Ok? ==> outcome.value.order.paymentMethod == Cod)
  {
    var payload := PlaceOrder(cart, products, user, token).value;
    var req := AsRequest(payload);
    assert req.items.value != [] && !Falsy(req.deliveryAddress) && req.paymentMethod == Some("cod") by {
      assert |req.items.value| == |cart| > 0;
    }
    RequestFieldsPass(ps, orders, req, principal, newId, now);
    var outcome := PlaceOrderSpec(ps, orders, req, principal, newId, now);
    if outcome.Ok? {
      assert PaymentName(outcome.value.order.paymentMethod) == "cod";
    }
  }

  /**
   * The server that listens on the dashboard's default API base answers the same path with the
   * legacy route: it never refuses the items, refuses exactly when the user record carries no
   * id, and records that id as the customer, paying cash on delivery.
   */
  lemma DashboardPayloadLegacy(cart: seq<Line>, products: seq<ClientProduct>, user: StoredUser,
                               token: Option<string>, ps: map<Id, ProductModel.Product>, orders: seq<Order>,
                               newId: Id, now: int)
    requires PlaceOrder(cart, products, user, token).Ok?
    ensures var outcome := BackendProducts.LegacyOrderSpec(ps, orders, AsRequest(PlaceOrder(cart, products, user, token).value),
                                                           newId, now);
      && outcome != Err(ItemsRequired)
      && (outcome == Err(BuyerIdRequired) <==> Falsy(Either(user.id, user.oid)))
      && (outcome.Ok? ==>
            && outcome.value.order.customerId == Either(user.id, user.oid).value
            && outcome.value.order.paymentMethod == Cod)
  {
    var payload := PlaceOrder(cart, products, user, token).value;
    var req := AsRequest(payload);
    assert |req.items.value| == |cart| > 0;
    var outcome := BackendProducts.LegacyOrderSpec(ps, orders, req, newId, now);
    if outcome.Ok? {
      assert PaymentName(outcome.value.order.paymentMethod) == "cod";
    }
  }
}
