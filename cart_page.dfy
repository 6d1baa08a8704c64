/** The cart page (Frontend/src/Components/Cart.jsx): quantity edits, removal and checkout. */
module CartPage {
  import opened Wrappers
  import opened Common
  import opened OrderModel
  import opened Listing
  import opened CartLines
  import opened ServerOrders
  import BackendProducts
  import Dashboard

  // ---------------------------------------------------------------------------------------
  // updateQuantity and removeItem
  // ---------------------------------------------------------------------------------------

  /** `cart.map`: the selected lines get quantity `q`. */
  function SetWhere(cart: seq<Line>, selected: Line -> bool, q: int): (r: seq<Line>)
    ensures |r| == |cart|
    ensures forall i :: 0 <= i < |cart| ==> r[i] == if selected(cart[i]) then cart[i].(quantity := q) else cart[i]
  {
    seq(|cart|, i requires 0 <= i < |cart| => if selected(cart[i]) then cart[i].(quantity := q) else cart[i])
  }

  predicate Positive(l: Line)
  {
    l.quantity > 0
  }

  function WithQuantity(l: Line, q: int): Line
  {
    l.(quantity := q)
  }

  /** Where the lines of the cart end up once the selected ones are set to `q`. */
  lemma SetWhereMembers(cart: seq<Line>, selected: Line -> bool, q: int)
    ensures forall l :: l in cart && !selected(l) ==> l in SetWhere(cart, selected, q)
    ensures forall l :: l in cart && selected(l) ==> l.(quantity := q) in SetWhere(cart, selected, q)
    ensures forall l :: l in SetWhere(cart, selected, q) ==>
      (l in cart && !selected(l)) || exists x :: x in cart && selected(x) && l == x.(quantity := q)
  {
    var w := SetWhere(cart, selected, q);
    forall l | l in cart
      ensures (!selected(l) ==> l in w) && (selected(l) ==> l.(quantity := q) in w)
    {
      var i :| 0 <= i < |cart| && cart[i] == l;
      assert w[i] == if selected(l) then l.(quantity := q) else l;
    }
    forall l | l in w
      ensures (l in cart && !selected(l)) || exists x :: x in cart && selected(x) && l == x.(quantity := q)
    {
      var i :| 0 <= i < |w| && w[i] == l;
      assert cart[i] in cart;
    }
  }

  /**
   * When setting the quantity keeps a line selected, every unselected line occurs as often
   * after the edit as before it.
   */
  lemma SetWhereKeepsUnselected(cart: seq<Line>, selected: Line -> bool, q: int)
    requires forall x {:trigger WithQuantity(x, q)} :: selected(x) ==> selected(WithQuantity(x, q))
    ensures forall l :: !selected(l) ==> multiset(SetWhere(cart, selected, q))[l] == multiset(cart)[l]
  {
    var w := SetWhere(cart, selected, q);
    forall i | 0 <= i < |cart|
      ensures if selected(cart[i]) then selected(w[i]) else w[i] == cart[i]
    {
      if selected(cart[i]) {
        assert w[i] == WithQuantity(cart[i], q);
      }
    }
    forall l | !selected(l)
      ensures multiset(w)[l] == multiset(cart)[l]
    {
      EditKeepsCount(cart, w, selected, l);
    }
  }

  /**
   * Set the selected lines to `q`, then `filter((item) => item.quantity > 0)` over the whole
   * cart: unselected positive lines stay, selected lines come back with quantity `q` when it
   * is positive, and nothing else appears.
   */
  function SetAndPrune(cart: seq<Line>, selected: Line -> bool, q: int): (r: seq<Line>)
    ensures |r| <= |cart|
    ensures forall i :: 0 <= i < |r| ==> r[i].quantity > 0
    ensures forall l :: multiset(r)[l] == if l.quantity > 0 then multiset(SetWhere(cart, selected, q))[l] else 0
    ensures forall l :: l in cart && !selected(l) && l.quantity > 0 ==> l in r
    ensures q > 0 ==> forall l :: l in cart && selected(l) ==> l.(quantity := q) in r
    ensures forall l :: l in r ==>
      (l in cart && !selected(l)) || (l.quantity == q && exists x :: x in cart && selected(x) && l == x.(quantity := q))
  {
    SetWhereMembers(cart, selected, q);
    Filter(SetWhere(cart, selected, q), Positive)
  }

  /** The edit works line by line: editing a joined cart is editing each part. */
  lemma SetAndPruneConcat(a: seq<Line>, b: seq<Line>, selected: Line -> bool, q: int)
    ensures SetAndPrune(a + b, selected, q) == SetAndPrune(a, selected, q) + SetAndPrune(b, selected, q)
  {
    assert SetWhere(a + b, selected, q) == SetWhere(a, selected, q) + SetWhere(b, selected, q);
    FilterConcat(SetWhere(a, selected, q), SetWhere(b, selected, q), Positive);
  }

  /** On one line: set it when selected, then keep it exactly when its quantity is positive. */
  lemma SetAndPruneSingle(x: Line, selected: Line -> bool, q: int)
    ensures SetAndPrune([x], selected, q) ==
      var y := if selected(x) then x.(quantity := q) else x;
      if y.quantity > 0 then [y] else []
  {
    var y := if selected(x) then x.(quantity := q) else x;
    assert SetWhere([x], selected, q) == [y];
    FilterSingle(y, Positive);
  }

  /** The line the page's buttons pass: `item.id`. */
  function SameId(id: Option<string>): Line -> bool
  {
    (l: Line) => l.id == id
  }

  /** The line identity the rest of the front end uses: `_id || id`. */
  function SameKey(key: Option<string>): Line -> bool
  {
    (l: Line) => LineKey(l) == key
  }

  /** `updateQuantity(productId, newQuantity)` as written: it matches lines on `id` alone. */
  function UpdateQuantity(cart: seq<Line>, id: Option<string>, q: int): (r: seq<Line>)
    ensures forall i :: 0 <= i < |r| ==> r[i].quantity > 0
    ensures forall i :: 0 <= i < |r| && r[i].id == id ==> r[i].quantity == q
    ensures forall l: Line :: l.id != id && l.quantity > 0 ==> multiset(r)[l] == multiset(cart)[l]
    ensures forall l :: l in r ==> (l in cart && l.id != id) || (l.id == id && l.quantity == q)
    ensures q > 0 ==> forall l :: l in cart && l.id == id ==> l.(quantity := q) in r
  {
    SetWhereKeepsUnselected(cart, SameId(id), q);
    SetAndPrune(cart, SameId(id), q)
  }

  /** `removeItem(productId)` as written: it drops every line whose `id` matches. */
  function RemoveItem(cart: seq<Line>, id: Option<string>): (r: seq<Line>)
    ensures forall l :: l in r <==> l in cart && l.id != id
    ensures forall l :: multiset(r)[l] == if l.id != id then multiset(cart)[l] else 0
  {
    Filter(cart, (l: Line) => l.id != id)
  }

  /** `updateQuantity` matching on the line identity `_id || id`. */
  function UpdateQuantityByKey(cart: seq<Line>, key: Option<string>, q: int): (r: seq<Line>)
    ensures forall i :: 0 <= i < |r| ==> r[i].quantity > 0
    ensures forall i :: 0 <= i < |r| && LineKey(r[i]) == key ==> r[i].quantity == q
    ensures forall l :: LineKey(l) != key && l.quantity > 0 ==> multiset(r)[l] == multiset(cart)[l]
    ensures forall l :: l in r ==> (l in cart && LineKey(l) != key) || (LineKey(l) == key && l.quantity == q)
    ensures q > 0 ==> forall l :: l in cart && LineKey(l) == key ==> l.(quantity := q) in r
  {
    SetWhereKeepsUnselected(cart, SameKey(key), q);
    SetAndPrune(cart, SameKey(key), q)
  }

  lemma SetWhereHead(cart: seq<Line>, selected: Line -> bool, q: int)
    requires cart != []
    ensures SetWhere(cart, selected, q) ==
            [if selected(cart[0]) then cart[0].(quantity := q) else cart[0]] + SetWhere(cart[1..], selected, q)
  {
  }

  /** When nothing is selected and every line is positive, nothing changes. */
  lemma {:induction false} SetAndPruneUntouched(cart: seq<Line>, selected: Line -> bool, q: int)
    requires forall i :: 0 <= i < |cart| ==> !selected(cart[i]) && cart[i].quantity > 0
    ensures SetAndPrune(cart, selected, q) == cart
  {
    assert SetWhere(cart, selected, q) == cart;
    FilterAll(cart, Positive);
  }

  /** Pruning around positive neighbours keeps the middle line exactly when it is positive. */
  lemma PruneAround(a: seq<Line>, x: Line, b: seq<Line>)
    requires forall l :: l in a ==> l.quantity > 0
    requires forall l :: l in b ==> l.quantity > 0
    ensures Filter(a + [x] + b, Positive) == if x.quantity > 0 then a + [x] + b else a + b
  {
    assert forall j :: 0 <= j < |a| ==> Positive(a[j]) by {
      forall j | 0 <= j < |a| ensures Positive(a[j]) {
        assert a[j] in a;
      }
    }
    assert forall j :: 0 <= j < |b| ==> Positive(b[j]) by {
      forall j | 0 <= j < |b| ensures Positive(b[j]) {
        assert b[j] in b;
      }
    }
    if x.quantity > 0 {
      FilterAll(a + [x] + b, Positive);
    } else {
      FilterDropOne(a, x, b, Positive);
    }
  }

  /** With exactly one selected line, at `i`, setting the quantity touches that line alone. */
  lemma SetWhereOne(cart: seq<Line>, selected: Line -> bool, q: int, i: nat)
    requires i < |cart| && selected(cart[i])
    requires forall j :: 0 <= j < |cart| && j != i ==> !selected(cart[j])
    ensures SetWhere(cart, selected, q) == cart[..i] + [cart[i].(quantity := q)] + cart[i + 1..]
  {
  }

  /**
   * With exactly one selected line, at `i`, on a cart of positive quantities: a positive `q`
   * sets that line alone, anything else removes that line alone.
   */
  lemma SetAndPruneOne(cart: seq<Line>, selected: Line -> bool, q: int, i: nat)
    requires i < |cart| && selected(cart[i])
    requires forall j :: 0 <= j < |cart| && j != i ==> !selected(cart[j])
    requires forall j :: 0 <= j < |cart| ==> cart[j].quantity > 0
    ensures SetAndPrune(cart, selected, q) == if q > 0 then cart[i := cart[i].(quantity := q)] else cart[..i] + cart[i + 1..]
  {
    SetWhereOne(cart, selected, q, i);
    assert forall l :: l in cart[..i] ==> l.quantity > 0;
    assert forall l :: l in cart[i + 1..] ==> l.quantity > 0;
    PruneAround(cart[..i], cart[i].(quantity := q), cart[i + 1..]);
    Splice(cart, i, cart[i].(quantity := q));
  }

  /** Editing twice with the same arguments is editing once. */
  lemma UpdateQuantityIdempotent(cart: seq<Line>, id: Option<string>, q: int)
    ensures UpdateQuantity(UpdateQuantity(cart, id, q), id, q) == UpdateQuantity(cart, id, q)
  {
    var r := UpdateQuantity(cart, id, q);
    assert SetWhere(r, SameId(id), q) == r;
    FilterAll(r, Positive);
  }

  /** Example lines as the home page adds them: products from the listing carry `_id` only. */
  const Apples := Line(Some("64b7f0c2a1b2c3d4e5f60001"), None, "Apples", 40, 1)
  const Honey := Line(Some("64b7f0c2a1b2c3d4e5f60002"), None, "Honey", 250, 1)

  /** Pressing "+" on the apples line also sets the honey line's quantity. */
  lemma UpdateQuantityTouchesSiblings()
    ensures UpdateQuantity([Apples, Honey], Apples.id, 2) == [Apples.(quantity := 2), Honey.(quantity := 2)]
  {
    var edited := SetWhere([Apples, Honey], SameId(Apples.id), 2);
    assert edited == [Apples.(quantity := 2), Honey.(quantity := 2)];
    FilterAll(edited, Positive);
  }

  /** Removing the apples line also removes the honey line. */
  lemma RemoveItemDropsSiblings()
    ensures RemoveItem([Apples, Honey], Apples.id) == []
  {
  }

  /** Matching on the line identity, the edit reaches only the line that was pressed. */
  lemma UpdateQuantityByKeyOne(cart: seq<Line>, i: nat, q: int)
    requires UniqueKeys(cart) && i < |cart|
    requires forall j :: 0 <= j < |cart| ==> cart[j].quantity > 0
    ensures UpdateQuantityByKey(cart, LineKey(cart[i]), q) ==
            if q > 0 then cart[i := cart[i].(quantity := q)] else cart[..i] + cart[i + 1..]
  {
    SetAndPruneOne(cart, SameKey(LineKey(cart[i])), q, i);
  }

  /** With the identity used for removal too, removing the pressed line keeps its siblings. */
  lemma RemoveByKeyOne(cart: seq<Line>, i: nat)
    requires UniqueKeys(cart) && i < |cart|
    ensures Dashboard.RemoveFromCart(cart, LineKey(cart[i])) == cart[..i] + cart[i + 1..]
  {
    Dashboard.RemoveUniqueLine(cart, i);
  }

  lemma ExampleKeysUnique()
    ensures UniqueKeys([Apples, Honey])
  {
    assert Apples.oid.value[23] != Honey.oid.value[23];
  }

  /** On the example cart, the edit by identity touches the apples line alone. */
  lemma UpdateByKeySparesSiblings()
    ensures UpdateQuantityByKey([Apples, Honey], LineKey(Apples), 2) == [Apples.(quantity := 2), Honey]
  {
    ExampleKeysUnique();
    UpdateQuantityByKeyOne([Apples, Honey], 0, 2);
  }

  /** On the example cart, removal by identity keeps the honey line. */
  lemma RemoveByKeySparesSiblings()
    ensures Dashboard.RemoveFromCart([Apples, Honey], LineKey(Apples)) == [Honey]
  {
    ExampleKeysUnique();
    RemoveByKeyOne([Apples, Honey], 0);
    assert [Apples, Honey][1..] == [Honey];
  }

  // ---------------------------------------------------------------------------------------
  // handleCheckout
  // ---------------------------------------------------------------------------------------

  /** The characters `String.prototype.trim` removes: white space and line terminators. */
  predicate IsTrimmed(c: char)
  {
    var n := c as int;
    || 0x09 <= n <= 0x0D || n == 0x20 || n == 0xA0 || n == 0x1680
    || 0x2000 <= n <= 0x200A || n == 0x2028 || n == 0x2029 || n == 0x202F || n == 0x205F
    || n == 0x3000 || n == 0xFEFF
  }

  /** `!s.trim()`: the field is empty once trimmed. */
  predicate Blank(s: string)
  {
    forall i :: 0 <= i < |s| ==> IsTrimmed(s[i])
  }

  /** The checks and payload of `handleCheckout`; the form fields are sent untrimmed. */
  function Checkout(cart: seq<Line>, deliveryAddress: string, contactName: string, contactPhone: string,
                    paymentMethod: string, user: Option<StoredUser>): (r: Result<Payload, CheckoutError>)
    ensures Blank(deliveryAddress) ==> r == Err(AddressRequired)
    ensures !Blank(deliveryAddress) && Blank(contactName) ==> r == Err(NameRequired)
    ensures !Blank(deliveryAddress) && !Blank(contactName) && Blank(contactPhone) ==> r == Err(PhoneRequired)
    ensures !Blank(deliveryAddress) && !Blank(contactName) && !Blank(contactPhone) && user.None? ==> r == Err(LoginRequired)
    ensures (!Blank(deliveryAddress) && !Blank(contactName) && !Blank(contactPhone) && user.Some?
             && user.value.role != Some("customer")) ==> r == Err(CustomersOnly)
    ensures r.Ok? <==>
      && !Blank(deliveryAddress) && !Blank(contactName) && !Blank(contactPhone)
      && user.Some? && user.value.role == Some("customer")
    ensures r.Ok? ==>
      && |r.value.items| == |cart|
      && (forall i :: 0 <= i < |cart| ==> r.value.items[i] == PayloadItem(LineKey(cart[i]), cart[i].quantity))
      && r.value.totalPrice == Subtotal(cart) + DeliveryFee
      && r.value.buyerId == Either(user.value.id, user.value.oid)
      && r.value.paymentMethod == Some(paymentMethod)
      && r.value.deliveryAddress == Some(deliveryAddress)
      && r.value.contactName == Some(contactName) && r.value.contactPhone == Some(contactPhone)
  {
    if Blank(deliveryAddress) then Err(AddressRequired)
    else if Blank(contactName) then Err(NameRequired)
    else if Blank(contactPhone) then Err(PhoneRequired)
    else if user.None? then Err(LoginRequired)
    else if user.value.role != Some("customer") then Err(CustomersOnly)
    else
      var items := seq(|cart|, i requires 0 <= i < |cart| => PayloadItem(LineKey(cart[i]), cart[i].quantity));
      Ok(Payload(items, Either(user.value.id, user.value.oid), Subtotal(cart) + DeliveryFee,
                 Some(paymentMethod), Some(deliveryAddress), Some(contactName), Some(contactPhone)))
  }

  /** The page does not check for an empty cart; the order route then refuses the request. */
  lemma EmptyCartRefusedByRoute(deliveryAddress: string, contactName: string, contactPhone: string,
                                paymentMethod: string, user: Option<StoredUser>, ps: map<Id, ProductModel.Product>,
                                orders: seq<Order>, principal: Principal, newId: Id, now: int)
    requires Checkout([], deliveryAddress, contactName, contactPhone, paymentMethod, user).Ok?
    ensures PlaceOrderSpec(ps, orders, AsRequest(Checkout([], deliveryAddress, contactName, contactPhone, paymentMethod, user).value),
                           principal, newId, now) == Err(ItemsRequired)
  {
    var req := AsRequest(Checkout([], deliveryAddress, contactName, contactPhone, paymentMethod, user).value);
    assert req.items == Some([]);
  }

  /** A non-empty submission passes the route's request checks: a non-blank address is never falsy. */
  lemma CheckoutPayloadAccepted(cart: seq<Line>, deliveryAddress: string, contactName: string, contactPhone: string,
                                paymentMethod: string, user: Option<StoredUser>, ps: map<Id, ProductModel.Product>,
                                orders: seq<Order>, principal: Principal, newId: Id, now: int)
    requires cart != []
    requires Checkout(cart, deliveryAddress, contactName, contactPhone, paymentMethod, user).Ok?
    ensures var outcome := PlaceOrderSpec(ps, orders,
                                          AsRequest(Checkout(cart, deliveryAddress, contactName, contactPhone, paymentMethod, user).value),
                                          principal, newId, now);
      outcome != Err(ItemsRequired) && outcome != Err(TotalPriceRequired) && outcome != Err(DeliveryAddressRequired)
  {
    var req := AsRequest(Checkout(cart, deliveryAddress, contactName, contactPhone, paymentMethod, user).value);
    assert |req.items.value| == |cart| > 0;
    assert deliveryAddress != "";
    assert !Falsy(req.deliveryAddress);
  }

  /**
   * Against the legacy route, which the listening server mounts at the same path: only an
   * empty cart is refused for its items, the request is refused for its buyer exactly when the
   * stored user has no id, and that id becomes the order's customer.
   */
  lemma CheckoutPayloadLegacy(cart: seq<Line>, deliveryAddress: string, contactName: string, contactPhone: string,
                              paymentMethod: string, user: Option<StoredUser>, ps: map<Id, ProductModel.Product>,
                              orders: seq<Order>, newId: Id, now: int)
    requires Checkout(cart, deliveryAddress, contactName, contactPhone, paymentMethod, user).Ok?
    ensures var outcome := BackendProducts.LegacyOrderSpec(ps, orders,
                             AsRequest(Checkout(cart, deliveryAddress, contactName, contactPhone, paymentMethod, user).value),
                             newId, now);
      && (outcome == Err(ItemsRequired) <==> cart == [])
      && (cart != [] ==> (outcome == Err(BuyerIdRequired) <==> Falsy(Either(user.value.id, user.value.oid))))
      && (outcome.Ok? ==> outcome.value.order.customerId == Either(user.value.id, user.value.oid).value)
  {
    var req := AsRequest(Checkout(cart, deliveryAddress, contactName, contactPhone, paymentMethod, user).value);
    assert |req.items.value| == |cart|;
    if cart == [] {
      assert req.items == Some([]);
    }
  }
}
