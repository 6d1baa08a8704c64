/**
 * The browser cart as the pages keep it in local storage: its lines, their identity, the
 * subtotal, and the order payload the pages submit to `/api/products/order`.
 */
module CartLines {
  import opened Wrappers
  import opened Common
  import opened OrderModel
  import opened Listing

  /** A cart line: the two id fields a line may carry, and what the totals need. */
  datatype Line = Line(oid: Option<string>, id: Option<string>, name: string, price: int, quantity: int)

  /** A product as the pages received it from the product listing. */
  datatype ClientProduct = ClientProduct(oid: Option<string>, id: Option<string>, name: string, price: int, stock: int)

  /** The user record the login page stored. */
  datatype StoredUser = StoredUser(
    id: Option<string>,
    oid: Option<string>,
    name: Option<string>,
    phone: Option<string>,
    location: Option<string>,
    role: Option<string>)

  /** `a || b` on two optional strings. */
  function Either(a: Option<string>, b: Option<string>): (r: Option<string>)
    ensures r == a || r == b
    ensures Falsy(r) <==> Falsy(a) && Falsy(b)
    ensures !Falsy(a) ==> r == a
  {
    if !Falsy(a) then a else b
  }

  /** `getProductId`: a line's identity is `_id` when set, else `id`. */
  function LineKey(l: Line): Option<string>
  {
    Either(l.oid, l.id)
  }

  function ProductKey(p: ClientProduct): Option<string>
  {
    Either(p.oid, p.id)
  }

  /** `cart.find`: the first line with the key. */
  function FindLine(cart: seq<Line>, key: Option<string>): (r: Option<nat>)
    ensures r.Some? ==>
      && r.value < |cart| && LineKey(cart[r.value]) == key
      && forall j :: 0 <= j < r.value ==> LineKey(cart[j]) != key
    ensures r.None? <==> forall i :: 0 <= i < |cart| ==> LineKey(cart[i]) != key
  {
    if cart == [] then None
    else if LineKey(cart[0]) == key then Some(0)
    else match FindLine(cart[1..], key)
      case None => None
      case Some(j) => Some(j + 1)
  }

  /** `products.find`: the position of the first product with the key. */
  function FindProduct(products: seq<ClientProduct>, key: Option<string>): (r: Option<nat>)
    ensures r.Some? ==>
      && r.value < |products| && ProductKey(products[r.value]) == key
      && forall j :: 0 <= j < r.value ==> ProductKey(products[j]) != key
    ensures r.None? <==> forall i :: 0 <= i < |products| ==> ProductKey(products[i]) != key
  {
    if products == [] then None
    else if ProductKey(products[0]) == key then Some(0)
    else match FindProduct(products[1..], key)
      case None => None
      case Some(j) => Some(j + 1)
  }

  /** No two lines share a key: what the add operations aim to keep. */
  predicate UniqueKeys(cart: seq<Line>)
  {
    forall i, j :: 0 <= i < j < |cart| ==> LineKey(cart[i]) != LineKey(cart[j])
  }

  /** `reduce((total, item) => total + item.price * item.quantity, 0)`. */
  function Subtotal(cart: seq<Line>): (r: int)
    ensures (forall i :: 0 <= i < |cart| ==> cart[i].price >= 0 && cart[i].quantity >= 0) ==> r >= 0
  {
    if cart == [] then 0 else cart[0].price * cart[0].quantity + Subtotal(cart[1..])
  }

  lemma {:induction false} SubtotalConcat(a: seq<Line>, b: seq<Line>)
    ensures Subtotal(a + b) == Subtotal(a) + Subtotal(b)
  {
    if a == [] {
      assert a + b == b;
    } else {
      assert (a + b)[1..] == a[1..] + b;
      SubtotalConcat(a[1..], b);
    }
  }

  /** The number of units in the cart. */
  function Units(cart: seq<Line>): int
  {
    if cart == [] then 0 else cart[0].quantity + Units(cart[1..])
  }

  lemma {:induction false} UnitsConcat(a: seq<Line>, b: seq<Line>)
    ensures Units(a + b) == Units(a) + Units(b)
  {
    if a == [] {
      assert a + b == b;
    } else {
      assert (a + b)[1..] == a[1..] + b;
      UnitsConcat(a[1..], b);
    }
  }

  /** The fixed delivery fee the pages add to the subtotal. */
  const DeliveryFee := 20

  datatype PayloadItem = PayloadItem(productId: Option<string>, quantity: int)

  /** The JSON body of the order request; an absent field is `None`. */
  datatype Payload = Payload(
    items: seq<PayloadItem>,
    buyerId: Option<string>,
    totalPrice: int,
    paymentMethod: Option<string>,
    deliveryAddress: Option<string>,
    contactName: Option<string>,
    contactPhone: Option<string>)

  /** Why a page refuses to submit, each with its own toast. */
  datatype CheckoutError =
    | EmptyCart
    | ProfileIncomplete
    | LoginRequired
    | ProductUnknown(name: string)
    | OutOfStock(name: string, available: int)
    | AddressRequired
    | NameRequired
    | PhoneRequired
    | CustomersOnly

  /** The request the route reads from the body; an absent product id reads as `undefined`. */
  function AsRequest(p: Payload): (r: OrderRequest)
    ensures r.items.Some? && |r.items.value| == |p.items|
    ensures forall i :: 0 <= i < |p.items| ==>
      r.items.value[i] == RequestItem(IdText(p.items[i].productId), Some(p.items[i].quantity))
    ensures r.totalPrice == Some(p.totalPrice) && r.deliveryAddress == p.deliveryAddress
    ensures r.buyerId == p.buyerId && r.paymentMethod == p.paymentMethod
  {
    OrderRequest(
      Some(seq(|p.items|, i requires 0 <= i < |p.items| =>
        RequestItem(IdText(p.items[i].productId), Some(p.items[i].quantity)))),
      p.buyerId, Some(p.totalPrice), p.paymentMethod, p.deliveryAddress, p.contactName, p.contactPhone)
  }
}
