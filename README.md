# Farm-Fresh marketplace: orders, listings and the browser cart

This project is a Dafny model of the core of the Farm-Fresh marketplace, with proofs about that model. The core has three parts.

- **Order placement.** There are two versions.
  - The current route is `POST /` of `server/routes/orders.js`. `server/app.js` mounts it at `/api/products/order`.
  - The legacy route is `POST /order` of `Backend/products.js`.

  Both walk the submitted items in order inside one database transaction and then append one `pending` order. Any thrown error aborts the transaction.
  - The current route refuses a line whose product is unknown or whose stock is below the quantity. For every line it lowers the stock, counts one more purchase and records the buyer.
  - The legacy route refuses an unknown product only. It lowers the stock only when the quantity is a number that the stock covers (`Backend/products.js:85-87`). It counts the purchase and records the buyer on every line.
- **The rules around orders and products.** These are:
  - who may list a customer's or a seller's orders;
  - who may change an order's status;
  - who may patch a product;
  - which products the public listing shows, and in what order;
  - the schema enums, defaults and validation of the `Order`, `Product` and `User` models.
- **The browser cart.** Three pages keep a cart in local storage:
  - the dashboard (`Dashboard.jsx`);
  - the cart page (`Cart.jsx`);
  - the home page (`Home.jsx`), which also has the product search.

  The model covers their add, increment, remove and set-quantity operations, the subtotal with its fixed delivery fee of 20, the pre-submit checks and the payload they send.

How the parts are modelled:

- **The store.** The database is the class `Database.Db`. It holds a map from product id to product and the sequence of orders. Its `Valid()` states that each product is stored under its own id and that order ids are unique.
- **Route handlers that change the store.** Each is a method that `modifies` the store: `PlaceOrder`, `PlaceProductOrder`, `UpdateOrderStatus`, `BackendUpdateOrderStatus`, `CreateProduct` and `PatchProduct`.
  - The placement loops write into a local copy of the product map. That copy is the transaction's view, and later lines see the writes of earlier ones. The copy is committed at the end only.
  - Every error returns before the commit.
  - Each method is proved against a function of the old state, for example `ServerOrders.PlaceOrderSpec`. On `Ok` the new state is exactly what that function computes. On `Err` the state is unchanged.
  - Lemmas then state what those functions mean: which requests succeed, what each product becomes, and where the two routes differ.
- **The browser cart.** The dashboard and cart-page operations are functions on sequences of lines, because those pages build new arrays. The home page's `handleAddToCart` changes the parsed cart in place, so it is a method of the class `HomePage.BrowserCart`.

Modelling choices:

- Prices, totals and quantities are integers in the source's own unit.
- The authenticated caller (`req.user`) is an input: `Common.Principal`.
- New document ids and the clock are inputs too: `newId` and `now`.
- A JSON field that may be absent is an `Option`. `undefined` and `""` are falsy (`Common.Falsy`). `String(undefined)` is `"undefined"` (`Common.IdText`).

Facts about the code that the model keeps:

- **Positive quantities.** Neither route checks that an item's quantity is positive. A negative quantity passes `stock < quantity` and raises the stock, in the model as in the code.
- **Which route the pages reach.** `server/app.js:9` mounts the current router at `/api/products/order`, but `server/app.js` never calls `listen`. The server that listens is `Backend/Server.js` (lines 13, 21 and 36, port 5050). It mounts `Backend/products.js` at `/api/products`, so a post to `/api/products/order` reaches the legacy handler (`Backend/products.js:70`). Port 5050 is also the pages' default `API_BASE` (`Dashboard.jsx:25`, `Cart.jsx:15`). The payload lemmas are therefore stated for both routes: `Dashboard.DashboardPayloadAccepted` and `CartPage.CheckoutPayloadAccepted` against `ServerOrders.PlaceOrderSpec`, and `Dashboard.DashboardPayloadLegacy` and `CartPage.CheckoutPayloadLegacy` against `BackendProducts.LegacyOrderSpec`.
- **Stock checks on repeated products.** The current route checks each line against the stock that the earlier lines of the same request left (`ServerOrders.StrictLineOk`), not against the stock before the request.
- **Status codes.** An unknown product makes the code throw inside the transaction, and the route answers 500 (`Common.HttpStatus`).
- **Uncastable caller ids.** The listings filter an ObjectId field by the caller's id. A caller id that is present but not an ObjectId makes Mongoose throw a CastError, and the route answers 500 (`Common.Error.CastFailed`).

## Model

| member | source | states |
|---|---|---|
| Common.IdText | server/routes/orders.js:148 | `String(x)` of a present id is the id itself; an absent id prints as a string that is never a valid id |
| Common.HttpStatus | server/routes/orders.js:16-226 | every error gets one of the routes' codes: 400 for a missing field or a malformed id, 401 without a caller id, 403 for a forbidden caller, 404 for an unknown order, and 500 for everything the code throws (unknown product, short stock, schema failures, casts) |
| OrderModel.ParseStatus | Backend/models/Order.js:16 | the status enum accepts exactly the four status names and maps each back to the status it names |
| OrderModel.StatusRoundTrip | Backend/models/Order.js:16 | every status survives printing and parsing |
| OrderModel.ParsePayment | Backend/models/Order.js:14 | the payment enum accepts exactly `online`, `cod` and `upi` |
| OrderModel.PaymentRoundTrip | Backend/models/Order.js:14 | every payment method survives printing and parsing |
| OrderModel.StoredItems | Backend/models/Order.js:3-6 | stored items keep the submitted product ids and quantities, line by line and in order |
| OrderModel.NewOrder | Backend/models/Order.js:8-18 | an order validates exactly when the customer id is valid, every item has a valid product id and a quantity, the total is present and the enums parse; the payment method defaults to `cod`, the status to `pending` and `createdAt` to the current time; all other fields are kept |
| OrderModel.FindOrder | server/routes/orders.js:199-203 | `findById` finds the order with that id, and finds nothing exactly when no order has it |
| ProductModel.NewProduct | Backend/models/Product.js:3-16 | a product validates exactly when it has a non-empty name and a valid owner; unit defaults to `"unit"`, stock and buyersCount to 0, buyers to empty and visible to true |
| ProductModel.AddBuyer | server/routes/orders.js:57-61 | the buyer is in the list afterwards; nothing else is added; the list grows only when the buyer was absent; a list without duplicates keeps none |
| ProductModel.AddBuyerIdempotent | server/routes/orders.js:59-60 | recording the same buyer twice is recording once |
| UserModel.ParseRole | Backend/models/User.js:7 | the role enum accepts exactly `farmer`, `retailer` and `customer` |
| UserModel.NewUser | Backend/models/User.js:3-10 | a user validates exactly when name, email, password and location are non-empty and the role parses; the role defaults to `customer`; the phone is optional |
| UserModel.InsertUser | Backend/models/User.js:5 | the unique index accepts a user exactly when no stored user has that email, and appends it; otherwise the error is a duplicate key |
| UserModel.InsertKeepsEmailsUnique | Backend/models/User.js:5 | inserting into a collection with unique emails keeps emails unique |
| Listing.Filter | Backend/products.js:28 | a query keeps exactly the documents the condition holds for, with their multiplicities, and only those |
| Listing.SortNewestFirst | server/routes/orders.js:122 | `sort({ createdAt: -1 })` returns a newest-first permutation of its input |
| Database.CustomerOrderList | server/routes/orders.js:152-154 | the customer's orders, each exactly as often as stored, newest first |
| Database.SellerProductIds | server/routes/orders.js:169-170 | exactly the ids of the seller's products |
| Database.SellerOrderList | server/routes/orders.js:173-176 | exactly the orders with a line for one of the seller's products, newest first |
| Database.VisibleProductList | Backend/products.js:28 | exactly the visible products, newest first; each product the store holds appears once |
| Database.FarmerProductList | Backend/products.js:41 | exactly the farmer's products, visible or not, newest first; each appears once |
| ServerOrders.StrictLine | server/routes/orders.js:35-63 | one pass of the loop body: on success only the line's product changes, and its stock does not go below zero; which lines pass is `ServerOrders.StrictLinesOkIff` |
| ServerOrders.StrictLines | server/routes/orders.js:35-64 | the loop either writes every line or fails with one of the loop's own errors: bad id, unknown product, short stock, or a value the schema rejects on save |
| ServerOrders.StrictLinesEffect | server/routes/orders.js:53-63 | after a successful loop, each product's stock is lowered by the total quantity of its lines, its buyersCount is raised by its number of lines, the customer is a buyer exactly when the product had a line, and no other field or product changes |
| ServerOrders.StrictLinesOkIff | server/routes/orders.js:38-50 | the loop succeeds exactly when every line has a valid id, names an existing product and fits the stock the earlier lines left |
| ServerOrders.StrictLinesFailure | server/routes/orders.js:38-50 | the first line that fails decides the error of the whole loop |
| ServerOrders.StrictLinesKeepStock | server/routes/orders.js:48-53 | a successful loop never drives a non-negative stock below zero |
| ServerOrders.RepeatCustomer | server/routes/orders.js:56-61 | across two placements by the same customer, buyersCount counts every line but the customer is recorded only once |
| ServerOrders.NoOversell | server/routes/orders.js:48-50 | when two placements run one after the other and their quantities exceed the stock, the second fails with short stock |
| ServerOrders.PlaceOrderSpec | server/routes/orders.js:10-106 | the refusals come in source order: missing or empty items, then a missing total, then a falsy address, then a caller without an id (401); after them a failing loop's error is the route's error; on success the products are exactly what the loop wrote, and the new order belongs to the caller, is `pending`, carries the submitted items and total and the payment method or `cod`, and has the fresh id and the current time |
| ServerOrders.PlaceOrderSucceedsIff | server/routes/orders.js:15-78 | POST / commits exactly when items are present, the total is present, the address is truthy, the caller has a valid id, every line passes, the payment method parses and the id is fresh |
| ServerOrders.PlaceOrderIgnoresBuyerId | server/routes/orders.js:25-26 | the `buyerId` of the body never changes the outcome |
| ServerOrders.StageStrict | server/routes/orders.js:35-64 | the loop over the session's copy of the products returns exactly what the line-by-line rule gives: the first failing line's error, or every line's writes |
| ServerOrders.PlaceOrder | server/routes/orders.js:10-106 | the transaction either commits the loop's writes and appends exactly one order, or leaves both collections untouched and reports the error |
| ServerOrders.MyOrders | server/routes/orders.js:109-137 | a present caller id that is not an ObjectId fails the cast (500), exactly then; otherwise a farmer or retailer gets the orders for their products and anyone else gets their own orders, each as many times as stored, newest first |
| ServerOrders.CustomerOrders | server/routes/orders.js:140-161 | a malformed id is refused first; otherwise the listing is forbidden exactly when the caller is neither that customer nor an admin; on success it returns that customer's orders, newest first |
| ServerOrders.FarmerOrders | server/routes/orders.js:164-183 | a present caller id that is not an ObjectId fails the cast (500), exactly then; otherwise exactly the orders for the caller's own products, newest first |
| ServerOrders.StatusUpdate | server/routes/orders.js:186-223 | the errors come in order: malformed id, then missing status, then unknown order (exactly when no order has the id); the update is forbidden exactly when the caller owns no existing product of the order and is not an admin; it succeeds exactly when all checks pass and the status is one of the enum, and fails validation exactly when only the status is wrong; on success only that order's status changes |
| ServerOrders.UpdateOrderStatus | server/routes/orders.js:186-228 | the order collection becomes what the status update computes, or stays as it was; products never change |
| BackendProducts.LegacyLine | Backend/products.js:80-90 | one pass of the legacy loop body: on success only the line's product changes, and a non-negative stock stays non-negative; which lines pass is `BackendProducts.LegacyLinesOkIff` |
| BackendProducts.LegacyLines | Backend/products.js:80-92 | the legacy loop fails only on a bad id, an unknown product or a schema error, never on short stock |
| BackendProducts.LegacyLinesEffect | Backend/products.js:85-90 | after the legacy loop, each product's stock is lowered only by the lines whose number fits the stock left, buyersCount is raised once per line, and the buyer is recorded once |
| BackendProducts.LegacyLinesOkIff | Backend/products.js:82-84 | the legacy loop succeeds exactly when every line has a valid id that names an existing product |
| BackendProducts.LegacyLinesFailure | Backend/products.js:82-84 | the first bad or unknown id decides the legacy loop's error |
| BackendProducts.LegacyStockNonNegative | Backend/products.js:85-87 | the legacy loop never makes a non-negative stock negative |
| BackendProducts.LegacyAgreesWithStrict | Backend/products.js:80-92 | whenever the current loop succeeds, the legacy loop writes the same products |
| BackendProducts.ShortStockStillBuys | Backend/products.js:85-90 | a line the stock does not cover still counts a purchase and records the buyer, and leaves the stock alone |
| BackendProducts.LegacyOrderSpec | Backend/products.js:70-111 | missing items, then a missing buyerId, are refused first; after them a failing loop's error is the route's error; on success the order's customer is the body's buyerId and its status is `pending` |
| BackendProducts.LegacyOrderSucceedsIff | Backend/products.js:73-96 | POST /order commits exactly when items and buyerId are present, every line's product exists, the order passes its schema and the id is fresh; stock plays no part |
| BackendProducts.StageLegacy | Backend/products.js:80-92 | the legacy loop over the session's copy of the products returns exactly what the legacy line rule gives, short stock included |
| BackendProducts.PlaceProductOrder | Backend/products.js:70-111 | the legacy transaction either commits the loop's writes and one order, or changes nothing |
| BackendProducts.CreateProductSpec | Backend/products.js:10-23 | creation is refused exactly when the name or price is falsy or there is no caller; the owner is always the caller |
| BackendProducts.CreateProduct | Backend/products.js:10-23 | the product collection gains exactly the created product, or nothing; orders never change |
| BackendProducts.FarmerProducts | Backend/products.js:37-47 | a malformed farmer id is refused; otherwise exactly that farmer's products, each once, newest first |
| BackendProducts.ApplyPatch | Backend/products.js:61 | `Object.assign` never changes the product's id |
| BackendProducts.EmptyPatchIdentity | Backend/products.js:61 | an empty body leaves the product as it was |
| BackendProducts.PatchIdempotent | Backend/products.js:61 | applying the same patch twice is applying it once |
| BackendProducts.PatchCompose | Backend/products.js:61 | two patches in turn are one merged patch in which the later field wins |
| BackendProducts.PatchCanHandOver | Backend/products.js:58-61 | an allowed patch may rewrite the owner |
| BackendProducts.PatchSpec | Backend/products.js:50-68 | malformed id, then unknown product, then forbidden (exactly when the caller is neither the owner nor an admin); on success the saved document is the stored one with the body assigned over it, and it passes the schema; a patched document the schema rejects fails validation |
| BackendProducts.PatchProduct | Backend/products.js:50-68 | the product collection holds the patched product or is unchanged; orders never change |
| BackendOrders.BackendCustomerOrders | Backend/orders.js:10-22 | a malformed id is refused; the listing is forbidden exactly when the caller is neither that customer nor an admin; otherwise it is that customer's orders, newest first |
| BackendOrders.CustomerListingsAgree | Backend/orders.js:15 | the strict id comparison here and the `String(...)` comparison of the current route give the same outcome |
| BackendOrders.BackendFarmerOrders | Backend/orders.js:25-44 | a malformed id is refused; the listing is forbidden exactly when the caller is neither that farmer nor an admin; otherwise it is the orders touching the farmer's products, newest first |
| BackendOrders.FarmerListingsAgree | Backend/orders.js:30-37 | a farmer asking for their own orders gets what the current route's seller listing returns |
| ServerOrders.OwnsAny | server/routes/orders.js:207-210 | the guarded `ownsAny`: some line's product still exists and belongs to the caller; `BackendOrders.OwnsAnyDiffers` relates it to the unguarded test |
| BackendOrders.BackendOwnsAny | Backend/orders.js:59 | the unguarded `ownsAny`, where a deleted product's owner prints as "undefined"; `BackendOrders.OwnsAnyDiffers` says exactly when it differs from the guarded test |
| BackendOrders.OwnsAnyDiffers | Backend/orders.js:59 | the ownership test without the null guard differs from the guarded test only for a caller without an id, on an order with a deleted product |
| BackendOrders.BackendStatusUpdate | Backend/orders.js:47-65 | malformed id, then missing status, then unknown order; forbidden exactly when the caller owns no product of the order and is not an admin; it succeeds exactly when all checks pass and the status is one of the enum, and fails validation exactly when only the status is wrong; on success only the status changes |
| BackendOrders.BackendUpdateOrderStatus | Backend/orders.js:47-71 | the order collection becomes what the status update computes, or stays as it was |
| CartLines.Either | Frontend/src/Components/Dashboard.jsx:28 | `a \|\| b` is the first operand when it is truthy, else the second; it is falsy exactly when both are |
| CartLines.FindLine | Frontend/src/Components/Dashboard.jsx:105 | `cart.find` returns the first line with the key, or nothing exactly when no line has it |
| CartLines.FindProduct | Frontend/src/Components/Dashboard.jsx:201 | `products.find` returns the first product with the key, or nothing exactly when no product has it |
| CartLines.Subtotal | Frontend/src/Components/Cart.jsx:54-56 | `calculateTotal` (and the dashboard's `cartTotal`, Dashboard.jsx:312): never negative when prices and quantities are not; `CartLines.SubtotalConcat` and `Dashboard.RemoveUniqueLine` state how it follows the cart |
| CartLines.SubtotalConcat | Frontend/src/Components/Cart.jsx:54-56 | the subtotal of two carts joined is the sum of their subtotals |
| CartLines.AsRequest | server/routes/orders.js:36 | the route reads every item of the body, in order, with its product id printed as a string |
| Dashboard.Bump | Frontend/src/Components/Dashboard.jsx:113-117 | exactly the lines with the key get one more unit; all others are unchanged |
| Dashboard.AddToCart | Frontend/src/Components/Dashboard.jsx:98-137 | the cart is unchanged exactly when the product is out of stock or its line is already at the stock; otherwise the matching lines are incremented, or one line with quantity 1 is appended |
| Dashboard.AddToCartUnique | Frontend/src/Components/Dashboard.jsx:99-132 | on a cart without repeated keys, an accepted add keeps keys unique, adds exactly one unit and keeps the product's line within its stock |
| Dashboard.RemoveFromCart | Frontend/src/Components/Dashboard.jsx:140-145 | exactly the lines with the key are dropped; the others are kept in order |
| Dashboard.RemoveUniqueLine | Frontend/src/Components/Dashboard.jsx:141 | with unique keys, removing a line closes the gap and lowers the subtotal by that line's amount |
| Dashboard.RemoveAbsent | Frontend/src/Components/Dashboard.jsx:141 | removing a key the cart does not hold changes nothing |
| Dashboard.UpdateQuantity | Frontend/src/Components/Dashboard.jsx:148-170 | `updateQuantity` never grows the cart; `Dashboard.UpdateQuantityEffect` and `Dashboard.UpdateKeepsOthers` state what happens to the line with the key and to the others |
| Dashboard.UpdateKeepsOthers | Frontend/src/Components/Dashboard.jsx:151-166 | lines with other keys come through unchanged and in order |
| Dashboard.UpdateQuantityEffect | Frontend/src/Components/Dashboard.jsx:148-170 | with unique keys: a result below 1 removes the line; a result above a listed product's stock leaves it; anything else sets the new quantity |
| Dashboard.UpdateAbsent | Frontend/src/Components/Dashboard.jsx:148-170 | updating a key the cart does not hold changes nothing |
| Dashboard.CheckStock | Frontend/src/Components/Dashboard.jsx:199-212 | the stock check passes exactly when every line's product is listed with enough stock; otherwise it reports the first line that fails: as unknown exactly when no listed product has its key, else as out of stock with the first matching product's stock |
| Dashboard.PayloadItems | Frontend/src/Components/Dashboard.jsx:216-223 | payload items follow the cart order, with each line's identity as a string and its quantity |
| Dashboard.PlaceOrder | Frontend/src/Components/Dashboard.jsx:173-238 | an empty cart is refused, then an incomplete profile, then a missing token, then a failed stock check; otherwise the payload has the cart's items, the subtotal plus 20, `cod` and the profile's contact fields |
| Dashboard.DashboardPayloadAccepted | Frontend/src/Components/Dashboard.jsx:215-238 | the order route never refuses the dashboard's payload for missing items, total or address, and records cash on delivery |
| Dashboard.DashboardPayloadLegacy | Frontend/src/Components/Dashboard.jsx:215-238 | against the legacy handler (`Backend/products.js:70-78`): never refused for missing items; refused for a missing buyer exactly when the user has no `id` or `_id`; an accepted order is recorded for that user as cash on delivery |
| CartPage.SetAndPrune | Frontend/src/Components/Cart.jsx:37-41 | the result is the edited cart with the non-positive lines dropped, as a multiset; unselected positive lines stay; with a positive quantity every selected line stays with that quantity; nothing else appears |
| CartPage.UpdateQuantity | Frontend/src/Components/Cart.jsx:35-44 | every line whose `id` matches comes back with the new quantity when it is positive and is dropped otherwise; lines of quantity 0 or less are dropped; every positive line with another `id` keeps its count; every result line is an untouched line of another `id` or a matching line with the new quantity |
| CartPage.RemoveItem | Frontend/src/Components/Cart.jsx:46-52 | exactly the lines whose `id` matches are dropped; the others are kept |
| CartPage.SetAndPruneOne | Frontend/src/Components/Cart.jsx:37-41 | with one selected line, a positive quantity sets that line alone, and any other value removes that line alone |
| CartPage.SetAndPruneConcat | Frontend/src/Components/Cart.jsx:37-41 | the edit works line by line: editing a joined cart is joining the edited parts |
| CartPage.SetAndPruneSingle | Frontend/src/Components/Cart.jsx:37-41 | a single line is kept unchanged when unselected and positive, set when selected and the quantity is positive, and dropped otherwise |
| CartPage.SetWhereKeepsUnselected | Frontend/src/Components/Cart.jsx:37-39 | the `map` leaves the count of every unselected line unchanged |
| CartPage.UpdateQuantityIdempotent | Frontend/src/Components/Cart.jsx:35-44 | editing twice with the same arguments is editing once |
| CartPage.UpdateQuantityTouchesSiblings | Frontend/src/Components/Cart.jsx:37-41 | on two lines added from the home page, editing one sets the other's quantity too |
| CartPage.RemoveItemDropsSiblings | Frontend/src/Components/Cart.jsx:48 | on two lines added from the home page, removing one removes both |
| CartPage.UpdateQuantityByKey | Frontend/src/Components/Cart.jsx:35-44 | matching on `_id \|\| id`, the lines with the key come back with the new quantity when it is positive, and only positive lines remain; positive lines with another key keep their count; nothing else appears |
| CartPage.UpdateQuantityByKeyOne | Frontend/src/Components/Cart.jsx:35-44 | with unique keys, the corrected edit changes or removes the pressed line alone |
| CartPage.RemoveByKeyOne | Frontend/src/Components/Cart.jsx:46-52 | with unique keys, removal by identity drops the pressed line alone |
| CartPage.UpdateByKeySparesSiblings | Frontend/src/Components/Cart.jsx:37-41 | on the same two example lines, the corrected edit leaves the sibling alone |
| CartPage.RemoveByKeySparesSiblings | Frontend/src/Components/Cart.jsx:48 | on the same two example lines, removal by identity keeps the sibling |
| CartPage.Checkout | Frontend/src/Components/Cart.jsx:58-94 | refusals come in order: blank address, name, phone, then no stored user, then a non-customer; otherwise the payload has `(_id \|\| id, quantity)` in cart order, the subtotal plus 20 and the untrimmed form fields |
| CartPage.EmptyCartRefusedByRoute | Frontend/src/Components/Cart.jsx:58-94 | the page submits an empty cart, and the order route refuses it for missing items |
| CartPage.CheckoutPayloadAccepted | Frontend/src/Components/Cart.jsx:86-94 | a non-empty submission passes the route's checks for items, total and address |
| CartPage.CheckoutPayloadLegacy | Frontend/src/Components/Cart.jsx:86-94 | against the legacy handler the listening server runs (`Backend/products.js:70-78`): the payload is refused for missing items exactly when the cart is empty, and a non-empty one for a missing buyer exactly when the user has no `id` or `_id`; an accepted order is recorded for that user |
| HomePage.Lower | Frontend/src/Components/Home.jsx:61 | lowercasing keeps the length and maps each character on its own |
| HomePage.Contains | Frontend/src/Components/Home.jsx:61 | `includes` holds exactly when the query occurs at some position in the name |
| HomePage.ContainsPrefix | Frontend/src/Components/Home.jsx:61 | whenever a query occurs, each of its prefixes occurs |
| HomePage.SearchProducts | Frontend/src/Components/Home.jsx:60-62 | exactly the products whose lowercased name contains the lowercased query, each as often as listed |
| HomePage.EmptyQueryKeepsAll | Frontend/src/Components/Home.jsx:60-62 | an empty query keeps every product, in order |
| HomePage.SearchIgnoresQueryCase | Frontend/src/Components/Home.jsx:61 | the case of the query does not matter |
| HomePage.LongerQueryNarrows | Frontend/src/Components/Home.jsx:60-62 | typing more characters only narrows the results |
| HomePage.HomeLine | Frontend/src/Components/Home.jsx:85 | the appended line has the product's identity and quantity 1 |
| HomePage.HomeAdd | Frontend/src/Components/Home.jsx:78-86 | after the merge-or-append the cart holds a line for the product; `HomePage.HomeAddEffect` states the unit count, the growth and the kept lines |
| HomePage.HomeAddEffect | Frontend/src/Components/Home.jsx:78-86 | an add puts exactly one unit in the cart, on the product's line; the cart grows only when it had no such line; other lines are unchanged; unique keys stay unique |
| HomePage.BrowserCart.AddFromHome | Frontend/src/Components/Home.jsx:64-91 | with no stored user, or a non-customer, the add is refused and the cart is unchanged; otherwise the first matching line gains one unit in place, or the product is appended |

## Left out

- `ObjectId.isValid` is modelled as "24 hexadecimal digits". Mongoose also accepts 12-byte strings and `ObjectId` instances. Ids are compared as written, without case folding.
- ServerOrders.MyOrders, ServerOrders.FarmerOrders: Mongoose drops a query condition whose value is `undefined`. A caller without an id therefore gets an unfiltered query on `GET /`, `GET /farmer` and the seller listings. The model compares against the caller's absent id instead.
- Mongoose casts numeric strings and `null` request values. The model treats a quantity as a number or as absent.
- The legacy route's `buyers.includes(buyerId)` compares ObjectIds with a string. The model compares the id strings.
- MongoDB transaction isolation and concurrent checkouts are left out. Each placement is one sequential step; `ServerOrders.NoOversell` covers placements run one after the other.
- `populate`, the HTTP layer, response bodies and error message strings are left out. Outcomes are result values, with status codes in `Common.HttpStatus`.
- The auth middleware is left out. The decoded token is the `Principal` input.
- React state, effects, rendering, `localStorage`, `fetch` and toasts are left out. The page functions take the stored cart and user as arguments and return the new cart or the payload.
- HomePage.Lower: `toLowerCase` lowercases the ASCII letters only. Other Unicode case mappings are not modelled.
- The order among documents with equal `createdAt` is not pinned down: the listings promise newest first and the right multiset.
- Prices and totals are integers. Floating-point arithmetic and `toFixed` display are not modelled.
- `getVideoEmbedUrl` is left out, because it depends on the browser's URL parser.
- The display-only fields a cart line carries (unit, image, farmer, location, organic) are left out.
- A product's name is treated as always present on the client.
- BackendProducts.ApplyPatch: the model does not let a patch rewrite `_id`; Mongoose refuses that on save.
- `Farmer-Dashboard.jsx`, the login, signup, and contact pages, and the server wiring are not part of this model.

## Findings

| source | as written | input that shows it | evidently intended | confidence | as-written member | corrected member |
|---|---|---|---|---|---|---|
| Frontend/src/Components/Cart.jsx:35-52 | `updateQuantity` and `removeItem` match lines on `item.id` alone, and the buttons pass `item.id`. Lines added from the home page copy the listed product, which has `_id` but no `id`. | A cart of two such lines, apples and honey. Pressing "+" on apples also sets the honey line's quantity. Removing apples removes both lines. | Match on the line identity `_id \|\| id`, as `getProductId` does on the dashboard. | not executed | CartPage.UpdateQuantityTouchesSiblings | CartPage.UpdateQuantityByKeyOne |
| Frontend/src/Components/Cart.jsx:46-52 | `removeItem` drops every line whose `id` equals the pressed line's `id`, and undefined equals undefined. | The same two-line cart: removing apples leaves `[]`. | Drop the pressed line alone. | not executed | CartPage.RemoveItemDropsSiblings | CartPage.RemoveByKeyOne |
