/** The MongoDB database the routes work on: the product and order collections. */
module Database {
  import opened Common
  import opened ProductModel
  import opened OrderModel
  import opened Listing

  class Db {
    /** The `products` collection, by `_id`. */
    var products: map<Id, Product>
    /** The `orders` collection, in insertion order. */
    var orders: seq<Order>

    /** The `_id` indexes: products are stored under their id, and order ids are unique. */
    ghost predicate Valid()
      reads this
    {
      Keyed(products) && DistinctIds(orders)
    }

    constructor ()
      ensures Valid()
      ensures products == map[] && orders == []
    {
      products := map[];
      orders := [];
    }
  }

  /** `Order.find({ customerId }).sort({ createdAt: -1 })`. */
  function CustomerOrderList(orders: seq<Order>, customer: string): (r: seq<Order>)
    ensures NewestFirst(r, OrderCreated)
    ensures forall o :: multiset(r)[o] == if o.customerId == customer then multiset(orders)[o] else 0
  {
    SortNewestFirst(Filter(orders, (o: Order) => o.customerId == customer), OrderCreated)
  }

  /** `Product.find({ farmerId }).select('_id')`: the ids of the seller's products. */
  function SellerProductIds(products: map<Id, Product>, seller: string): (ids: set<Id>)
    ensures forall k :: k in products && products[k].farmerId == seller ==> products[k].id in ids
    ensures forall x :: x in ids ==>
      exists k :: k in products && products[k].farmerId == seller && products[k].id == x
  {
    set k | k in products && products[k].farmerId == seller :: products[k].id
  }

  /** The orders with at least one line item for one of the seller's products, newest first. */
  function SellerOrderList(products: map<Id, Product>, orders: seq<Order>, seller: string): (r: seq<Order>)
    ensures NewestFirst(r, OrderCreated)
    ensures forall o :: multiset(r)[o] ==
                        if Touches(o, SellerProductIds(products, seller)) then multiset(orders)[o] else 0
  {
    var ids := SellerProductIds(products, seller);
    SortNewestFirst(Filter(orders, (o: Order) => Touches(o, ids)), OrderCreated)
  }

  /** Documents stored under their own `_id` are distinct. */
  lemma KeyedInjective(products: map<Id, Product>)
    requires Keyed(products)
    ensures Injective(products)
  {
    forall a, b | a in products && b in products && products[a] == products[b] ensures a == b {
      assert products[a].id == a && products[b].id == b;
    }
  }

  /** `Product.find({ visible: true }).sort({ createdAt: -1 })`: each visible document once. */
  ghost function VisibleProductList(products: map<Id, Product>): (r: seq<Product>)
    ensures NewestFirst(r, ProductCreated)
    ensures forall p :: p in r <==> p in products.Values && p.visible
    ensures |r| <= |products|
    ensures Keyed(products) ==>
      forall p :: multiset(r)[p] == if p in products.Values && p.visible then 1 else 0
  {
    assert Keyed(products) ==> Injective(products) by {
      if Keyed(products) {
        KeyedInjective(products);
      }
    }
    SortNewestFirst(Filter(Values(products), (p: Product) => p.visible), ProductCreated)
  }

  /** `Product.find({ farmerId }).sort({ createdAt: -1 })`: each of the farmer's documents once. */
  ghost function FarmerProductList(products: map<Id, Product>, farmer: string): (r: seq<Product>)
    ensures NewestFirst(r, ProductCreated)
    ensures forall p :: p in r <==> p in products.Values && p.farmerId == farmer
    ensures |r| <= |products|
    ensures Keyed(products) ==>
      forall p :: multiset(r)[p] == if p in products.Values && p.farmerId == farmer then 1 else 0
  {
    assert Keyed(products) ==> Injective(products) by {
      if Keyed(products) {
        KeyedInjective(products);
      }
    }
    SortNewestFirst(Filter(Values(products), (p: Product) => p.farmerId == farmer), ProductCreated)
  }
}
