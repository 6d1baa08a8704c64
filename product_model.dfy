/** The Product schema: its fields, defaults and the validation `save` runs. */
module ProductModel {
  import opened Wrappers
  import opened Common

  /** A product document. `price` and `stock` are integers in the source's own unit. */
  datatype Product = Product(
    id: Id,
    name: string,
    description: Option<string>,
    price: int,
    unit: string,
    stock: int,
    imageUrl: Option<string>,
    videoUrl: Option<string>,
    farmerId: Id,
    buyersCount: int,
    buyers: seq<Id>,
    visible: bool,
    createdAt: int)

  const DefaultUnit := "unit"

  /** Schema validation on `save`: required strings are non-empty and ids cast to ObjectIds. */
  predicate SchemaValid(p: Product)
  {
    && p.name != ""
    && ValidObjectId(p.farmerId)
    && forall i :: 0 <= i < |p.buyers| ==> ValidObjectId(p.buyers[i])
  }

  /** `new Product({...})` followed by validation: the schema defaults fill in what is absent. */
  function NewProduct(id: Id, name: string, description: Option<string>, price: int,
                      unit: Option<string>, stock: Option<int>, imageUrl: Option<string>,
                      videoUrl: Option<string>, farmerId: Id, now: int): (r: Result<Product, Error>)
    ensures r.Ok? <==> name != "" && ValidObjectId(farmerId)
    ensures r.Err? ==> r.error == ValidationFailed
    ensures r.Ok? ==>
      && r.value.id == id && r.value.name == name && r.value.price == price
      && r.value.farmerId == farmerId && r.value.createdAt == now
      && r.value.unit == (if unit.Some? then unit.value else DefaultUnit)
      && r.value.stock == (if stock.Some? then stock.value else 0)
      && r.value.buyersCount == 0 && r.value.buyers == [] && r.value.visible
  {
    var p := Product(id, name, description, price,
                     if unit.Some? then unit.value else DefaultUnit,
                     if stock.Some? then stock.value else 0,
                     imageUrl, videoUrl, farmerId, 0, [], true, now);
    if SchemaValid(p) then Ok(p) else Err(ValidationFailed)
  }

  /** A product collection keyed by `_id`: every document is stored under its own id. */
  ghost predicate Keyed(m: map<Id, Product>)
  {
    forall k :: k in m ==> m[k].id == k
  }

  predicate NoDuplicates<T(==)>(s: seq<T>)
  {
    forall i, j :: 0 <= i < j < |s| ==> s[i] != s[j]
  }

  /** Records a buyer in `buyers` unless already present. */
  function AddBuyer(buyers: seq<Id>, c: Id): (r: seq<Id>)
    ensures c in r
    ensures forall x :: x in r <==> x in buyers || x == c
    ensures |r| == if c in buyers then |buyers| else |buyers| + 1
    ensures NoDuplicates(buyers) ==> NoDuplicates(r)
  {
    if c in buyers then buyers else buyers + [c]
  }

  lemma AddBuyerIdempotent(buyers: seq<Id>, c: Id)
    ensures AddBuyer(AddBuyer(buyers, c), c) == AddBuyer(buyers, c)
  {
  }

  /** Everything but the three fields an order changes is the same. */
  predicate SameListing(p: Product, q: Product)
  {
    p == q.(stock := p.stock, buyersCount := p.buyersCount, buyers := p.buyers)
  }

  /** One order line applied to a product: stock lowered, one more purchase, the buyer recorded. */
  function Purchased(p: Product, decrement: int, buyer: Id): Product
  {
    p.(stock := p.stock - decrement, buyersCount := p.buyersCount + 1, buyers := AddBuyer(p.buyers, buyer))
  }

  /** The sort key of `sort({ createdAt: -1 })`. */
  function ProductCreated(p: Product): int
  {
    p.createdAt
  }
}
