/** The home page (Frontend/src/Components/Home.jsx): the product search and its add-to-cart. */
module HomePage {
  import opened Wrappers
  import opened Listing
  import opened CartLines

  // ---------------------------------------------------------------------------------------
  // filteredProducts
  // ---------------------------------------------------------------------------------------

  function LowerChar(c: char): char
  {
    if 'A' <= c <= 'Z' then (c as int + 32) as char else c
  }

  /** `toLowerCase` on the ASCII letters. */
  function Lower(s: string): (r: string)
    ensures |r| == |s|
    ensures forall i :: 0 <= i < |s| ==> r[i] == LowerChar(s[i])
  {
    seq(|s|, i requires 0 <= i < |s| => LowerChar(s[i]))
  }

  lemma LowerIdempotent(s: string)
    ensures Lower(Lower(s)) == Lower(s)
  {
  }

  lemma LowerConcat(a: string, b: string)
    ensures Lower(a + b) == Lower(a) + Lower(b)
  {
  }

  /** `t` occurs in `s` starting at position `k`. */
  predicate OccursAt(s: string, t: string, k: nat)
  {
    k + |t| <= |s| && s[k..k + |t|] == t
  }

  lemma OccursShift(s: string, t: string, k: nat)
    requires |s| > 0
    ensures OccursAt(s[1..], t, k) <==> OccursAt(s, t, k + 1)
  {
    if k + |t| <= |s[1..]| {
      assert s[1..][k..k + |t|] == s[k + 1..k + 1 + |t|];
    }
  }

  /** `s.includes(t)`: `t` occurs in `s` at some position. */
  function Contains(s: string, t: string): (r: bool)
    ensures r <==> exists k: nat :: OccursAt(s, t, k)
    decreases |s|
  {
    if |t| > |s| then false
    else if s[..|t|] == t then
      assert OccursAt(s, t, 0);
      true
    else
      var rest := Contains(s[1..], t);
      assert rest ==> exists k: nat :: OccursAt(s, t, k) by {
        if rest {
          var k: nat :| OccursAt(s[1..], t, k);
          OccursShift(s, t, k);
        }
      }
      assert (exists k: nat :: OccursAt(s, t, k)) ==> rest by {
        if exists k: nat :: OccursAt(s, t, k) {
          var k: nat :| OccursAt(s, t, k);
          assert k != 0;
          OccursShift(s, t, k - 1);
        }
      }
      rest
  }

  /** A query that occurs also has each of its prefixes occurring. */
  lemma ContainsPrefix(s: string, t: string, u: string)
    requires Contains(s, t + u)
    ensures Contains(s, t)
  {
    var k: nat :| OccursAt(s, t + u, k);
    assert s[k..k + |t|] == (t + u)[..|t|] == t;
    assert OccursAt(s, t, k);
  }

  /** The search keeps a product when its lowercased name contains the lowercased query. */
  predicate Matches(p: ClientProduct, query: string)
  {
    Contains(Lower(p.name), Lower(query))
  }

  /** `filteredProducts`: the listed products the search matches, in listing order. */
  function SearchProducts(products: seq<ClientProduct>, query: string): (r: seq<ClientProduct>)
    ensures forall p :: p in r <==> p in products && Matches(p, query)
    ensures forall p :: multiset(r)[p] == if Matches(p, query) then multiset(products)[p] else 0
  {
    Filter(products, (p: ClientProduct) => Matches(p, query))
  }

  /** An empty query keeps every product, in order. */
  lemma EmptyQueryKeepsAll(products: seq<ClientProduct>)
    ensures SearchProducts(products, "") == products
  {
    forall i | 0 <= i < |products| ensures Matches(products[i], "") {
      assert OccursAt(Lower(products[i].name), Lower(""), 0);
    }
    FilterAll(products, (p: ClientProduct) => Matches(p, ""));
  }

  /** The search ignores the case of the query. */
  lemma SearchIgnoresQueryCase(products: seq<ClientProduct>, query: string)
    ensures SearchProducts(products, Lower(query)) == SearchProducts(products, query)
  {
    LowerIdempotent(query);
    FilterSame(products, (p: ClientProduct) => Matches(p, Lower(query)), (p: ClientProduct) => Matches(p, query));
  }

  /** Typing more characters can only narrow the results. */
  lemma LongerQueryNarrows(products: seq<ClientProduct>, query: string, more: string)
    ensures multiset(SearchProducts(products, query + more)) <= multiset(SearchProducts(products, query))
  {
    LowerConcat(query, more);
    forall p | Matches(p, query + more) ensures Matches(p, query) {
      ContainsPrefix(Lower(p.name), Lower(query), Lower(more));
    }
  }

  // ---------------------------------------------------------------------------------------
  // handleAddToCart
  // ---------------------------------------------------------------------------------------

  /** `{ ...product, quantity: 1 }`: the product's own id fields, one unit. */
  function HomeLine(p: ClientProduct): (l: Line)
    ensures LineKey(l) == ProductKey(p) && l.quantity == 1
  {
    Line(p.oid, p.id, p.name, p.price, 1)
  }

  /** The merge-or-append on the stored cart: one more unit on the first matching line, else a new line. */
  function HomeAdd(cart: seq<Line>, product: ClientProduct): (r: seq<Line>)
    ensures exists i :: 0 <= i < |r| && LineKey(r[i]) == ProductKey(product)
  {
    match FindLine(cart, ProductKey(product))
    case Some(i) =>
      var r := cart[i := cart[i].(quantity := cart[i].quantity + 1)];
      assert LineKey(r[i]) == LineKey(cart[i]);
      r
    case None =>
      assert (cart + [HomeLine(product)])[|cart|] == HomeLine(product);
      cart + [HomeLine(product)]
  }

  /**
   * Every accepted add puts exactly one unit in the cart, on the product's line, and keeps
   * line identities unique; the cart grows by a line only when the product had none.
   */
  lemma HomeAddEffect(cart: seq<Line>, product: ClientProduct)
    ensures Units(HomeAdd(cart, product)) == Units(cart) + 1
    ensures |HomeAdd(cart, product)| == if FindLine(cart, ProductKey(product)).Some? then |cart| else |cart| + 1
    ensures UniqueKeys(cart) ==> UniqueKeys(HomeAdd(cart, product))
    ensures forall i :: 0 <= i < |cart| && LineKey(cart[i]) != ProductKey(product) ==> HomeAdd(cart, product)[i] == cart[i]
    ensures FindLine(HomeAdd(cart, product), ProductKey(product)).Some?
  {
    match FindLine(cart, ProductKey(product))
    case Some(i) =>
      var x := cart[i].(quantity := cart[i].quantity + 1);
      Around(cart, i);
      Splice(cart, i, x);
      UnitsConcat(cart[..i] + [cart[i]], cart[i + 1..]);
      UnitsConcat(cart[..i], [cart[i]]);
      UnitsConcat(cart[..i] + [x], cart[i + 1..]);
      UnitsConcat(cart[..i], [x]);
      assert LineKey(HomeAdd(cart, product)[i]) == ProductKey(product);
    case None =>
      UnitsConcat(cart, [HomeLine(product)]);
      assert HomeAdd(cart, product)[|cart|] == HomeLine(product);
  }

  /** Why the home page refuses to add. */
  datatype Refusal = NotLoggedIn | NotCustomer

  /** The cart kept in local storage, which `handleAddToCart` changes in place. */
  class BrowserCart {
    var lines: seq<Line>

    constructor (stored: seq<Line>)
      ensures lines == stored
    {
      lines := stored;
    }

    /** `handleAddToCart`: only a stored customer may add; the matching line is bumped in place. */
    method AddFromHome(product: ClientProduct, user: Option<StoredUser>) returns (refused: Option<Refusal>)
      modifies this
      ensures user.None? ==> refused == Some(NotLoggedIn)
      ensures user.Some? && user.value.role != Some("customer") ==> refused == Some(NotCustomer)
      ensures refused.None? <==> user.Some? && user.value.role == Some("customer")
      ensures lines == if refused.None? then HomeAdd(old(lines), product) else old(lines)
    {
      if user.None? {
        return Some(NotLoggedIn);
      }
      if user.value.role != Some("customer") {
        return Some(NotCustomer);
      }
      var pid := ProductKey(product);
      var existing := FindLine(lines, pid);
      if existing.Some? {
        var i := existing.value;
        lines := lines[i := lines[i].(quantity := lines[i].quantity + 1)];
      } else {
        lines := lines + [HomeLine(product)];
      }
      refused := None;
    }
  }
}
