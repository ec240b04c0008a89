/**
 * Catalog queries (functions/product_functions.py): search with optional
 * filters, lookup by id, and the stock check. All read the catalog and
 * change nothing.
 */
module Catalog {
  import opened Wrappers
  import opened Strings
  import opened Values
  import opened Records
  import opened Sequences

  // ---------------------------------------------------------------------
  // search_products

  /** An empty query matches everything; otherwise it must occur, case-insensitively, in the name or the description. */
  predicate MatchesQuery(p: Product, query: string)
  {
    query == "" ||
    Contains(Lower(p.name), Lower(query)) ||
    Contains(Lower(p.description), Lower(query))
  }

  /** An empty category matches everything; otherwise it must equal the product's, case-insensitively. */
  predicate MatchesCategory(p: Product, category: string)
  {
    category == "" || Lower(category) == Lower(p.category)
  }

  /** Both price bounds are inclusive and each is optional. */
  predicate WithinPrice(p: Product, maxPrice: Option<real>, minPrice: Option<real>)
  {
    (maxPrice.None? || p.price <= maxPrice.value) &&
    (minPrice.None? || p.price >= minPrice.value)
  }

  datatype Filter = Filter(query: string, category: string, maxPrice: Option<real>, minPrice: Option<real>)

  /** The filter that `search_products()` applies when called with no arguments. */
  const NoFilter := Filter("", "", None, None)

  predicate Matches(p: Product, f: Filter)
  {
    MatchesQuery(p, f.query) && MatchesCategory(p, f.category) && WithinPrice(p, f.maxPrice, f.minPrice)
  }

  /** `search_products`: the catalog products passing every filter, in catalog order. */
  function SearchProducts(products: seq<Product>, f: Filter): (r: seq<Product>)
    ensures |r| <= |products|
    ensures forall x :: x in r ==> x in products && Matches(x, f)
  {
    if products == [] then []
    else
      var rest := SearchProducts(products[1..], f);
      if Matches(products[0], f) then [products[0]] + rest else rest
  }

  /** Every catalog product that passes the filters is in the result. */
  lemma {:induction false} SearchComplete(products: seq<Product>, f: Filter, i: nat)
    requires i < |products| && Matches(products[i], f)
    ensures products[i] in SearchProducts(products, f)
  {
    if i > 0 {
      SearchComplete(products[1..], f, i - 1);
    }
  }

  /** Search keeps catalog order. */
  lemma {:induction false} SearchKeepsOrder(products: seq<Product>, f: Filter)
    ensures Embeds(SearchProducts(products, f), products)
  {
    if products != [] {
      SearchKeepsOrder(products[1..], f);
      var r := SearchProducts(products, f);
      if !Matches(products[0], f) {
        assert r == SearchProducts(products[1..], f);
        if r != [] {
          assert Embeds(r, products[1..]);
        }
      }
    }
  }

  /** With no query, no category and no price bounds, search returns the catalog as stored. */
  lemma {:induction false} SearchUnfiltered(products: seq<Product>)
    ensures SearchProducts(products, NoFilter) == products
  {
    if products != [] {
      SearchUnfiltered(products[1..]);
      assert [products[0]] + products[1..] == products;
    }
  }

  /** The loop of `search_products`: each product passing the filters is appended, in catalog order. */
  method SearchCatalog(products: seq<Product>, f: Filter) returns (results: seq<Product>)
    ensures results == SearchProducts(products, f)
  {
    results := [];
    var i := 0;
    assert products[i..] == products;
    while i < |products|
      invariant 0 <= i <= |products|
      invariant results + SearchProducts(products[i..], f) == SearchProducts(products, f)
    {
      SearchStep(products, f, i);
      if Matches(products[i], f) {
        results := results + [products[i]];
      }
      i := i + 1;
    }
    assert products[i..] == [];
  }

  /** The search of a suffix: its first product if it matches, then the search of the rest. */
  lemma SearchStep(products: seq<Product>, f: Filter, i: nat)
    requires i < |products|
    ensures SearchProducts(products[i..], f) ==
            (if Matches(products[i], f) then [products[i]] else []) + SearchProducts(products[i + 1..], f)
  {
    assert products[i..][1..] == products[i + 1..];
  }

  // ---------------------------------------------------------------------
  // get_product_by_id

  /** `products[i]` is the first product whose id is `id`. */
  predicate FirstWithId(products: seq<Product>, id: string, i: int)
  {
    0 <= i < |products| && products[i].id == id &&
    forall j :: 0 <= j < i ==> products[j].id != id
  }

  /** `get_product_by_id`: the first product with that id, or `None`. */
  function GetProductById(products: seq<Product>, id: string): (r: Option<Product>)
    ensures r.None? <==> forall p :: p in products ==> p.id != id
    ensures r.Some? ==> exists i :: FirstWithId(products, id, i) && products[i] == r.value
  {
    if products == [] then None
    else if products[0].id == id then
      assert FirstWithId(products, id, 0);
      Some(products[0])
    else
      var r := GetProductById(products[1..], id);
      if r.Some? then
        var i :| FirstWithId(products[1..], id, i) && products[1..][i] == r.value;
        assert FirstWithId(products, id, i + 1);
        r
      else
        r
  }

  /** The loop of `get_product_by_id`: the products are scanned in order and the first match is returned. */
  method FindProduct(products: seq<Product>, id: string) returns (r: Option<Product>)
    ensures r == GetProductById(products, id)
  {
    var i := 0;
    while i < |products|
      invariant 0 <= i <= |products|
      invariant GetProductById(products[i..], id) == GetProductById(products, id)
    {
      assert products[i..][1..] == products[i + 1..];
      if products[i].id == id {
        return Some(products[i]);
      }
      i := i + 1;
    }
    return None;
  }

  // ---------------------------------------------------------------------
  // check_product_availability

  /** The availability report; `requested` is absent when the product is unknown. */
  datatype Availability = Availability(available: bool, message: string, stock: int, requested: Option<int>)

  /** `check_product_availability` */
  function CheckAvailability(products: seq<Product>, id: string, quantity: int): (r: Availability)
    ensures (forall p :: p in products ==> p.id != id) ==>
              r == Availability(false, "Product not found", 0, None)
    ensures forall i :: FirstWithId(products, id, i) ==>
              && r.available == (products[i].stock >= quantity)
              && r.stock == products[i].stock
              && r.requested == Some(quantity)
              && r.message == (if r.available then "Available" else "Not enough stock")
  {
    match GetProductById(products, id)
    case None => Availability(false, "Product not found", 0, None)
    case Some(p) =>
      var available := p.stock >= quantity;
      Availability(available, if available then "Available" else "Not enough stock", p.stock, Some(quantity))
  }

  /** For a product in the catalog, the check is exactly a stock comparison against its first entry. */
  lemma AvailableIffEnoughStock(products: seq<Product>, id: string, quantity: int)
    requires GetProductById(products, id).Some?
    ensures CheckAvailability(products, id, quantity).available <==>
            GetProductById(products, id).value.stock >= quantity
  {
  }

  /** The dictionary `check_product_availability` returns. */
  function AvailabilityToDict(a: Availability): Value
  {
    var base := map["available" := VBool(a.available), "message" := VStr(a.message), "stock" := VInt(a.stock)];
    if a.requested.Some? then VDict(base["requested" := VInt(a.requested.value)]) else VDict(base)
  }
}
