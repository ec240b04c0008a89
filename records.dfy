/**
 * The store's records (models/product.py): products, cart lines, the cart
 * and orders, with their conversions to and from the dictionaries that are
 * written to and read from storage, and the cart total.
 */
module Records {
  import opened Wrappers
  import opened Values

  datatype Product = Product(
    id: string,
    name: string,
    category: string,
    price: real,
    description: string,
    stock: int,
    brand: string)

  /** A cart line; the price is the catalog price captured when the line was created. */
  datatype CartItem = CartItem(productId: string, quantity: int, price: real)

  datatype Cart = Cart(userId: string, items: seq<CartItem>)

  /**
   * An order. Its items are the `{product_id, quantity, price}` dictionaries
   * of the cart lines at checkout, kept here as the lines themselves.
   */
  datatype Order = Order(
    id: string,
    userId: string,
    items: seq<CartItem>,
    total: real,
    status: string,
    createdAt: string)

  // ---------------------------------------------------------------------
  // to_dict

  function ProductToDict(p: Product): Value
  {
    VDict(map[
      "id" := VStr(p.id),
      "name" := VStr(p.name),
      "category" := VStr(p.category),
      "price" := VReal(p.price),
      "description" := VStr(p.description),
      "stock" := VInt(p.stock),
      "brand" := VStr(p.brand)])
  }

  /** `CartItem.to_dict`: exactly the three keys, carrying the line's values. */
  function CartItemToDict(item: CartItem): (v: Value)
    ensures v.VDict? && v.entries.Keys == {"product_id", "quantity", "price"}
    ensures v.entries["product_id"] == VStr(item.productId)
    ensures v.entries["quantity"] == VInt(item.quantity)
    ensures v.entries["price"] == VReal(item.price)
  {
    VDict(map["product_id" := VStr(item.productId), "quantity" := VInt(item.quantity), "price" := VReal(item.price)])
  }

  function ItemsToList(items: seq<CartItem>): (v: Value)
    ensures v.VList? && |v.elems| == |items|
    ensures forall i :: 0 <= i < |items| ==> v.elems[i] == CartItemToDict(items[i])
  {
    VList(seq(|items|, i requires 0 <= i < |items| => CartItemToDict(items[i])))
  }

  function CartToDict(c: Cart): Value
  {
    VDict(map["user_id" := VStr(c.userId), "items" := ItemsToList(c.items)])
  }

  function OrderToDict(o: Order): Value
  {
    VDict(map[
      "id" := VStr(o.id),
      "user_id" := VStr(o.userId),
      "items" := ItemsToList(o.items),
      "total" := VReal(o.total),
      "status" := VStr(o.status),
      "created_at" := VStr(o.createdAt)])
  }

  // ---------------------------------------------------------------------
  // from_dict: `cls(**data)`, every dataclass field being required

  const ProductFields: seq<string> := ["id", "name", "category", "price", "description", "stock", "brand"]

  const CartItemFields: seq<string> := ["product_id", "quantity", "price"]

  const OrderFields: seq<string> := ["id", "user_id", "items", "total", "status", "created_at"]

  /** The first field, in declaration order, that `data` does not supply. */
  function FirstMissing(fields: seq<string>, data: map<string, Value>): (r: Option<string>)
    ensures r.None? <==> forall f :: f in fields ==> f in data
    ensures r.Some? ==> r.value in fields && r.value !in data
  {
    if fields == [] then None
    else if fields[0] !in data then Some(fields[0])
    else FirstMissing(fields[1..], data)
  }

  /**
   * `cls(**data)` for a dataclass whose fields are all required: `data` must
   * be a mapping, a key that is no field raises `TypeError`, and so does a
   * field that is missing.
   */
  function Kwargs(cls: string, fields: seq<string>, data: Value): (r: Result<map<string, Value>, string>)
    ensures r.Success? <==> data.VDict? && forall k :: k in data.entries <==> k in fields
    ensures r.Success? ==> r.value == data.entries
  {
    if !data.VDict? then Failure("TypeError: " + cls + "() argument after ** must be a mapping")
    else if exists k :: k in data.entries && k !in fields then
      Failure("TypeError: " + cls + ".__init__() got an unexpected keyword argument")
    else match FirstMissing(fields, data.entries)
      case Some(f) => Failure("TypeError: " + cls + ".__init__() missing required argument: '" + f + "'")
      case None => Success(data.entries)
  }

  /** `Product.from_dict` */
  function ProductFromDict(data: Value): Result<Product, string>
  {
    var m :- Kwargs("Product", ProductFields, data);
    var id :- AsStr(m["id"]);
    var name :- AsStr(m["name"]);
    var category :- AsStr(m["category"]);
    var price :- AsReal(m["price"]);
    var description :- AsStr(m["description"]);
    var stock :- AsInt(m["stock"]);
    var brand :- AsStr(m["brand"]);
    Success(Product(id, name, category, price, description, stock, brand))
  }

  /** `CartItem(**item)` */
  function CartItemFromDict(data: Value): Result<CartItem, string>
  {
    var m :- Kwargs("CartItem", CartItemFields, data);
    var productId :- AsStr(m["product_id"]);
    var quantity :- AsInt(m["quantity"]);
    var price :- AsReal(m["price"]);
    Success(CartItem(productId, quantity, price))
  }

  /** `[CartItem(**item) for item in items]`, items being a list. */
  function ItemsFromList(v: Value): Result<seq<CartItem>, string>
  {
    if !v.VList? then Failure("TypeError: object is not iterable")
    else ItemsFrom(v.elems)
  }

  function ItemsFrom(xs: seq<Value>): Result<seq<CartItem>, string>
  {
    if xs == [] then Success([])
    else
      var first :- CartItemFromDict(xs[0]);
      var rest :- ItemsFrom(xs[1..]);
      Success([first] + rest)
  }

  /** `Cart.from_dict`: items default to an empty list, `user_id` must be present, other keys are ignored. */
  function CartFromDict(data: Value): Result<Cart, string>
  {
    var raw :- Get(data, "items");
    var items :- if "items" in data.entries then ItemsFromList(raw) else Success([]);
    var uid :- Index(data, "user_id");
    var userId :- AsStr(uid);
    Success(Cart(userId, items))
  }

  /** `Order.from_dict` */
  function OrderFromDict(data: Value): Result<Order, string>
  {
    var m :- Kwargs("Order", OrderFields, data);
    var id :- AsStr(m["id"]);
    var userId :- AsStr(m["user_id"]);
    var items :- ItemsFromList(m["items"]);
    var total :- AsReal(m["total"]);
    var status :- AsStr(m["status"]);
    var createdAt :- AsStr(m["created_at"]);
    Success(Order(id, userId, items, total, status, createdAt))
  }

  // ---------------------------------------------------------------------
  // Round trips

  lemma ProductRoundTrip(p: Product)
    ensures ProductFromDict(ProductToDict(p)) == Success(p)
  {
  }

  lemma CartItemRoundTrip(item: CartItem)
    ensures CartItemFromDict(CartItemToDict(item)) == Success(item)
  {
  }

  lemma {:induction false} ItemsRoundTrip(items: seq<CartItem>)
    ensures ItemsFromList(ItemsToList(items)) == Success(items)
  {
    if items != [] {
      ItemsRoundTrip(items[1..]);
      CartItemRoundTrip(items[0]);
      assert ItemsToList(items).elems[1..] == ItemsToList(items[1..]).elems;
      assert [items[0]] + items[1..] == items;
    }
  }

  /** A cart survives being saved and loaded, lines in their order. */
  lemma CartRoundTrip(c: Cart)
    ensures CartFromDict(CartToDict(c)) == Success(c)
  {
    ItemsRoundTrip(c.items);
  }

  /** An order survives being saved and loaded, its item snapshot included. */
  lemma OrderRoundTrip(o: Order)
    ensures OrderFromDict(OrderToDict(o)) == Success(o)
  {
    ItemsRoundTrip(o.items);
  }

  /** Stored cart data without an `items` key loads as a cart with no lines. */
  lemma CartWithoutItems(data: Value, userId: string)
    requires data.VDict? && "items" !in data.entries
    requires "user_id" in data.entries && data.entries["user_id"] == VStr(userId)
    ensures CartFromDict(data) == Success(Cart(userId, []))
  {
  }

  // ---------------------------------------------------------------------
  // Totals

  function Subtotal(item: CartItem): real
  {
    item.price * item.quantity as real
  }

  /** The sum of price times quantity over the lines, added left to right. */
  function LinesTotal(items: seq<CartItem>): real
  {
    if items == [] then 0.0 else LinesTotal(items[..|items| - 1]) + Subtotal(items[|items| - 1])
  }

  /** `Cart.get_total` */
  function GetTotal(c: Cart): real
  {
    LinesTotal(c.items)
  }

  /** One more line adds its subtotal. */
  lemma LinesTotalAppend(items: seq<CartItem>, item: CartItem)
    ensures LinesTotal(items + [item]) == LinesTotal(items) + Subtotal(item)
  {
    assert (items + [item])[..|items|] == items;
  }

  /** The total of the first `k + 1` lines adds line `k`'s subtotal to the total of the first `k`. */
  lemma LinesTotalPrefix(items: seq<CartItem>, k: nat)
    requires k < |items|
    ensures LinesTotal(items[..k + 1]) == LinesTotal(items[..k]) + Subtotal(items[k])
  {
    assert items[..k + 1][..k] == items[..k];
  }

  /** Raising a line's quantity by `delta` raises its subtotal by the subtotal of `delta` units at its price. */
  lemma SubtotalGrow(item: CartItem, delta: int)
    ensures Subtotal(item.(quantity := item.quantity + delta)) == Subtotal(item) + Subtotal(item.(quantity := delta))
  {
  }

  /** The total of two runs of lines is the sum of their totals; an empty cart totals 0. */
  lemma {:induction false} LinesTotalConcat(a: seq<CartItem>, b: seq<CartItem>)
    ensures LinesTotal(a + b) == LinesTotal(a) + LinesTotal(b)
    decreases |b|
  {
    if b == [] {
      assert a + b == a;
    } else {
      var n := |b| - 1;
      assert (a + b)[..|a + b| - 1] == a + b[..n];
      LinesTotalConcat(a, b[..n]);
    }
  }

  /** The total splits around any line: the lines before it, its subtotal, and the lines after it. */
  lemma LinesTotalAround(items: seq<CartItem>, i: nat)
    requires i < |items|
    ensures LinesTotal(items) == LinesTotal(items[..i]) + Subtotal(items[i]) + LinesTotal(items[i + 1..])
  {
    assert items[..i + 1] + items[i + 1..] == items;
    LinesTotalConcat(items[..i + 1], items[i + 1..]);
    LinesTotalPrefix(items, i);
  }

  /** A cart whose prices and quantities are non-negative has a non-negative total. */
  lemma {:induction false} TotalNonNegative(items: seq<CartItem>)
    requires forall i :: 0 <= i < |items| ==> items[i].price >= 0.0 && items[i].quantity >= 0
    ensures LinesTotal(items) >= 0.0
    decreases |items|
  {
    if items != [] {
      TotalNonNegative(items[..|items| - 1]);
      var last := items[|items| - 1];
      assert Subtotal(last) >= 0.0;
    }
  }
}
