/**
 * The cart operations of functions/cart_functions.py as transitions of the
 * store's persistent state: the catalog, the single stored cart (absent
 * before the first save) and the list of orders. Each operation returns its
 * status dictionary's content together with the new state; the imperative
 * store in cart_store.dfy is proved to follow these.
 */
module CartRules {
  import opened Wrappers
  import opened Strings
  import opened Records
  import opened Catalog
  import opened Orders

  /** What the store keeps: products.json, cart.json (one cart for whichever user saved last) and orders.json. */
  datatype Data = Data(catalog: seq<Product>, cartSlot: Option<Cart>, orders: seq<Order>)

  /** The `{success, message}` dictionary most operations return. */
  datatype Status = Status(success: bool, message: string)

  /** `_load_cart`: the stored cart if it belongs to `u`, otherwise an empty cart for `u`. */
  function LoadCart(slot: Option<Cart>, u: string): (c: Cart)
    ensures c.userId == u
    ensures slot.Some? && slot.value.userId == u ==> c == slot.value
    ensures !(slot.Some? && slot.value.userId == u) ==> c.items == []
  {
    if slot.Some? && slot.value.userId == u then slot.value else Cart(u, [])
  }

  // ---------------------------------------------------------------------
  // Cart lines

  /** `items[i]` is the first line for product `pid`. */
  predicate FirstLine(items: seq<CartItem>, pid: string, i: int)
  {
    0 <= i < |items| && items[i].productId == pid &&
    forall j :: 0 <= j < i ==> items[j].productId != pid
  }

  /** The first line for `pid`, as the `for item in cart.items` searches find it. */
  function FindLine(items: seq<CartItem>, pid: string): (r: Option<nat>)
    ensures r.None? <==> forall i :: 0 <= i < |items| ==> items[i].productId != pid
    ensures r.Some? ==> FirstLine(items, pid, r.value)
  {
    if items == [] then None
    else if items[0].productId == pid then Some(0)
    else match FindLine(items[1..], pid)
      case None => None
      case Some(i) => Some(i + 1)
  }

  /** At most one line per product. */
  predicate UniqueLines(items: seq<CartItem>)
  {
    forall i, j :: 0 <= i < j < |items| ==> items[i].productId != items[j].productId
  }

  /** The stored cart, if any, has at most one line per product. */
  predicate Valid(d: Data)
  {
    d.cartSlot.Some? ==> UniqueLines(d.cartSlot.value.items)
  }

  /** How many units of `pid` the lines hold together. */
  function QuantityOf(items: seq<CartItem>, pid: string): int
  {
    if items == [] then 0
    else (if items[0].productId == pid then items[0].quantity else 0) + QuantityOf(items[1..], pid)
  }

  lemma {:induction false} QuantityOfConcat(a: seq<CartItem>, b: seq<CartItem>, pid: string)
    ensures QuantityOf(a + b, pid) == QuantityOf(a, pid) + QuantityOf(b, pid)
  {
    if a != [] {
      assert (a + b)[0] == a[0];
      assert (a + b)[1..] == a[1..] + b;
      QuantityOfConcat(a[1..], b, pid);
    } else {
      assert a + b == b;
    }
  }

  lemma {:induction false} QuantityOfAbsent(items: seq<CartItem>, pid: string)
    requires forall i :: 0 <= i < |items| ==> items[i].productId != pid
    ensures QuantityOf(items, pid) == 0
  {
    if items != [] {
      QuantityOfAbsent(items[1..], pid);
    }
  }

  /** With one line per product, a product's quantity is that of its line. */
  lemma QuantityOfUnique(items: seq<CartItem>, i: nat)
    requires UniqueLines(items) && i < |items|
    ensures QuantityOf(items, items[i].productId) == items[i].quantity
  {
    var pid := items[i].productId;
    assert items == items[..i] + [items[i]] + items[i + 1..];
    QuantityOfConcat(items[..i] + [items[i]], items[i + 1..], pid);
    QuantityOfConcat(items[..i], [items[i]], pid);
    QuantityOfAbsent(items[..i], pid);
    QuantityOfAbsent(items[i + 1..], pid);
  }

  /** Setting one line's quantity changes only that product's quantity, by the difference. */
  lemma QuantityOfSet(items: seq<CartItem>, i: nat, nq: int, pid: string)
    requires i < |items|
    ensures QuantityOf(items[i := items[i].(quantity := nq)], pid) ==
            QuantityOf(items, pid) + (if items[i].productId == pid then nq - items[i].quantity else 0)
  {
    var line := items[i].(quantity := nq);
    assert items == items[..i] + [items[i]] + items[i + 1..];
    assert items[i := line] == items[..i] + [line] + items[i + 1..];
    QuantityOfConcat(items[..i] + [items[i]], items[i + 1..], pid);
    QuantityOfConcat(items[..i], [items[i]], pid);
    QuantityOfConcat(items[..i] + [line], items[i + 1..], pid);
    QuantityOfConcat(items[..i], [line], pid);
  }

  /** Removing one line takes only its own quantity away. */
  lemma QuantityOfRemove(items: seq<CartItem>, i: nat, pid: string)
    requires i < |items|
    ensures QuantityOf(items[..i] + items[i + 1..], pid) ==
            QuantityOf(items, pid) - (if items[i].productId == pid then items[i].quantity else 0)
  {
    assert items == items[..i] + [items[i]] + items[i + 1..];
    QuantityOfConcat(items[..i] + [items[i]], items[i + 1..], pid);
    QuantityOfConcat(items[..i], [items[i]], pid);
    QuantityOfConcat(items[..i], items[i + 1..], pid);
  }

  /** Raising one line's quantity by `delta` raises the total by the subtotal of `delta` units at that line's price. */
  lemma LinesTotalGrow(items: seq<CartItem>, i: nat, delta: int)
    requires i < |items|
    ensures LinesTotal(items[i := items[i].(quantity := items[i].quantity + delta)]) ==
            LinesTotal(items) + Subtotal(items[i].(quantity := delta))
  {
    var updated := items[i := items[i].(quantity := items[i].quantity + delta)];
    assert updated[..i] == items[..i] && updated[i + 1..] == items[i + 1..];
    LinesTotalAround(items, i);
    LinesTotalAround(updated, i);
    SubtotalGrow(items[i], delta);
  }

  /** Removing one line takes its subtotal off the total. */
  lemma LinesTotalRemove(items: seq<CartItem>, i: nat)
    requires i < |items|
    ensures LinesTotal(items[..i] + items[i + 1..]) == LinesTotal(items) - Subtotal(items[i])
  {
    LinesTotalAround(items, i);
    LinesTotalConcat(items[..i], items[i + 1..]);
  }

  // ---------------------------------------------------------------------
  // add_to_cart

  /** The name shown in a message: the catalog name, or the id when the product is gone. */
  function DisplayName(catalog: seq<Product>, pid: string): (r: string)
    ensures GetProductById(catalog, pid).Some? ==> r == GetProductById(catalog, pid).value.name
    ensures GetProductById(catalog, pid).None? ==> r == pid
  {
    match GetProductById(catalog, pid)
    case Some(p) => p.name
    case None => pid
  }

  /** The cart lines after adding `quantity` of `pid`: its first line grows, keeping its price, or a new line is appended. */
  function AddLine(items: seq<CartItem>, pid: string, quantity: int, price: real): seq<CartItem>
  {
    match FindLine(items, pid)
    case Some(i) => items[i := items[i].(quantity := items[i].quantity + quantity)]
    case None => items + [CartItem(pid, quantity, price)]
  }

  /**
   * `add_to_cart`: the product must exist and have `quantity` in stock; an
   * existing line grows by `quantity` (keeping its price) if the stock covers
   * the sum, otherwise a line with the catalog price is appended. The
   * quantity itself is not checked, so zero or a negative amount is accepted.
   */
  function AddToCart(d: Data, pid: string, quantity: int, u: string): (Status, Data)
  {
    match GetProductById(d.catalog, pid)
    case None => (Status(false, "Product not found"), d)
    case Some(p) =>
      var a := CheckAvailability(d.catalog, pid, quantity);
      if !a.available then (Status(false, a.message), d)
      else
        var cart := LoadCart(d.cartSlot, u);
        var added := (Status(true, "Added " + IntToString(quantity) + " x " + p.name + " to cart"),
                      d.(cartSlot := Some(Cart(u, AddLine(cart.items, pid, quantity, p.price)))));
        match FindLine(cart.items, pid)
        case Some(i) =>
          var a2 := CheckAvailability(d.catalog, pid, cart.items[i].quantity + quantity);
          if !a2.available then (Status(false, "Cannot add " + IntToString(quantity) + " more. " + a2.message), d)
          else added
        case None => added
  }

  /** The stock of the first catalog entry for `pid`. */
  function StockOf(catalog: seq<Product>, pid: string): int
    requires GetProductById(catalog, pid).Some?
  {
    GetProductById(catalog, pid).value.stock
  }

  /**
   * Adding succeeds exactly when the product exists and its stock covers both
   * the amount asked for and the cart's quantity after adding it; a failed add
   * changes nothing, and a successful one stores the user's cart with the
   * line added.
   */
  lemma AddToCartOutcome(d: Data, pid: string, quantity: int, u: string)
    requires Valid(d)
    ensures var (s, d') := AddToCart(d, pid, quantity, u);
      var cart := LoadCart(d.cartSlot, u);
      && (s.success <==>
            GetProductById(d.catalog, pid).Some? &&
            StockOf(d.catalog, pid) >= quantity && StockOf(d.catalog, pid) >= QuantityOf(cart.items, pid) + quantity)
      && (!s.success ==> d' == d)
      && (s.success ==>
            d' == d.(cartSlot := Some(Cart(u, AddLine(cart.items, pid, quantity, GetProductById(d.catalog, pid).value.price)))))
  {
    var cart := LoadCart(d.cartSlot, u);
    match FindLine(cart.items, pid)
    case Some(i) => QuantityOfUnique(cart.items, i);
    case None => QuantityOfAbsent(cart.items, pid);
  }

  /** Adding raises the product's quantity by exactly the amount and leaves every other product's quantity alone. */
  lemma AddLineQuantities(items: seq<CartItem>, pid: string, quantity: int, price: real, x: string)
    ensures QuantityOf(AddLine(items, pid, quantity, price), x) == QuantityOf(items, x) + (if x == pid then quantity else 0)
  {
    match FindLine(items, pid)
    case Some(i) => QuantityOfSet(items, i, items[i].quantity + quantity, x);
    case None => QuantityOfConcat(items, [CartItem(pid, quantity, price)], x);
  }

  /** The price of the line an add for `pid` grows: the existing line's captured price, or `price` for a new line. */
  function AddedLinePrice(items: seq<CartItem>, pid: string, price: real): real
  {
    match FindLine(items, pid)
    case Some(i) => items[i].price
    case None => price
  }

  /**
   * Adding raises the cart total by the subtotal of `quantity` units at the
   * price of the product's line: the price captured when the line was first
   * added, or the current catalog price for a new line.
   */
  lemma AddLineTotal(items: seq<CartItem>, pid: string, quantity: int, price: real)
    ensures LinesTotal(AddLine(items, pid, quantity, price)) ==
            LinesTotal(items) + Subtotal(CartItem(pid, quantity, AddedLinePrice(items, pid, price)))
  {
    match FindLine(items, pid)
    case Some(i) =>
      LinesTotalGrow(items, i, quantity);
      assert items[i].(quantity := quantity) == CartItem(pid, quantity, AddedLinePrice(items, pid, price));
    case None =>
      LinesTotalAppend(items, CartItem(pid, quantity, price));
  }

  /** Adding keeps one line per product and grows the cart by one line exactly when the product had none. */
  lemma AddLineUnique(items: seq<CartItem>, pid: string, quantity: int, price: real)
    requires UniqueLines(items)
    ensures UniqueLines(AddLine(items, pid, quantity, price))
    ensures |AddLine(items, pid, quantity, price)| == |items| + (if FindLine(items, pid).None? then 1 else 0)
  {
  }

  /** Adding keeps one line per product. */
  lemma AddToCartKeepsValid(d: Data, pid: string, quantity: int, u: string)
    requires Valid(d)
    ensures Valid(AddToCart(d, pid, quantity, u).1)
  {
    var cart := LoadCart(d.cartSlot, u);
    if GetProductById(d.catalog, pid).Some? {
      AddLineUnique(cart.items, pid, quantity, GetProductById(d.catalog, pid).value.price);
    }
  }

  /** Zero and negative amounts are added like any other when the stock covers them. */
  lemma AddAcceptsNonPositive(d: Data, pid: string, quantity: int, u: string)
    requires quantity <= 0
    requires GetProductById(d.catalog, pid).Some? && StockOf(d.catalog, pid) >= 0
    requires forall i :: 0 <= i < |LoadCart(d.cartSlot, u).items| ==> LoadCart(d.cartSlot, u).items[i].productId != pid
    ensures AddToCart(d, pid, quantity, u).0.success
    ensures AddToCart(d, pid, quantity, u).1.cartSlot.value.items ==
            LoadCart(d.cartSlot, u).items + [CartItem(pid, quantity, GetProductById(d.catalog, pid).value.price)]
  {
  }

  // ---------------------------------------------------------------------
  // remove_from_cart

  /** `remove_from_cart`: drops the first line for `pid`; the message names the product if the catalog still has it. */
  function RemoveFromCart(d: Data, pid: string, u: string): (Status, Data)
  {
    var cart := LoadCart(d.cartSlot, u);
    match FindLine(cart.items, pid)
    case None => (Status(false, "Product not found in cart"), d)
    case Some(i) =>
      (Status(true, "Removed " + DisplayName(d.catalog, pid) + " from cart"),
       d.(cartSlot := Some(cart.(items := cart.items[..i] + cart.items[i + 1..]))))
  }

  /**
   * Removing succeeds exactly when the user's cart has a line for the
   * product; afterwards (one line per product) the product is gone, every
   * other quantity is unchanged and the total drops by that line's subtotal.
   */
  lemma RemoveFromCartOutcome(d: Data, pid: string, u: string, x: string)
    requires Valid(d)
    ensures var (s, d') := RemoveFromCart(d, pid, u);
      var cart := LoadCart(d.cartSlot, u);
      && (s.success <==> QuantityOfLine(cart.items, pid))
      && (!s.success ==> d' == d)
      && (s.success ==>
            && d'.catalog == d.catalog && d'.orders == d.orders
            && d'.cartSlot.Some? && d'.cartSlot.value.userId == u
            && |d'.cartSlot.value.items| == |cart.items| - 1
            && (forall i :: 0 <= i < |d'.cartSlot.value.items| ==> d'.cartSlot.value.items[i].productId != pid)
            && QuantityOf(d'.cartSlot.value.items, x) == (if x == pid then 0 else QuantityOf(cart.items, x))
            && GetTotal(d'.cartSlot.value) == GetTotal(cart) - Subtotal(cart.items[FindLine(cart.items, pid).value])
            && RemovedLine(cart.items, d'.cartSlot.value.items, FindLine(cart.items, pid).value))
      && Valid(d')
  {
    var cart := LoadCart(d.cartSlot, u);
    match FindLine(cart.items, pid)
    case None =>
    case Some(i) =>
      DropLine(cart.items, i);
      QuantityOfRemove(cart.items, i, x);
      QuantityOfUnique(cart.items, i);
      LinesTotalRemove(cart.items, i);
      RemoveLineKeepsUnique(cart.items, i);
  }

  /** Dropping line `i` of a cart with one line per product keeps that shape and leaves no line for its product. */
  lemma RemoveLineKeepsUnique(items: seq<CartItem>, i: nat)
    requires UniqueLines(items) && i < |items|
    ensures var rest := items[..i] + items[i + 1..];
      && UniqueLines(rest)
      && forall k :: 0 <= k < |rest| ==> rest[k].productId != items[i].productId
  {
    DropLine(items, i);
  }

  /** Dropping line `i` shifts the later lines down by one and keeps the others in place. */
  lemma DropLine(items: seq<CartItem>, i: nat)
    requires i < |items|
    ensures var rest := items[..i] + items[i + 1..];
      && |rest| == |items| - 1
      && forall k :: 0 <= k < |rest| ==> rest[k] == items[if k < i then k else k + 1]
  {
    var rest := items[..i] + items[i + 1..];
    forall k | 0 <= k < |rest| ensures rest[k] == items[if k < i then k else k + 1] {
      if k < i {
        assert rest[k] == items[..i][k];
      } else {
        assert rest[k] == items[i + 1..][k - i];
      }
    }
  }

  /** `after` is `before` with line `i` popped: the lines before it in place, the ones after it one step earlier. */
  predicate RemovedLine(before: seq<CartItem>, after: seq<CartItem>, i: nat)
  {
    && |after| == |before| - 1
    && forall k :: 0 <= k < |after| ==> after[k] == before[if k < i then k else k + 1]
  }

  /** `after` is `before` with only line `i`'s quantity set to `quantity`. */
  predicate QuantitySetAt(before: seq<CartItem>, after: seq<CartItem>, i: nat, quantity: int)
  {
    && |after| == |before|
    && forall k :: 0 <= k < |after| ==> after[k] == (if k == i then before[k].(quantity := quantity) else before[k])
  }

  /** The cart has a line for `pid`. */
  predicate QuantityOfLine(items: seq<CartItem>, pid: string)
  {
    exists i :: 0 <= i < |items| && items[i].productId == pid
  }

  // ---------------------------------------------------------------------
  // update_cart_quantity

  /**
   * `update_cart_quantity`: a quantity of zero or less removes the line;
   * otherwise the stock is checked first and only then is the line looked
   * up, whose quantity is set (its price is kept).
   */
  function UpdateCartQuantity(d: Data, pid: string, quantity: int, u: string): (Status, Data)
  {
    if quantity <= 0 then RemoveFromCart(d, pid, u)
    else
      var a := CheckAvailability(d.catalog, pid, quantity);
      if !a.available then (Status(false, a.message), d)
      else
        var cart := LoadCart(d.cartSlot, u);
        match FindLine(cart.items, pid)
        case None => (Status(false, "Product not found in cart"), d)
        case Some(i) =>
          (Status(true, "Updated " + DisplayName(d.catalog, pid) + " quantity to " + IntToString(quantity)),
           d.(cartSlot := Some(cart.(items := cart.items[i := cart.items[i].(quantity := quantity)]))))
  }

  /** Updating to zero or less is removing. */
  lemma UpdateNonPositiveRemoves(d: Data, pid: string, quantity: int, u: string)
    requires quantity <= 0
    ensures UpdateCartQuantity(d, pid, quantity, u) == RemoveFromCart(d, pid, u)
  {
  }

  /**
   * A positive update succeeds exactly when the stock covers the new quantity
   * and the cart has a line for the product; the product's quantity then
   * equals the new one and nothing else changes.
   */
  lemma UpdateCartQuantityOutcome(d: Data, pid: string, quantity: int, u: string, x: string)
    requires Valid(d) && quantity > 0
    ensures var (s, d') := UpdateCartQuantity(d, pid, quantity, u);
      var cart := LoadCart(d.cartSlot, u);
      && (s.success <==>
            GetProductById(d.catalog, pid).Some? && StockOf(d.catalog, pid) >= quantity && QuantityOfLine(cart.items, pid))
      && (!s.success ==> d' == d)
      && (s.success ==>
            && d'.catalog == d.catalog && d'.orders == d.orders
            && d'.cartSlot.Some? && d'.cartSlot.value.userId == u
            && QuantityOf(d'.cartSlot.value.items, x) == (if x == pid then quantity else QuantityOf(cart.items, x))
            && QuantitySetAt(cart.items, d'.cartSlot.value.items, FindLine(cart.items, pid).value, quantity))
      && Valid(d')
  {
    var cart := LoadCart(d.cartSlot, u);
    if CheckAvailability(d.catalog, pid, quantity).available {
      match FindLine(cart.items, pid)
      case None =>
      case Some(i) =>
        QuantityOfSet(cart.items, i, quantity, x);
        QuantityOfUnique(cart.items, i);
    }
  }

  /** The stock is checked before the cart: a product missing from the cart but short of stock is reported as short of stock. */
  lemma UpdateChecksStockFirst(d: Data, pid: string, quantity: int, u: string)
    requires quantity > 0
    requires GetProductById(d.catalog, pid).Some? && StockOf(d.catalog, pid) < quantity
    ensures UpdateCartQuantity(d, pid, quantity, u).0 == Status(false, "Not enough stock")
  {
  }

  // ---------------------------------------------------------------------
  // view_cart

  /** One row of the cart view. */
  datatype ViewLine = ViewLine(productId: string, name: string, price: real, quantity: int, itemTotal: real)

  datatype CartView = CartView(items: seq<ViewLine>, total: real, itemCount: int)

  /** The rows for the lines whose product is still in the catalog, in cart order. */
  function ViewLines(catalog: seq<Product>, items: seq<CartItem>): (r: seq<ViewLine>)
    ensures |r| <= |items|
  {
    if items == [] then []
    else
      var last := items[|items| - 1];
      var rest := ViewLines(catalog, items[..|items| - 1]);
      match GetProductById(catalog, last.productId)
      case None => rest
      case Some(p) => rest + [ViewLine(last.productId, p.name, last.price, last.quantity, Subtotal(last))]
  }

  /** The running `total += item_total`. */
  function ViewSum(lines: seq<ViewLine>): real
  {
    if lines == [] then 0.0 else ViewSum(lines[..|lines| - 1]) + lines[|lines| - 1].itemTotal
  }

  /**
   * Viewing one more line appends its row, if its product is listed, and
   * adds the row's subtotal to the running sum.
   */
  lemma ViewLinesStep(catalog: seq<Product>, items: seq<CartItem>, k: nat)
    requires k < |items|
    ensures var lines := ViewLines(catalog, items[..k]);
      var item := items[k];
      && (GetProductById(catalog, item.productId).None? ==> ViewLines(catalog, items[..k + 1]) == lines)
      && (GetProductById(catalog, item.productId).Some? ==>
            && ViewLines(catalog, items[..k + 1]) == lines + [ListedRow(catalog, item)]
            && ViewSum(lines + [ListedRow(catalog, item)]) == ViewSum(lines) + Subtotal(item))
  {
    assert items[..k + 1][..k] == items[..k];
    var lines := ViewLines(catalog, items[..k]);
    var item := items[k];
    if GetProductById(catalog, item.productId).Some? {
      assert (lines + [ListedRow(catalog, item)])[..|lines|] == lines;
    }
  }

  /** `view_cart` */
  function ViewCart(d: Data, u: string): CartView
  {
    var lines := ViewLines(d.catalog, LoadCart(d.cartSlot, u).items);
    CartView(lines, ViewSum(lines), |lines|)
  }

  /** The row the view shows for a line whose product is listed. */
  function ListedRow(catalog: seq<Product>, item: CartItem): ViewLine
    requires GetProductById(catalog, item.productId).Some?
  {
    ViewLine(item.productId, GetProductById(catalog, item.productId).value.name, item.price, item.quantity, Subtotal(item))
  }

  /** The view of the first `k` lines, when their products are all listed. */
  lemma {:induction false} ViewLinesPrefix(catalog: seq<Product>, items: seq<CartItem>, k: nat)
    requires k <= |items|
    requires forall i :: 0 <= i < |items| ==> GetProductById(catalog, items[i].productId).Some?
    ensures var lines := ViewLines(catalog, items[..k]);
      && |lines| == k
      && ViewSum(lines) == LinesTotal(items[..k])
      && forall i :: 0 <= i < k ==> lines[i] == ListedRow(catalog, items[i])
  {
    if k > 0 {
      var n := k - 1;
      ViewLinesPrefix(catalog, items, n);
      ViewLinesStep(catalog, items, n);
      LinesTotalPrefix(items, n);
      var lines := ViewLines(catalog, items[..n]);
      var row := ListedRow(catalog, items[n]);
      assert ViewLines(catalog, items[..k]) == lines + [row];
      forall i | 0 <= i < k
        ensures (lines + [row])[i] == ListedRow(catalog, items[i])
      {
        if i < n {
          assert (lines + [row])[i] == lines[i];
        }
      }
    }
  }

  /** When every line's product is in the catalog, the view shows every line, in order, and its total is the cart's total. */
  lemma ViewLinesComplete(catalog: seq<Product>, items: seq<CartItem>)
    requires forall i :: 0 <= i < |items| ==> GetProductById(catalog, items[i].productId).Some?
    ensures var lines := ViewLines(catalog, items);
      && |lines| == |items|
      && ViewSum(lines) == LinesTotal(items)
      && forall i :: 0 <= i < |items| ==> lines[i] == ListedRow(catalog, items[i])
  {
    ViewLinesPrefix(catalog, items, |items|);
    assert items[..|items|] == items;
  }

  /** The view of a cart whose products are all listed reports the cart's own total and line count. */
  lemma ViewCartMatchesCart(d: Data, u: string)
    requires var items := LoadCart(d.cartSlot, u).items;
      forall i :: 0 <= i < |items| ==> GetProductById(d.catalog, items[i].productId).Some?
    ensures ViewCart(d, u).total == GetTotal(LoadCart(d.cartSlot, u))
    ensures ViewCart(d, u).itemCount == |LoadCart(d.cartSlot, u).items|
  {
    ViewLinesComplete(d.catalog, LoadCart(d.cartSlot, u).items);
  }

  // ---------------------------------------------------------------------
  // clear_cart

  /** `clear_cart`: stores an empty cart for `u`, whoever's cart was stored before. */
  function ClearCart(d: Data, u: string): (r: (Status, Data))
    ensures r.0.success && r.1.catalog == d.catalog && r.1.orders == d.orders
    ensures r.1.cartSlot.Some? && r.1.cartSlot.value.userId == u && r.1.cartSlot.value.items == []
    ensures Valid(r.1)
  {
    (Status(true, "Cart cleared"), d.(cartSlot := Some(Cart(u, []))))
  }

  // ---------------------------------------------------------------------
  // checkout

  /** The stock check `checkout` repeats for each line. */
  predicate LineAvailable(catalog: seq<Product>, item: CartItem)
  {
    CheckAvailability(catalog, item.productId, item.quantity).available
  }

  /** The first line whose product no longer covers its quantity. */
  function FirstUnavailable(catalog: seq<Product>, items: seq<CartItem>): (r: Option<nat>)
    ensures r.None? <==> forall i :: 0 <= i < |items| ==> LineAvailable(catalog, items[i])
    ensures r.Some? ==> r.value < |items| && !LineAvailable(catalog, items[r.value]) &&
                        forall j :: 0 <= j < r.value ==> LineAvailable(catalog, items[j])
  {
    if items == [] then None
    else if !LineAvailable(catalog, items[0]) then Some(0)
    else
      var rest := items[1..];
      assert forall i :: 1 <= i < |items| ==> items[i] == rest[i - 1];
      match FirstUnavailable(catalog, rest)
      case None => None
      case Some(i) => Some(i + 1)
  }

  /** Every line before `k` passes the stock check. */
  predicate AvailableBefore(catalog: seq<Product>, items: seq<CartItem>, k: int)
  {
    forall j :: 0 <= j < k && j < |items| ==> LineAvailable(catalog, items[j])
  }

  lemma AvailableBeforeNext(catalog: seq<Product>, items: seq<CartItem>, k: nat)
    requires k < |items| && AvailableBefore(catalog, items, k) && LineAvailable(catalog, items[k])
    ensures AvailableBefore(catalog, items, k + 1)
  {
  }

  /** The first line the stock check rejects is the one `FirstUnavailable` names. */
  lemma FirstUnavailableAt(catalog: seq<Product>, items: seq<CartItem>, k: nat)
    requires k < |items| && !LineAvailable(catalog, items[k])
    requires forall j :: 0 <= j < k ==> LineAvailable(catalog, items[j])
    ensures FirstUnavailable(catalog, items) == Some(k)
  {
  }

  /** The checkout response: the new order's id and total, or why there is none. */
  datatype CheckoutResult = Placed(orderId: string, total: real) | NotPlaced(message: string)

  /** The order id: "ORD" and the upper-cased first six characters of a fresh UUID. */
  function OrderId(uuid: string): string
  {
    "ORD" + Upper(Prefix(uuid, 6))
  }

  /**
   * `checkout`: an empty cart, or a line whose stock no longer covers it,
   * places nothing; otherwise a pending order with the cart's lines and total
   * is appended and the cart is emptied. Stock is not decremented. The UUID
   * and the creation time are passed in.
   */
  function Checkout(d: Data, u: string, uuid: string, now: string): (CheckoutResult, Data)
  {
    var cart := LoadCart(d.cartSlot, u);
    if cart.items == [] then (NotPlaced("Cart is empty"), d)
    else match FirstUnavailable(d.catalog, cart.items)
      case Some(i) =>
        (NotPlaced("Product " + cart.items[i].productId + " is no longer available in requested quantity"), d)
      case None =>
        var total := LinesTotal(cart.items);
        var order := Order(OrderId(uuid), u, cart.items, total, "pending", now);
        (Placed(order.id, total), Data(d.catalog, Some(Cart(u, [])), d.orders + [order]))
  }

  /** A checkout that reaches a line the stock check rejects, all earlier lines having passed, refuses and changes nothing. */
  lemma CheckoutRefusedAt(d: Data, u: string, uuid: string, now: string, k: nat)
    requires var items := LoadCart(d.cartSlot, u).items;
      k < |items| && AvailableBefore(d.catalog, items, k) && !LineAvailable(d.catalog, items[k])
    ensures Checkout(d, u, uuid, now) ==
      (NotPlaced("Product " + LoadCart(d.cartSlot, u).items[k].productId + " is no longer available in requested quantity"), d)
  {
    FirstUnavailableAt(d.catalog, LoadCart(d.cartSlot, u).items, k);
  }

  /** A checkout whose every line passes the stock check places the order of those lines. */
  lemma CheckoutPlacedWhenAvailable(d: Data, u: string, uuid: string, now: string)
    requires var items := LoadCart(d.cartSlot, u).items;
      items != [] && AvailableBefore(d.catalog, items, |items|)
    ensures var items := LoadCart(d.cartSlot, u).items;
      Checkout(d, u, uuid, now) ==
      (Placed(OrderId(uuid), LinesTotal(items)),
       Data(d.catalog, Some(Cart(u, [])), d.orders + [Order(OrderId(uuid), u, items, LinesTotal(items), "pending", now)]))
  {
  }

  /** The order a successful checkout of `cart` records. */
  function PlacedOrder(cart: Cart, u: string, uuid: string, now: string): Order
  {
    Order(OrderId(uuid), u, cart.items, GetTotal(cart), "pending", now)
  }

  /**
   * Checkout places an order exactly when the cart has lines and every line
   * is still covered by stock. A failed checkout changes nothing; a
   * successful one appends the pending order, empties the cart and leaves
   * the catalog, stock included, as it was.
   */
  lemma CheckoutOutcome(d: Data, u: string, uuid: string, now: string)
    ensures var (r, d') := Checkout(d, u, uuid, now);
      var cart := LoadCart(d.cartSlot, u);
      && (r.Placed? <==> cart.items != [] && forall i :: 0 <= i < |cart.items| ==> LineAvailable(d.catalog, cart.items[i]))
      && (r.NotPlaced? ==> d' == d)
      && (r.Placed? ==>
            && r == Placed(OrderId(uuid), GetTotal(cart))
            && d'.catalog == d.catalog
            && d'.cartSlot == Some(Cart(u, []))
            && d'.orders == d.orders + [PlacedOrder(cart, u, uuid, now)])
  {
  }

  /**
   * After a successful checkout the user's order list gains exactly the new
   * order, other users' lists are unchanged, and if no stored order had that
   * id, tracking it reports the pending order with its items and total.
   */
  lemma CheckoutRecordsOrder(d: Data, u: string, uuid: string, now: string, v: string)
    requires Checkout(d, u, uuid, now).0.Placed?
    ensures var d' := Checkout(d, u, uuid, now).1;
      var o := PlacedOrder(LoadCart(d.cartSlot, u), u, uuid, now);
      && UserOrders(d'.orders, v) == UserOrders(d.orders, v) + (if v == u then [o] else [])
      && ((forall x :: x in d.orders ==> x.id != o.id) ==>
            TrackOrder(d'.orders, o.id) == Some(Tracking(o.id, "pending", now, o.total, o.items, EstimatedDelivery("pending"))))
  {
    var o := PlacedOrder(LoadCart(d.cartSlot, u), u, uuid, now);
    UserOrdersAppend(d.orders, o, v);
    if forall x :: x in d.orders ==> x.id != o.id {
      TrackAppendedOrder(d.orders, o);
    }
  }

  /** Checkout keeps one line per product (it leaves an empty cart or nothing changed). */
  lemma CheckoutKeepsValid(d: Data, u: string, uuid: string, now: string)
    requires Valid(d)
    ensures Valid(Checkout(d, u, uuid, now).1)
  {
  }
}
