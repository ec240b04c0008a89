/**
 * The cart service of functions/cart_functions.py as an object that updates
 * its state in place. The three files it reads and rewrites (the catalog,
 * the stored cart and the orders) are its fields; each method follows the
 * source's loops and is proved to perform the transition CartRules defines.
 */
module CartStore {
  import opened Wrappers
  import opened Strings
  import opened Records
  import opened Catalog
  import opened CartRules

  /** The `for item in cart.items` search for the first line of `pid`. */
  method FindLineIndex(items: seq<CartItem>, pid: string) returns (r: Option<nat>)
    ensures r == FindLine(items, pid)
  {
    var i := 0;
    while i < |items|
      invariant 0 <= i <= |items|
      invariant forall j :: 0 <= j < i ==> items[j].productId != pid
    {
      if items[i].productId == pid {
        return Some(i);
      }
      i := i + 1;
    }
    return None;
  }

  /** `view_cart`'s loop: a row for each line whose product still exists, and their running total. */
  method ViewRows(products: seq<Product>, items: seq<CartItem>) returns (lines: seq<ViewLine>, total: real)
    ensures lines == ViewLines(products, items) && total == ViewSum(lines)
  {
    lines := [];
    total := 0.0;
    for k := 0 to |items|
      invariant lines == ViewLines(products, items[..k])
      invariant total == ViewSum(lines)
    {
      ViewLinesStep(products, items, k);
      var product := FindProduct(products, items[k].productId);
      if product.Some? {
        lines := lines + [ListedRow(products, items[k])];
        total := total + Subtotal(items[k]);
      }
    }
    assert items[..|items|] == items;
  }

  class Store {
    /** products.json */
    var catalog: seq<Product>
    /** cart.json; `None` until a cart is first saved */
    var cartSlot: Option<Cart>
    /** orders.json */
    var orders: seq<Order>

    /** The stored state as a value. */
    function State(): Data
      reads this
    {
      Data(catalog, cartSlot, orders)
    }

    constructor (catalog: seq<Product>, cartSlot: Option<Cart>, orders: seq<Order>)
      ensures State() == Data(catalog, cartSlot, orders)
    {
      this.catalog := catalog;
      this.cartSlot := cartSlot;
      this.orders := orders;
    }

    /** `_load_cart` */
    method LoadCart(u: string) returns (c: Cart)
      ensures c == CartRules.LoadCart(cartSlot, u)
    {
      if cartSlot.Some? && cartSlot.value.userId == u {
        c := cartSlot.value;
      } else {
        c := Cart(u, []);
      }
    }

    /** `add_to_cart` */
    method AddToCart(pid: string, quantity: int, u: string) returns (s: Status)
      modifies this
      ensures (s, State()) == CartRules.AddToCart(old(State()), pid, quantity, u)
    {
      ghost var d := State();
      var product := GetProductById(catalog, pid);
      if product.None? {
        return Status(false, "Product not found");
      }
      var a := CheckAvailability(catalog, pid, quantity);
      if !a.available {
        return Status(false, a.message);
      }
      var cart := LoadCart(u);
      ghost var grown := AddLine(cart.items, pid, quantity, product.value.price);
      var existing := FindLineIndex(cart.items, pid);
      if existing.Some? {
        var i := existing.value;
        var nq := cart.items[i].quantity + quantity;
        var a2 := CheckAvailability(catalog, pid, nq);
        if !a2.available {
          s := Status(false, "Cannot add " + IntToString(quantity) + " more. " + a2.message);
          assert (s, d) == CartRules.AddToCart(d, pid, quantity, u);
          return;
        }
        cart := cart.(items := cart.items[i := cart.items[i].(quantity := nq)]);
      } else {
        cart := cart.(items := cart.items + [CartItem(pid, quantity, product.value.price)]);
      }
      assert cart == Cart(u, grown);
      cartSlot := Some(cart);
      s := Status(true, "Added " + IntToString(quantity) + " x " + product.value.name + " to cart");
      assert (s, State()) == CartRules.AddToCart(d, pid, quantity, u);
    }

    /** `remove_from_cart`: pops the first line for `pid`. */
    method RemoveFromCart(pid: string, u: string) returns (s: Status)
      modifies this
      ensures (s, State()) == CartRules.RemoveFromCart(old(State()), pid, u)
    {
      ghost var d := State();
      var cart := LoadCart(u);
      var found := FindLineIndex(cart.items, pid);
      if found.None? {
        return Status(false, "Product not found in cart");
      }
      var i := found.value;
      cartSlot := Some(cart.(items := cart.items[..i] + cart.items[i + 1..]));
      var product := GetProductById(catalog, pid);
      var name := if product.Some? then product.value.name else pid;
      s := Status(true, "Removed " + name + " from cart");
      assert (s, State()) == CartRules.RemoveFromCart(d, pid, u);
    }

    /** `update_cart_quantity` */
    method UpdateCartQuantity(pid: string, quantity: int, u: string) returns (s: Status)
      modifies this
      ensures (s, State()) == CartRules.UpdateCartQuantity(old(State()), pid, quantity, u)
    {
      if quantity <= 0 {
        s := RemoveFromCart(pid, u);
        return;
      }
      var a := CheckAvailability(catalog, pid, quantity);
      if !a.available {
        return Status(false, a.message);
      }
      var cart := LoadCart(u);
      var found := FindLineIndex(cart.items, pid);
      if found.None? {
        return Status(false, "Product not found in cart");
      }
      var i := found.value;
      cartSlot := Some(cart.(items := cart.items[i := cart.items[i].(quantity := quantity)]));
      var product := GetProductById(catalog, pid);
      var name := if product.Some? then product.value.name else pid;
      s := Status(true, "Updated " + name + " quantity to " + IntToString(quantity));
    }

    /** `view_cart`: the rows of the lines whose product still exists, and their running total. */
    method ViewCart(u: string) returns (v: CartView)
      ensures v == CartRules.ViewCart(State(), u)
    {
      var cart := LoadCart(u);
      var lines, total := ViewRows(catalog, cart.items);
      v := CartView(lines, total, |lines|);
    }

    /** `clear_cart` */
    method ClearCart(u: string) returns (s: Status)
      modifies this
      ensures (s, State()) == CartRules.ClearCart(old(State()), u)
    {
      cartSlot := Some(Cart(u, []));
      s := Status(true, "Cart cleared");
    }

    /** `checkout`: rechecks every line's stock while summing the total, then records an order of the cart's lines and clears the cart. */
    method Checkout(u: string, uuid: string, now: string) returns (r: CheckoutResult)
      modifies this
      ensures (r, State()) == CartRules.Checkout(old(State()), u, uuid, now)
    {
      ghost var d := State();
      var products := catalog;
      var cart := LoadCart(u);
      if cart.items == [] {
        return NotPlaced("Cart is empty");
      }
      var items := cart.items;
      var total := 0.0;
      var k := 0;
      while k < |items|
        invariant 0 <= k <= |items|
        invariant State() == d
        invariant AvailableBefore(products, items, k)
        invariant total == LinesTotal(items[..k])
      {
        var item := items[k];
        var a := CheckAvailability(products, item.productId, item.quantity);
        if !a.available {
          CheckoutRefusedAt(d, u, uuid, now, k);
          return NotPlaced("Product " + item.productId + " is no longer available in requested quantity");
        }
        AvailableBeforeNext(products, items, k);
        LinesTotalPrefix(items, k);
        total := total + Subtotal(item);
        k := k + 1;
      }
      assert items[..k] == items;
      CheckoutPlacedWhenAvailable(d, u, uuid, now);
      var orderId := "ORD" + Upper(Prefix(uuid, 6));
      orders := orders + [Order(orderId, u, items, total, "pending", now)];
      cartSlot := Some(Cart(u, []));
      r := Placed(orderId, total);
    }
  }
}
