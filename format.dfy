/**
 * `_format_function_result` (utils/gemini_client.py): the reply text the
 * chatbot shows for an operation's result. Six operations have their own
 * layout; every other result is shown as `str(result)`. Numbers inside the
 * text are kept as `Show`/`Fixed2` pieces (see Values.Piece).
 */
module Formatting {
  import opened Wrappers
  import opened Strings
  import opened Values
  import opened Records
  import opened Catalog
  import opened Orders
  import opened Support
  import opened CartRules
  import opened Dispatch

  /** The text opens with a non-empty piece. */
  predicate StartsWithText(t: Text)
  {
    |t| > 0 && t[0] != Lit("")
  }

  // ---------------------------------------------------------------------
  // search_products

  const NoProductsText := "I couldn't find any products matching your search. Please try different search terms or browse our categories: Football, Baseball, Tennis, Apparel, Footwear, Safety equipment."

  const AddHintText := "To add any item to your cart, just tell me:\n• 'Add [PRODUCT_ID] to cart' (e.g., 'Add BALL001 to cart')\n• Or I'll ask you after showing the results!"

  /** The number of results the reply lists. */
  const ShownResults := 3

  function SearchHeader(n: int): string
  {
    "I found " + IntToString(n) + " products matching your search:\n\n"
  }

  function MoreNote(extra: int): string
  {
    "... and " + IntToString(extra) + " more products.\n\n"
  }

  /** The three lines shown for one product. */
  function ProductBlock(p: Product): (t: Text)
    ensures |t| == 5 && t[0] == Lit("🏷️ **" + p.name + "** (ID: " + p.id + ")\n")
  {
    [Lit("🏷️ **" + p.name + "** (ID: " + p.id + ")\n"),
     Lit("   💰 $"), Show(VReal(p.price)), Lit(" | 📦 " + IntToString(p.stock) + " in stock\n"),
     Lit("   📝 " + p.description + "\n\n")]
  }

  /** The blocks of several products, in order: five pieces each. */
  function ProductBlocks(ps: seq<Product>): (t: Text)
    ensures |t| == 5 * |ps|
  {
    if ps == [] then [] else ProductBlock(ps[0]) + ProductBlocks(ps[1..])
  }

  /** Piece `j` of the `i`-th product's block is where the blocks put it. */
  lemma {:induction false} ProductBlocksAt(ps: seq<Product>, i: nat, j: nat)
    requires i < |ps| && j < 5
    ensures ProductBlocks(ps)[5 * i + j] == ProductBlock(ps[i])[j]
  {
    var head := ProductBlock(ps[0]);
    var rest := ProductBlocks(ps[1..]);
    assert ProductBlocks(ps) == head + rest;
    if i == 0 {
      assert (head + rest)[j] == head[j];
    } else {
      var k := 5 * (i - 1) + j;
      ProductBlocksAt(ps[1..], i - 1, j);
      assert ps[1..][i - 1] == ps[i];
      assert 5 * i + j == 5 + k;
      assert (head + rest)[5 + k] == rest[k];
    }
  }

  /** `result[:3]` */
  function FirstResults(ps: seq<Product>): (r: seq<Product>)
    ensures |r| == if |ps| < ShownResults then |ps| else ShownResults
    ensures r <= ps
  {
    if |ps| < ShownResults then ps else ps[..ShownResults]
  }

  /** What follows the listed products: the note on the ones left out, if any, then the hint. */
  function SearchTail(n: int): Text
  {
    (if n > ShownResults then [Lit(MoreNote(n - ShownResults))] else []) + [Lit(AddHintText)]
  }

  /** The search reply: the no-results text for an empty result, else the count, the first results and the hint. */
  function FormatSearch(ps: seq<Product>): (r: Text)
    ensures StartsWithText(r)
    ensures ps == [] ==> r == Plain(NoProductsText)
    ensures ps != [] ==> |r| > 1 && r[0] == Lit(SearchHeader(|ps|))
  {
    if ps == [] then Plain(NoProductsText)
    else [Lit(SearchHeader(|ps|))] + ProductBlocks(FirstResults(ps)) + SearchTail(|ps|)
  }

  /**
   * A search reply opens with the number of results and, when there were
   * more than three, notes how many are not listed; with three or fewer the
   * hint follows the list directly.
   */
  lemma SearchCountsResults(ps: seq<Product>)
    requires ps != []
    ensures var t := FormatSearch(ps);
      var k := |FirstResults(ps)|;
      && t[0] == Lit(SearchHeader(|ps|))
      && |t| == 2 + 5 * k + (if |ps| > ShownResults then 1 else 0)
      && t[1 + 5 * k] == (if |ps| > ShownResults then Lit(MoreNote(|ps| - ShownResults)) else Lit(AddHintText))
      && t[|t| - 1] == Lit(AddHintText)
  {
    var t := FormatSearch(ps);
    var header := [Lit(SearchHeader(|ps|))];
    var blocks := ProductBlocks(FirstResults(ps));
    var tail := SearchTail(|ps|);
    if |ps| > ShownResults {
      assert tail == [Lit(MoreNote(|ps| - ShownResults)), Lit(AddHintText)];
    } else {
      assert tail == [Lit(AddHintText)];
    }
    assert t == (header + blocks) + tail;
    assert t[0] == (header + blocks)[0];
    assert t[1 + |blocks|] == tail[0];
    assert t[|t| - 1] == tail[|tail| - 1];
  }

  /** A search reply lists the first three results (all of them if fewer), in result order, and no others. */
  lemma SearchShowsFirstThree(ps: seq<Product>)
    requires ps != []
    ensures var t := FormatSearch(ps);
      forall i, j :: 0 <= i < |FirstResults(ps)| && 0 <= j < 5 ==> t[1 + 5 * i + j] == ProductBlock(ps[i])[j]
  {
    var t := FormatSearch(ps);
    var shown := FirstResults(ps);
    var blocks := ProductBlocks(shown);
    assert t == [Lit(SearchHeader(|ps|))] + blocks + SearchTail(|ps|);
    forall i, j | 0 <= i < |shown| && 0 <= j < 5 ensures t[1 + 5 * i + j] == ProductBlock(ps[i])[j] {
      assert shown[i] == ps[i];
      ProductBlocksAt(shown, i, j);
      assert t[1 + 5 * i + j] == blocks[5 * i + j];
    }
  }

  // ---------------------------------------------------------------------
  // add_to_cart

  function FormatAdded(s: Status): (t: Text)
    ensures StartsWithText(t)
    ensures s.success ==> t == Plain("✅ " + s.message + "\n\nWould you like to view your cart or continue shopping?")
    ensures !s.success ==> t == Plain("❌ " + s.message + "\n\nPlease check the product ID and try again.")
  {
    if s.success then Plain("✅ " + s.message + "\n\nWould you like to view your cart or continue shopping?")
    else Plain("❌ " + s.message + "\n\nPlease check the product ID and try again.")
  }

  // ---------------------------------------------------------------------
  // view_cart

  const EmptyCartText := "🛒 Your cart is empty. Browse our products and add some items!"

  const NextStepsText := "💡 **Next steps:**\n• Tell me 'Checkout my cart' when ready\n• Continue shopping to add more items\n• Ask me to 'Remove [PRODUCT_ID] from cart' to remove items"

  function CartRow(l: ViewLine): Text
  {
    [Lit("• " + l.name + " (ID: " + l.productId + ")\n"),
     Lit("  Quantity: " + IntToString(l.quantity) + " × $"), Show(VReal(l.price)),
     Lit(" = $"), Fixed2(VReal(l.itemTotal)), Lit("\n\n")]
  }

  function CartRows(lines: seq<ViewLine>): (t: Text)
    ensures |t| == 6 * |lines|
  {
    if lines == [] then [] else CartRows(lines[..|lines| - 1]) + CartRow(lines[|lines| - 1])
  }

  function FormatCart(v: CartView): (r: Text)
    ensures StartsWithText(r)
  {
    if v.items == [] then Plain(EmptyCartText)
    else
      [Lit("🛒 **Your Cart** (" + IntToString(v.itemCount) + " items):\n\n")]
      + CartRows(v.items)
      + [Lit("**Total: $"), Fixed2(VReal(v.total)), Lit("**\n\n"), Lit(NextStepsText)]
  }

  /**
   * The cart reply for a non-empty cart whose products are all listed gives
   * the cart's own line count in its heading and the cart's own total,
   * to two decimals, as its total line.
   */
  lemma CartReplyShowsCartTotal(d: Data, u: string)
    requires var items := LoadCart(d.cartSlot, u).items;
      items != [] && forall i :: 0 <= i < |items| ==> GetProductById(d.catalog, items[i].productId).Some?
    ensures var t := FormatCart(ViewCart(d, u));
      var cart := LoadCart(d.cartSlot, u);
      && t[0] == Lit("🛒 **Your Cart** (" + IntToString(|cart.items|) + " items):\n\n")
      && t[|t| - 3] == Fixed2(VReal(GetTotal(cart)))
  {
    ViewCartMatchesCart(d, u);
    ViewLinesComplete(d.catalog, LoadCart(d.cartSlot, u).items);
  }

  // ---------------------------------------------------------------------
  // track_order

  const OrderNotFoundText := "❌ Order not found. Please check the order ID and try again."

  function TrackedItems(items: seq<CartItem>): (t: Text)
    ensures |t| == 3 * |items|
  {
    if items == [] then []
    else
      var item := items[|items| - 1];
      TrackedItems(items[..|items| - 1])
      + [Lit("• Product " + item.productId + ": " + IntToString(item.quantity) + " × $"), Show(VReal(item.price)), Lit("\n")]
  }

  function FormatTracking(t: Option<Tracking>): (r: Text)
    ensures StartsWithText(r)
  {
    match t
    case None => Plain(OrderNotFoundText)
    case Some(tr) =>
      [Lit("📦 **Order " + tr.orderId + "**\n"),
       Lit("Status: " + Upper(tr.status) + "\n"),
       Lit("Total: $"), Fixed2(VReal(tr.total)), Lit("\n"),
       Lit("Created: " + tr.createdAt + "\n"),
       Lit(tr.estimatedDelivery + "\n\n"),
       Lit("**Items:**\n")]
      + TrackedItems(tr.items)
  }

  /** Tracking an id no stored order has gets the not-found reply. */
  lemma TrackReplyUnknownOrder(orders: seq<Order>, id: string)
    requires forall o :: o in orders ==> o.id != id
    ensures FormatTracking(TrackOrder(orders, id)) == Plain(OrderNotFoundText)
  {
  }

  /** Tracking a stored order shows its id, its status in capitals and the delivery estimate for that status. */
  lemma TrackReplyShowsStatus(orders: seq<Order>, id: string, i: int)
    requires FirstOrderWithId(orders, id, i)
    ensures var t := FormatTracking(TrackOrder(orders, id));
      && t[0] == Lit("📦 **Order " + id + "**\n")
      && t[1] == Lit("Status: " + Upper(orders[i].status) + "\n")
      && t[6] == Lit(EstimatedDelivery(orders[i].status) + "\n\n")
  {
    assert orders[i] in orders;
    var r := TrackOrder(orders, id);
    assert r.Some?;
    var j :| FirstOrderWithId(orders, id, j) && r.value == TrackingOf(orders[j]);
    assert 0 <= j < |orders|;
    assert orders[i].id == id && orders[j].id == id;
    assert i == j;
  }

  // ---------------------------------------------------------------------
  // get_user_orders

  const NoOrdersText := "You don't have any orders yet. Start shopping to place your first order!"

  /** One row per order, in order: its id, its total to two decimals and its status in upper case. */
  function OrderRows(orders: seq<Order>): (t: Text)
    ensures |t| == 3 * |orders|
    ensures forall i :: 0 <= i < |orders| ==>
              && t[3 * i] == Lit("• **" + orders[i].id + "** - $")
              && t[3 * i + 1] == Fixed2(VReal(orders[i].total))
              && t[3 * i + 2] == Lit(" - " + Upper(orders[i].status) + "\n")
  {
    if orders == [] then []
    else
      var o := orders[|orders| - 1];
      assert forall i :: 0 <= i < |orders| - 1 ==> orders[..|orders| - 1][i] == orders[i];
      OrderRows(orders[..|orders| - 1]) + [Lit("• **" + o.id + "** - $"), Fixed2(VReal(o.total)), Lit(" - " + Upper(o.status) + "\n")]
  }

  function FormatOrders(orders: seq<Order>): (r: Text)
    ensures StartsWithText(r)
  {
    if orders == [] then Plain(NoOrdersText)
    else
      [Lit("📋 **Your Orders** (" + IntToString(|orders|) + " orders):\n\n")]
      + OrderRows(orders)
      + [Lit("\nTo track a specific order, just tell me the order ID (like ORD001).")]
  }

  /**
   * The orders reply counts the user's orders and lists each of them, in
   * stored order, with its total and its upper-cased status.
   */
  lemma OrdersReplyListsEachOrder(orders: seq<Order>)
    requires orders != []
    ensures var t := FormatOrders(orders);
      && |t| == 3 * |orders| + 2
      && t[0] == Lit("📋 **Your Orders** (" + IntToString(|orders|) + " orders):\n\n")
      && forall i :: 0 <= i < |orders| ==>
           t[3 * i + 2] == Fixed2(VReal(orders[i].total)) && t[3 * i + 3] == Lit(" - " + Upper(orders[i].status) + "\n")
  {
    var rows := OrderRows(orders);
    var head := Lit("📋 **Your Orders** (" + IntToString(|orders|) + " orders):\n\n");
    var t := [head] + rows + [Lit("\nTo track a specific order, just tell me the order ID (like ORD001).")];
    assert FormatOrders(orders) == t;
    forall i | 0 <= i < |orders|
      ensures t[3 * i + 2] == Fixed2(VReal(orders[i].total)) && t[3 * i + 3] == Lit(" - " + Upper(orders[i].status) + "\n")
    {
      assert t[3 * i + 2] == rows[3 * i + 1] && t[3 * i + 3] == rows[3 * i + 2];
    }
  }

  // ---------------------------------------------------------------------
  // get_help

  /** A topic key as a heading: underscores to spaces, then title case. */
  function TopicTitle(topic: string): string
  {
    Title(ReplaceChar(topic, '_', ' '))
  }

  function TopicLines(topics: seq<string>): (t: Text)
    ensures |t| == |topics|
    ensures forall i :: 0 <= i < |topics| ==> t[i] == Lit("• " + TopicTitle(topics[i]) + "\n")
  {
    if topics == [] then []
    else
      var rest := TopicLines(topics[..|topics| - 1]);
      assert forall i :: 0 <= i < |topics| - 1 ==> topics[..|topics| - 1][i] == topics[i];
      rest + [Lit("• " + TopicTitle(topics[|topics| - 1]) + "\n")]
  }

  /** A help result with a non-empty topic gets that topic's answer; any other lists the topics it carries, if any. */
  function FormatHelp(h: Help): (r: Text)
    ensures StartsWithText(r)
  {
    if h.TopicHelp? && h.topic != "" then
      Plain("**" + TopicTitle(h.topic) + " Information:**\n" + h.information + "\n\n" + h.additionalHelp)
    else
      var topics := if h.HelpIndex? then h.availableTopics else [];
      [Lit("🏪 **WRTeam Sport Center Help**\n\nAvailable topics:\n")] + TopicLines(topics)
  }

  /** A topic the FAQ knows, in any letter case, gets its answer under the topic's title-cased heading. */
  lemma HelpReplyForTopic(topic: string)
    requires Lower(topic) in Faq
    ensures FormatHelp(GetHelp(topic)) ==
      Plain("**" + TopicTitle(topic) + " Information:**\n" + Faq[Lower(topic)] + "\n\n" + "For more specific questions, contact our support team.")
  {
    assert |Lower(topic)| == |topic| && "" !in Faq;
  }

  /** Any other topic gets the index: one title-cased line per FAQ topic, in FAQ order. */
  lemma HelpReplyListsTopics(topic: string)
    requires Lower(topic) !in Faq
    ensures var t := FormatHelp(GetHelp(topic));
      |t| == 1 + |FaqTopics| && forall i :: 0 <= i < |FaqTopics| ==> t[1 + i] == Lit("• " + TopicTitle(FaqTopics[i]) + "\n")
  {
    var h := GetHelp(topic);
    assert h.HelpIndex? && h.availableTopics == FaqTopics;
    var lines := TopicLines(FaqTopics);
    var header := [Lit("🏪 **WRTeam Sport Center Help**\n\nAvailable topics:\n")];
    var t := FormatHelp(h);
    assert t == header + lines;
    forall i | 0 <= i < |FaqTopics| ensures t[1 + i] == Lit("• " + TopicTitle(FaqTopics[i]) + "\n") {
      assert t[1 + i] == lines[i];
    }
  }

  // ---------------------------------------------------------------------
  // Dispatch on the operation's name

  /**
   * The reply for `name`'s result. The layout is chosen by the name alone;
   * a result whose kind does not match the name is shown as `str(result)`,
   * as is every operation without a layout of its own.
   */
  function Format(name: string, o: Outcome): (t: Text)
    ensures !IsBlank(t)
  {
    var t := FormatRaw(name, o);
    StartsNotBlank(t);
    t
  }

  function FormatRaw(name: string, o: Outcome): (t: Text)
    ensures StartsWithText(t)
  {
    if name == "search_products" && o.ProductList? then FormatSearch(o.products)
    else if name == "add_to_cart" && o.StatusReport? then FormatAdded(o.status)
    else if name == "view_cart" && o.CartViewReport? then FormatCart(o.view)
    else if name == "track_order" && o.TrackingLookup? then FormatTracking(o.tracking)
    else if name == "get_user_orders" && o.OrderList? then FormatOrders(o.orders)
    else if name == "get_help" && o.HelpReport? then FormatHelp(o.help)
    else [Show(OutcomeToValue(o))]
  }

  /** The replies that depend on the operation only: each is the operation's result, shown as `str(result)`. */
  lemma UnformattedShownRaw(name: string, o: Outcome)
    requires name !in Declared
    ensures Format(name, o) == [Show(OutcomeToValue(o))]
  {
  }
}
