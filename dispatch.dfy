/**
 * The chatbot's function registry (utils/gemini_client.py): the sixteen
 * store operations by name, the six of them declared to the language model,
 * the binding of a call's keyword arguments to an operation's parameters,
 * and running the operation against the store's state. A UUID and the
 * current time, which two operations draw fresh, are passed in.
 */
module Dispatch {
  import opened Wrappers
  import opened Values
  import opened Records
  import opened Catalog
  import opened Orders
  import opened Support
  import opened CartRules

  // ---------------------------------------------------------------------
  // The registry

  /** The product and order queries of `function_map`, in its order. */
  const QueryOps: seq<string> := [
    "search_products", "get_product_by_id", "check_product_availability",
    "track_order", "get_user_orders", "get_order_history"]

  /** The cart operations of `function_map`, in its order. */
  const CartOps: seq<string> := [
    "add_to_cart", "remove_from_cart", "update_cart_quantity", "view_cart", "clear_cart", "checkout"]

  /** The support operations of `function_map`, in its order. */
  const SupportOps: seq<string> := ["get_help", "get_store_info", "report_issue", "get_size_guide"]

  /** The names in `function_map`, in its order. */
  const Registry: seq<string> := QueryOps + CartOps + SupportOps

  /** The operations declared to the model as tools, in declaration order. */
  const Declared: seq<string> := ["search_products", "add_to_cart", "view_cart", "track_order", "get_user_orders", "get_help"]

  /** Sixteen distinct names, the six declared ones among them. */
  lemma RegistryShape()
    ensures |Registry| == 16
    ensures forall i, j :: 0 <= i < j < |Registry| ==> Registry[i] != Registry[j]
    ensures forall n :: n in Declared ==> n in Registry
  {
  }

  /** `get_available_functions`: every registered name, in registry order. */
  function GetAvailableFunctions(): (r: seq<string>)
    ensures |r| == 16
    ensures forall n :: n in Declared ==> n in r
    ensures forall i :: 0 <= i < |r| ==> r[i] == Registry[i]
  {
    Registry
  }

  // ---------------------------------------------------------------------
  // Parameters

  const DefaultUser := VStr("user123")

  /** Each operation's keyword parameters, with their defaults. */
  function Params(name: string): (ps: seq<Param>)
    ensures DistinctNames(ps)
  {
    if name == "search_products" then
      [Optional("query", VStr("")), Optional("category", VStr("")), Optional("max_price", VNone), Optional("min_price", VNone)]
    else if name == "get_product_by_id" then [Required("product_id")]
    else if name == "check_product_availability" then [Required("product_id"), Optional("quantity", VInt(1))]
    else if name == "track_order" then [Required("order_id")]
    else if name == "get_user_orders" then [Optional("user_id", DefaultUser)]
    else if name == "get_order_history" then [Optional("user_id", DefaultUser), Optional("limit", VInt(10))]
    else if name == "add_to_cart" then [Required("product_id"), Optional("quantity", VInt(1)), Optional("user_id", DefaultUser)]
    else if name == "remove_from_cart" then [Required("product_id"), Optional("user_id", DefaultUser)]
    else if name == "update_cart_quantity" then [Required("product_id"), Required("quantity"), Optional("user_id", DefaultUser)]
    else if name == "view_cart" || name == "clear_cart" || name == "checkout" then [Optional("user_id", DefaultUser)]
    else if name == "get_help" then [Optional("topic", VStr(""))]
    else if name == "report_issue" then [Required("issue_type"), Required("description")]
    else if name == "get_size_guide" then [Optional("category", VStr(""))]
    else []
  }

  /** A bound argument (binding guarantees every parameter is present). */
  function Arg(m: map<string, Value>, key: string): Value
  {
    if key in m then m[key] else VNone
  }

  // ---------------------------------------------------------------------
  // Requests: an operation applied to its bound arguments

  datatype Request =
    | SearchReq(filter: Filter)
    | ProductReq(productId: string)
    | AvailabilityReq(productId: string, quantity: int)
    | TrackReq(orderId: string)
    | UserOrdersReq(userId: string)
    | HistoryReq(userId: string, limit: int)
    | AddReq(productId: string, quantity: int, userId: string)
    | RemoveReq(productId: string, userId: string)
    | UpdateReq(productId: string, quantity: int, userId: string)
    | ViewReq(userId: string)
    | ClearReq(userId: string)
    | CheckoutReq(userId: string)
    | HelpReq(topic: string)
    | StoreInfoReq
    | IssueReq(issueType: string, description: string)
    | SizeGuideReq(category: string)

  /** The registry name of the operation a request runs. */
  function OperationName(r: Request): string
  {
    match r
    case SearchReq(_) => "search_products"
    case ProductReq(_) => "get_product_by_id"
    case AvailabilityReq(_, _) => "check_product_availability"
    case TrackReq(_) => "track_order"
    case UserOrdersReq(_) => "get_user_orders"
    case HistoryReq(_, _) => "get_order_history"
    case AddReq(_, _, _) => "add_to_cart"
    case RemoveReq(_, _) => "remove_from_cart"
    case UpdateReq(_, _, _) => "update_cart_quantity"
    case ViewReq(_) => "view_cart"
    case ClearReq(_) => "clear_cart"
    case CheckoutReq(_) => "checkout"
    case HelpReq(_) => "get_help"
    case StoreInfoReq => "get_store_info"
    case IssueReq(_, _) => "report_issue"
    case SizeGuideReq(_) => "get_size_guide"
  }

  /**
   * A slice bound (`orders[:limit]`): an integer. A float, which the other
   * integer parameters compute with, makes the slice raise `TypeError`.
   */
  function AsIndex(v: Value): (r: Result<int, string>)
    ensures r.Success? <==> v.VInt?
    ensures r.Success? ==> r.value == v.i
  {
    if v.VInt? then Success(v.i) else Failure("slice indices must be integers or None or have an __index__ method")
  }

  /** Reads the bound arguments of a catalog or order query. */
  function BuildQuery(name: string, m: map<string, Value>): (r: Result<Request, string>)
    ensures r.Success? ==> OperationName(r.value) == name
  {
    if name == "search_products" then
      var query :- AsStr(Arg(m, "query"));
      var category :- AsStr(Arg(m, "category"));
      var maxPrice :- AsOptReal(Arg(m, "max_price"));
      var minPrice :- AsOptReal(Arg(m, "min_price"));
      Success(SearchReq(Filter(query, category, maxPrice, minPrice)))
    else if name == "get_product_by_id" then
      var id :- AsStr(Arg(m, "product_id"));
      Success(ProductReq(id))
    else if name == "check_product_availability" then
      var id :- AsStr(Arg(m, "product_id"));
      var quantity :- AsInt(Arg(m, "quantity"));
      Success(AvailabilityReq(id, quantity))
    else if name == "track_order" then
      var id :- AsStr(Arg(m, "order_id"));
      Success(TrackReq(id))
    else if name == "get_user_orders" then
      var u :- AsStr(Arg(m, "user_id"));
      Success(UserOrdersReq(u))
    else if name == "get_order_history" then
      var u :- AsStr(Arg(m, "user_id"));
      var limit :- AsIndex(Arg(m, "limit"));
      Success(HistoryReq(u, limit))
    else Failure(KeyErrorText(name))
  }

  /** Reads the bound arguments of a cart edit. */
  function BuildCartEdit(name: string, m: map<string, Value>): (r: Result<Request, string>)
    ensures r.Success? ==> OperationName(r.value) == name
  {
    var id :- AsStr(Arg(m, "product_id"));
    if name == "remove_from_cart" then
      var u :- AsStr(Arg(m, "user_id"));
      Success(RemoveReq(id, u))
    else
      var quantity :- AsInt(Arg(m, "quantity"));
      var u :- AsStr(Arg(m, "user_id"));
      if name == "add_to_cart" then Success(AddReq(id, quantity, u))
      else if name == "update_cart_quantity" then Success(UpdateReq(id, quantity, u))
      else Failure(KeyErrorText(name))
  }

  /** Reads the bound arguments of a cart operation. */
  function BuildCart(name: string, m: map<string, Value>): (r: Result<Request, string>)
    ensures r.Success? ==> OperationName(r.value) == name
  {
    if name == "view_cart" || name == "clear_cart" || name == "checkout" then
      var u :- AsStr(Arg(m, "user_id"));
      if name == "view_cart" then Success(ViewReq(u))
      else if name == "clear_cart" then Success(ClearReq(u))
      else Success(CheckoutReq(u))
    else BuildCartEdit(name, m)
  }

  /** Reads the bound arguments of a support operation. */
  function BuildSupport(name: string, m: map<string, Value>): (r: Result<Request, string>)
    ensures r.Success? ==> OperationName(r.value) == name
  {
    if name == "get_help" then
      var topic :- AsStr(Arg(m, "topic"));
      Success(HelpReq(topic))
    else if name == "get_store_info" then
      Success(StoreInfoReq)
    else if name == "report_issue" then
      var issueType :- AsStr(Arg(m, "issue_type"));
      var description :- AsStr(Arg(m, "description"));
      Success(IssueReq(issueType, description))
    else if name == "get_size_guide" then
      var category :- AsStr(Arg(m, "category"));
      Success(SizeGuideReq(category))
    else Failure(KeyErrorText(name))
  }

  /**
   * `self.function_map[func_name](**func_args)` up to the call itself: an
   * unregistered name is a `KeyError`, and binding the keyword arguments to
   * the operation's parameters can raise `TypeError`. An argument of the
   * wrong kind is rejected here too.
   */
  function Parse(name: string, args: Args): (r: Result<Request, string>)
    ensures name !in Registry ==> r == Failure(KeyErrorText(name))
    ensures Bind(name, Params(name), args).Failure? ==> r.Failure?
    ensures r.Success? ==> name in Registry && OperationName(r.value) == name
  {
    if name !in Registry then Failure(KeyErrorText(name))
    else
      var m :- Bind(name, Params(name), args);
      if name in QueryOps then BuildQuery(name, m)
      else if name in CartOps then BuildCart(name, m)
      else BuildSupport(name, m)
  }

  /** Binding only a product id to `add_to_cart` fills in the defaults. */
  lemma BindAddToCartDefaults(pid: string)
    ensures var b := Bind("add_to_cart", Params("add_to_cart"), map["product_id" := VStr(pid)]);
      b.Success? && Arg(b.value, "product_id") == VStr(pid) &&
      Arg(b.value, "quantity") == VInt(1) && Arg(b.value, "user_id") == DefaultUser
  {
    var ps := Params("add_to_cart");
    var args := map["product_id" := VStr(pid)];
    assert Names(ps)[0] == "product_id";
    assert RequiredPresent(ps, args) by {
      forall p | p in ps && p.default.None? ensures p.name in args {
        var i :| 0 <= i < |ps| && ps[i] == p;
      }
    }
    var m := Bind("add_to_cart", ps, args).value;
    assert ps[0] in ps && ps[1] in ps && ps[2] in ps;
  }

  /** Omitted arguments take the source's defaults: one unit, for user "user123". */
  lemma AddToCartDefaults(pid: string)
    ensures Parse("add_to_cart", map["product_id" := VStr(pid)]) == Success(AddReq(pid, 1, "user123"))
  {
    BindAddToCartDefaults(pid);
    var m := Bind("add_to_cart", Params("add_to_cart"), map["product_id" := VStr(pid)]).value;
    assert BuildCartEdit("add_to_cart", m) == Success(AddReq(pid, 1, "user123"));
    assert "add_to_cart" in Registry && "add_to_cart" !in QueryOps && CartOps[0] == "add_to_cart";
  }

  /** An argument the operation does not take is refused before anything runs. */
  lemma UnknownArgumentRefused(name: string, args: Args, k: string)
    requires name in Registry && k in args && forall p :: p in Params(name) ==> p.name != k
    ensures Parse(name, args).Failure?
  {
    assert k !in Names(Params(name));
  }

  // ---------------------------------------------------------------------
  // The arguments a request carries

  /** A price bound as an argument: `None` or the number. */
  function OptRealArg(x: Option<real>): Value
  {
    if x.Some? then VReal(x.value) else VNone
  }

  /** The keyword arguments, one per parameter, that the operation of `r` receives. */
  function RequestArgs(r: Request): map<string, Value>
  {
    match r
    case SearchReq(f) =>
      map["query" := VStr(f.query), "category" := VStr(f.category),
          "max_price" := OptRealArg(f.maxPrice), "min_price" := OptRealArg(f.minPrice)]
    case ProductReq(id) => map["product_id" := VStr(id)]
    case AvailabilityReq(id, q) => map["product_id" := VStr(id), "quantity" := VInt(q)]
    case TrackReq(id) => map["order_id" := VStr(id)]
    case UserOrdersReq(u) => map["user_id" := VStr(u)]
    case HistoryReq(u, limit) => map["user_id" := VStr(u), "limit" := VInt(limit)]
    case AddReq(id, q, u) => map["product_id" := VStr(id), "quantity" := VInt(q), "user_id" := VStr(u)]
    case RemoveReq(id, u) => map["product_id" := VStr(id), "user_id" := VStr(u)]
    case UpdateReq(id, q, u) => map["product_id" := VStr(id), "quantity" := VInt(q), "user_id" := VStr(u)]
    case ViewReq(u) => map["user_id" := VStr(u)]
    case ClearReq(u) => map["user_id" := VStr(u)]
    case CheckoutReq(u) => map["user_id" := VStr(u)]
    case HelpReq(t) => map["topic" := VStr(t)]
    case StoreInfoReq => map[]
    case IssueReq(t, desc) => map["issue_type" := VStr(t), "description" := VStr(desc)]
    case SizeGuideReq(c) => map["category" := VStr(c)]
  }

  /** `bound` is the value `v`, or the same number as the other kind of number. */
  predicate Coerces(bound: Value, v: Value)
  {
    || bound == v
    || (bound.VReal? && v.VInt? && bound.r == v.i as real)
    || (bound.VInt? && v.VReal? && bound.i as real == v.r)
  }

  /** The bound arguments `m` are those `r` carries, up to the kind of number. */
  predicate BindsTo(m: map<string, Value>, r: Request)
  {
    var c := RequestArgs(r);
    c.Keys == m.Keys && forall k :: k in c ==> Coerces(m[k], c[k])
  }

  /** The names of one to four parameters. */
  lemma NamesOfFew(ps: seq<Param>)
    requires 1 <= |ps| <= 4
    ensures |ps| == 1 ==> (set p | p in ps :: p.name) == {ps[0].name}
    ensures |ps| == 2 ==> (set p | p in ps :: p.name) == {ps[0].name, ps[1].name}
    ensures |ps| == 3 ==> (set p | p in ps :: p.name) == {ps[0].name, ps[1].name, ps[2].name}
    ensures |ps| == 4 ==> (set p | p in ps :: p.name) == {ps[0].name, ps[1].name, ps[2].name, ps[3].name}
  {
    assert ps[0] in ps;
    if |ps| >= 2 { assert ps[1] in ps; }
    if |ps| >= 3 { assert ps[2] in ps; }
    if |ps| == 4 { assert ps[3] in ps; }
  }

  /** A request carries one argument for each parameter of its operation. */
  lemma ArgKeys(r: Request)
    ensures RequestArgs(r).Keys == (set p | p in Params(OperationName(r)) :: p.name)
  {
    if IsQuery(r) {
      QueryArgKeys(r);
    } else if IsCartOp(r) {
      CartArgKeys(r);
    } else if !r.StoreInfoReq? {
      NamesOfFew(Params(OperationName(r)));
    }
  }

  /** `ArgKeys` for the queries. */
  lemma QueryArgKeys(r: Request)
    requires IsQuery(r)
    ensures RequestArgs(r).Keys == (set p | p in Params(OperationName(r)) :: p.name)
  {
    NamesOfFew(Params(OperationName(r)));
  }

  /** `ArgKeys` for the cart operations. */
  lemma CartArgKeys(r: Request)
    requires IsCartOp(r)
    ensures RequestArgs(r).Keys == (set p | p in Params(OperationName(r)) :: p.name)
  {
    NamesOfFew(Params(OperationName(r)));
  }

  /** The arguments a query request carries are the bound ones, up to the kind of number. */
  lemma QueryValues(name: string, m: map<string, Value>)
    requires name in QueryOps
    requires BuildQuery(name, m).Success?
    ensures var c := RequestArgs(BuildQuery(name, m).value); forall k :: k in c ==> Coerces(Arg(m, k), c[k])
  {
  }
  /** The same for a cart request. */
  lemma CartValues(name: string, m: map<string, Value>)
    requires name in CartOps
    requires BuildCart(name, m).Success?
    ensures var c := RequestArgs(BuildCart(name, m).value); forall k :: k in c ==> Coerces(Arg(m, k), c[k])
  {
  }
  /** The same for a support request. */
  lemma SupportValues(name: string, m: map<string, Value>)
    requires name in SupportOps
    requires BuildSupport(name, m).Success?
    ensures var c := RequestArgs(BuildSupport(name, m).value); forall k :: k in c ==> Coerces(Arg(m, k), c[k])
  {
  }

  /**
   * A parsed call carries the call's arguments: the operation receives, for
   * each of its parameters, the argument passed or else the default, with an
   * integral float read as an integer and an integer read as a price.
   */
  lemma ParseCarriesArgs(name: string, args: Args)
    requires Parse(name, args).Success?
    ensures Bind(name, Params(name), args).Success?
    ensures BindsTo(Bind(name, Params(name), args).value, Parse(name, args).value)
  {
    var m := Bind(name, Params(name), args).value;
    var r := Parse(name, args).value;
    ArgKeys(r);
    if name in QueryOps {
      QueryValues(name, m);
    } else if name in CartOps {
      CartValues(name, m);
    } else {
      SupportValues(name, m);
    }
  }

  /** The arguments a request carries bind exactly, each to its own parameter. */
  lemma BindsOwnArgs(r: Request)
    ensures Bind(OperationName(r), Params(OperationName(r)), RequestArgs(r)) == Success(RequestArgs(r))
  {
    ArgKeys(r);
    BindExact(OperationName(r), Params(OperationName(r)), RequestArgs(r));
  }

  /** The requests of the product and order queries. */
  predicate IsQuery(r: Request)
  {
    r.SearchReq? || r.ProductReq? || r.AvailabilityReq? || r.TrackReq? || r.UserOrdersReq? || r.HistoryReq?
  }

  /** The requests of the cart operations. */
  predicate IsCartOp(r: Request)
  {
    r.AddReq? || r.RemoveReq? || r.UpdateReq? || r.ViewReq? || r.ClearReq? || r.CheckoutReq?
  }

  /** The table group each request's operation belongs to. */
  lemma GroupOf(r: Request)
    ensures IsQuery(r) ==> OperationName(r) in QueryOps
    ensures IsCartOp(r) ==> OperationName(r) !in QueryOps && OperationName(r) in CartOps
    ensures !IsQuery(r) && !IsCartOp(r) ==>
              OperationName(r) !in QueryOps && OperationName(r) !in CartOps && OperationName(r) in Registry
  {
    var name := OperationName(r);
    if IsQuery(r) {
      assert name in QueryOps;
    } else if IsCartOp(r) {
      assert name !in QueryOps && name in CartOps;
    } else {
      assert name !in QueryOps && name !in CartOps && name in SupportOps;
    }
  }

  /** A query request's own arguments read back as that request. */
  lemma QueryReadsBack(r: Request)
    requires IsQuery(r)
    ensures BuildQuery(OperationName(r), RequestArgs(r)) == Success(r)
  {
  }

  /** A cart request's own arguments read back as that request. */
  lemma CartReadsBack(r: Request)
    requires IsCartOp(r)
    ensures BuildCart(OperationName(r), RequestArgs(r)) == Success(r)
  {
  }

  /** A query request's own arguments parse back to it. */
  lemma QueryRoundTrip(r: Request)
    requires IsQuery(r)
    ensures Parse(OperationName(r), RequestArgs(r)) == Success(r)
  {
    BindsOwnArgs(r);
    QueryReadsBack(r);
    GroupOf(r);
  }

  /** A cart request's own arguments parse back to it. */
  lemma CartRoundTrip(r: Request)
    requires IsCartOp(r)
    ensures Parse(OperationName(r), RequestArgs(r)) == Success(r)
  {
    BindsOwnArgs(r);
    CartReadsBack(r);
    GroupOf(r);
  }

  /** A support request's own arguments read back as that request. */
  lemma SupportReadsBack(r: Request)
    requires !IsQuery(r) && !IsCartOp(r)
    ensures BuildSupport(OperationName(r), RequestArgs(r)) == Success(r)
  {
  }

  /** A support request's own arguments parse back to it. */
  lemma SupportRoundTrip(r: Request)
    requires !IsQuery(r) && !IsCartOp(r)
    ensures Parse(OperationName(r), RequestArgs(r)) == Success(r)
  {
    BindsOwnArgs(r);
    SupportReadsBack(r);
    GroupOf(r);
  }

  /** Calling a request's operation with the arguments the request carries parses back to that request. */
  lemma RequestRoundTrip(r: Request)
    ensures Parse(OperationName(r), RequestArgs(r)) == Success(r)
  {
    if IsQuery(r) {
      QueryRoundTrip(r);
    } else if IsCartOp(r) {
      CartRoundTrip(r);
    } else {
      SupportRoundTrip(r);
    }
  }

  // ---------------------------------------------------------------------
  // Running a request

  /** The fresh values an operation may draw: `uuid.uuid4()` and `datetime.now().isoformat()`. */
  datatype Entropy = Entropy(uuid: string, now: string)

  /** What an operation returns, before it is turned into its dictionary. */
  datatype Outcome =
    | ProductList(products: seq<Product>)
    | ProductLookup(product: Option<Product>)
    | AvailabilityReport(availability: Availability)
    | TrackingLookup(tracking: Option<Tracking>)
    | OrderList(orders: seq<Order>)
    | StatusReport(status: Status)
    | CartViewReport(view: CartView)
    | CheckoutReport(checkout: CheckoutResult)
    | HelpReport(help: Help)
    | StoreInfoReport(info: Value)
    | IssueReported(report: IssueReport)
    | SizeGuideReport(guide: SizeGuide)

  /** Runs a request against the store's state. */
  function Execute(d: Data, r: Request, e: Entropy): (Outcome, Data)
  {
    if Writes(r) then Write(d, r, e) else (Query(d, r, e), d)
  }

  /** The operations that write a file: the four cart edits and checkout. */
  predicate Writes(r: Request)
  {
    r.AddReq? || r.RemoveReq? || r.UpdateReq? || r.ClearReq? || r.CheckoutReq?
  }

  /** The operations that write a file, and the state they leave. */
  function Write(d: Data, r: Request, e: Entropy): (Outcome, Data)
    requires Writes(r)
  {
    match r
    case AddReq(id, q, u) => var (s, d') := AddToCart(d, id, q, u); (StatusReport(s), d')
    case RemoveReq(id, u) => var (s, d') := RemoveFromCart(d, id, u); (StatusReport(s), d')
    case UpdateReq(id, q, u) => var (s, d') := UpdateCartQuantity(d, id, q, u); (StatusReport(s), d')
    case ClearReq(u) => var (s, d') := ClearCart(d, u); (StatusReport(s), d')
    case CheckoutReq(u) => var (c, d') := Checkout(d, u, e.uuid, e.now); (CheckoutReport(c), d')
  }

  /** The queries, `view_cart` among them: what they return from the state as it is. */
  function Query(d: Data, r: Request, e: Entropy): Outcome
    requires !Writes(r)
  {
    match r
    case SearchReq(f) => ProductList(SearchProducts(d.catalog, f))
    case ProductReq(id) => ProductLookup(GetProductById(d.catalog, id))
    case AvailabilityReq(id, q) => AvailabilityReport(CheckAvailability(d.catalog, id, q))
    case TrackReq(id) => TrackingLookup(TrackOrder(d.orders, id))
    case UserOrdersReq(u) => OrderList(UserOrders(d.orders, u))
    case HistoryReq(u, limit) => OrderList(OrderHistory(d.orders, u, limit))
    case ViewReq(u) => CartViewReport(ViewCart(d, u))
    case HelpReq(t) => HelpReport(GetHelp(t))
    case StoreInfoReq => StoreInfoReport(GetStoreInfo())
    case IssueReq(t, desc) => IssueReported(ReportIssue(t, desc, e.uuid))
    case SizeGuideReq(c) => SizeGuideReport(GetSizeGuide(c))
  }

  /** The queries, `view_cart` among them, leave the state as it was. */
  lemma ExecuteReadOnly(d: Data, r: Request, e: Entropy)
    requires !Writes(r)
    ensures Execute(d, r, e).1 == d
  {
  }

  /**
   * Only the cart edits and checkout change the state; none of them changes
   * the catalog, so stock is never decremented; only checkout adds orders,
   * and it only appends; the one-line-per-product invariant is kept.
   */
  lemma ExecuteEffects(d: Data, r: Request, e: Entropy)
    requires Valid(d)
    ensures var d' := Execute(d, r, e).1;
      && (!Writes(r) ==> d' == d)
      && d'.catalog == d.catalog
      && d.orders <= d'.orders
      && (!r.CheckoutReq? ==> d'.orders == d.orders)
      && Valid(d')
  {
    if Writes(r) {
      match r
      case AddReq(id, q, u) => AddPreserves(d, id, q, u);
      case RemoveReq(id, u) => RemovePreserves(d, id, u);
      case UpdateReq(id, q, u) => UpdatePreserves(d, id, q, u);
      case ClearReq(u) =>
      case CheckoutReq(u) => CheckoutPreserves(d, u, e);
    }
  }

  /** `d'` has the catalog of `d`, the orders of `d` (extended only when `appends`), and one line per product. */
  predicate Preserves(d: Data, d': Data, appends: bool)
  {
    d'.catalog == d.catalog && d.orders <= d'.orders && (!appends ==> d'.orders == d.orders) && Valid(d')
  }

  lemma AddPreserves(d: Data, id: string, q: int, u: string)
    requires Valid(d)
    ensures Preserves(d, AddToCart(d, id, q, u).1, false)
  {
    AddToCartOutcome(d, id, q, u);
    AddToCartKeepsValid(d, id, q, u);
  }

  lemma RemovePreserves(d: Data, id: string, u: string)
    requires Valid(d)
    ensures Preserves(d, RemoveFromCart(d, id, u).1, false)
  {
    RemoveFromCartOutcome(d, id, u, id);
  }

  lemma UpdatePreserves(d: Data, id: string, q: int, u: string)
    requires Valid(d)
    ensures Preserves(d, UpdateCartQuantity(d, id, q, u).1, false)
  {
    if q > 0 {
      UpdateCartQuantityOutcome(d, id, q, u, id);
    } else {
      RemovePreserves(d, id, u);
    }
  }

  lemma CheckoutPreserves(d: Data, u: string, e: Entropy)
    requires Valid(d)
    ensures Preserves(d, Checkout(d, u, e.uuid, e.now).1, true)
  {
    CheckoutOutcome(d, u, e.uuid, e.now);
  }

  /** `function_map[name](**args)`: a `TypeError` or `KeyError` leaves the state untouched. */
  function Invoke(d: Data, name: string, args: Args, e: Entropy): (Result<Outcome, string>, Data)
  {
    match Parse(name, args)
    case Failure(err) => (Failure(err), d)
    case Success(r) => var (o, d') := Execute(d, r, e); (Success(o), d')
  }

  /**
   * A failed call changes nothing; a successful one ran the operation named,
   * on the arguments passed and the defaults of the others.
   */
  lemma InvokeOutcome(d: Data, name: string, args: Args, e: Entropy)
    ensures Invoke(d, name, args, e).0.Failure? ==> Invoke(d, name, args, e).1 == d
    ensures Invoke(d, name, args, e).0.Success? ==>
              name in Registry && Bind(name, Params(name), args).Success? &&
              exists r :: Parse(name, args) == Success(r) && OperationName(r) == name &&
                          BindsTo(Bind(name, Params(name), args).value, r) &&
                          Invoke(d, name, args, e) == (Success(Execute(d, r, e).0), Execute(d, r, e).1)
  {
    if Parse(name, args).Success? {
      var r := Parse(name, args).value;
      ParseCarriesArgs(name, args);
      assert Parse(name, args) == Success(r) && OperationName(r) == name;
    }
  }

  // ---------------------------------------------------------------------
  // The dictionaries the operations return

  function StatusToDict(s: Status): Value
  {
    VDict(map["success" := VBool(s.success), "message" := VStr(s.message)])
  }

  function ViewLineToDict(l: ViewLine): Value
  {
    VDict(map[
      "product_id" := VStr(l.productId),
      "name" := VStr(l.name),
      "price" := VReal(l.price),
      "quantity" := VInt(l.quantity),
      "item_total" := VReal(l.itemTotal)])
  }

  function CartViewToDict(v: CartView): Value
  {
    VDict(map[
      "items" := VList(seq(|v.items|, i requires 0 <= i < |v.items| => ViewLineToDict(v.items[i]))),
      "total" := VReal(v.total),
      "item_count" := VInt(v.itemCount)])
  }

  function CheckoutToDict(c: CheckoutResult): Value
  {
    match c
    case Placed(id, total) =>
      VDict(map["success" := VBool(true), "message" := VStr("Order placed successfully"),
                "order_id" := VStr(id), "total" := VReal(total)])
    case NotPlaced(msg) => VDict(map["success" := VBool(false), "message" := VStr(msg)])
  }

  /** The value the Python operation returns. */
  function OutcomeToValue(o: Outcome): (v: Value)
    ensures o.ProductList? ==> v.VList? && |v.elems| == |o.products|
    ensures o.ProductList? ==> forall i :: 0 <= i < |o.products| ==> v.elems[i] == ProductToDict(o.products[i])
  {
    match o
    case ProductList(ps) => VList(seq(|ps|, i requires 0 <= i < |ps| => ProductToDict(ps[i])))
    case ProductLookup(p) => if p.Some? then ProductToDict(p.value) else VNone
    case AvailabilityReport(a) => AvailabilityToDict(a)
    case TrackingLookup(t) => if t.Some? then TrackingToDict(t.value) else VNone
    case OrderList(os) => OrdersToList(os)
    case StatusReport(s) => StatusToDict(s)
    case CartViewReport(v) => CartViewToDict(v)
    case CheckoutReport(c) => CheckoutToDict(c)
    case HelpReport(h) => HelpToDict(h)
    case StoreInfoReport(info) => info
    case IssueReported(r) => IssueReportToDict(r)
    case SizeGuideReport(g) => SizeGuideToDict(g)
  }
}
