/**
 * The chatbot object of utils/gemini_client.py: `chat` loops over the parts
 * of the model's answer, running each registered function call against the
 * store in place. Each method is proved to perform the transition that
 * Dispatch.Invoke and Conversation.Chat define.
 */
module ChatClient {
  import opened Wrappers
  import opened Values
  import opened Catalog
  import opened Orders
  import opened CartRules
  import opened CartStore
  import opened Dispatch
  import opened Formatting
  import opened Conversation

  class Chatbot {
    /** The data the registered functions read and write. */
    const store: Store
    /** The system prompt sent at the start of a new conversation. */
    const systemPrompt: string

    constructor (store: Store, systemPrompt: string)
      ensures this.store == store && this.systemPrompt == systemPrompt
    {
      this.store := store;
      this.systemPrompt := systemPrompt;
    }

    /** Runs a bound call: the cart operations on the store in place, the queries on its current state. */
    method Run(req: Request, e: Entropy) returns (o: Outcome)
      modifies store
      ensures (o, store.State()) == Execute(old(store.State()), req, e)
    {
      match req
      case AddReq(id, q, u) =>
        var s := store.AddToCart(id, q, u);
        o := StatusReport(s);
      case RemoveReq(id, u) =>
        var s := store.RemoveFromCart(id, u);
        o := StatusReport(s);
      case UpdateReq(id, q, u) =>
        var s := store.UpdateCartQuantity(id, q, u);
        o := StatusReport(s);
      case ClearReq(u) =>
        var s := store.ClearCart(u);
        o := StatusReport(s);
      case CheckoutReq(u) =>
        var c := store.Checkout(u, e.uuid, e.now);
        o := CheckoutReport(c);
      case ViewReq(u) =>
        var v := store.ViewCart(u);
        o := CartViewReport(v);
      case SearchReq(f) =>
        var ps := SearchCatalog(store.catalog, f);
        o := ProductList(ps);
      case ProductReq(id) =>
        var p := FindProduct(store.catalog, id);
        o := ProductLookup(p);
      case TrackReq(id) =>
        var t := FindOrder(store.orders, id);
        o := TrackingLookup(t);
      case _ =>
        ExecuteReadOnly(store.State(), req, e);
        o := Execute(store.State(), req, e).0;
    }

    /** `self.function_map[name](**args)`: a binding error is returned and nothing runs. */
    method Invoke(name: string, args: Args, e: Entropy) returns (res: Result<Outcome, string>)
      modifies store
      ensures (res, store.State()) == Dispatch.Invoke(old(store.State()), name, args, e)
    {
      var p := Parse(name, args);
      if p.Failure? {
        return Failure(p.error);
      }
      var o := Run(p.value, e);
      res := Success(o);
    }

    /** One pass of `chat`'s loop over the parts: `final_text` and `function_results` after handling `part`. */
    method Handle(text: Text, calls: seq<CallRecord>, part: Part, e: Entropy) returns (text': Text, calls': seq<CallRecord>)
      modifies store
      ensures Acc(text', calls', store.State()) == Step(Acc(text, calls, old(store.State())), part, e)
    {
      text', calls' := text, calls;
      if part.FunctionCall? {
        if part.name in Registry {
          var res := Invoke(part.name, part.args, e);
          calls' := calls + [CallRecord(part.name, part.args, res)];
          if res.Success? {
            text' := Format(part.name, res.value);
          } else {
            text' := CallErrorText(part.name, res.error);
          }
        } else {
          text' := Plain("Unknown function: " + part.name);
        }
      } else if part.text != "" {
        text' := Plain(part.text);
      }
    }

    /** `chat(message, chat_history)`; what the SDK answers and the fresh values are inputs. */
    method Chat(history: Option<History>, message: string, sdk: Result<Exchange, string>, draw: nat -> Entropy)
      returns (r: ChatResponse)
      modifies store
      ensures (r, store.State()) == Conversation.Chat(old(store.State()), history, message, systemPrompt, sdk, draw)
    {
      if sdk.Failure? {
        return Fault(sdk.error);
      }
      var ex := sdk.value;
      ghost var d := store.State();
      var parts := ex.reply.parts;
      var text: Text := [];
      var calls: seq<CallRecord> := [];
      var k := 0;
      while k < |parts|
        invariant 0 <= k <= |parts|
        invariant Acc(text, calls, store.State()) == Fold(d, parts[..k], draw)
      {
        FoldStep(d, parts, draw, k);
        text, calls := Handle(text, calls, parts[k], draw(k));
        k := k + 1;
      }
      assert parts[..|parts|] == parts;
      var h := Some(NewHistory(history, systemPrompt, message, ex));
      if !IsBlank(text) {
        return ChatResponse(text, calls, h, None);
      }
      match ex.reply.text
      case Failure(err) => r := Fault(err);
      case Success(t) => r := ChatResponse(Plain(t), calls, h, None);
    }
  }
}
