/**
 * The conversational loop of cli.py, one user input at a time: the exit
 * words, the chat history the loop keeps, and the offer to add a product
 * to the cart after a search that found something. Prompts and console
 * output are not modelled; what the user types or confirms is an input.
 */
module Cli {
  import opened Wrappers
  import opened Strings
  import opened Values
  import opened CartRules
  import opened CartStore
  import opened Dispatch
  import opened Conversation
  import opened ChatClient

  /** The inputs that end the session, compared in lower case. */
  const ExitWords: seq<string> := ["exit", "quit", "bye"]

  predicate IsExitWord(input: string)
  {
    Lower(input) in ExitWords
  }

  /** Any capitalisation of an exit word ends the session, and nothing else does. */
  lemma ExitWordsIgnoreCase(input: string)
    ensures IsExitWord(input) <==> IsExitWord(Lower(input))
    ensures IsExitWord(input) <==> Lower(input) == "exit" || Lower(input) == "quit" || Lower(input) == "bye"
  {
    LowerIdempotent(input);
  }

  /** The kept history is replaced by a response's history only when that history is present and non-empty. */
  function NextHistory(h: History, r: ChatResponse): History
  {
    if r.chatHistory.Some? && r.chatHistory.value != [] then r.chatHistory.value else h
  }

  /**
   * A record of a `search_products` call that returned results. For the
   * list a search returns, `len(result) > 0` adds nothing to its truthiness;
   * a record of a raised error has no result and does not qualify.
   */
  predicate SearchFound(c: CallRecord)
  {
    c.name == "search_products" && c.outcome.Success? && Truthy(OutcomeToValue(c.outcome.value))
  }

  /** `_should_ask_add_to_cart`: some recorded call is a search that found products. */
  predicate ShouldAskAddToCart(r: ChatResponse)
  {
    exists i :: 0 <= i < |r.functionCalls| && SearchFound(r.functionCalls[i])
  }

  /** A search record qualifies exactly when its list of products is non-empty. */
  lemma SearchFoundIffProducts(c: CallRecord, ps: seq<Records.Product>)
    requires c.name == "search_products" && c.outcome == Success(ProductList(ps))
    ensures SearchFound(c) <==> ps != []
  {
    var v := OutcomeToValue(c.outcome.value);
    assert |v.elems| == |ps|;
  }

  /** The message sent on the user's behalf when they accept the offer. */
  function FollowUpMessage(productId: string, quantity: string): string
  {
    "Add product " + productId + " to cart, quantity " + quantity
  }

  /** The user's answers to the add-to-cart offer, and what the SDK answers the follow-up message. */
  datatype FollowUp = FollowUp(productId: string, quantity: string, sdk: Result<Exchange, string>, draw: nat -> Entropy)

  /** What one pass of the loop did: whether it ended the session, the responses shown, and the new history and store state. */
  datatype StepResult = StepResult(quit: bool, replies: seq<ChatResponse>, history: History, data: Data)

  /**
   * One pass of the loop for `input`. `accept` is `None` when the user
   * declines the offer. The follow-up message is sent without the history,
   * so it starts a new conversation, and the history it returns replaces
   * the one the loop kept.
   */
  function LoopStep(d: Data, h: History, systemPrompt: string, input: string,
                    sdk: Result<Exchange, string>, draw: nat -> Entropy, accept: Option<FollowUp>): StepResult
  {
    if IsExitWord(input) then StepResult(true, [], h, d)
    else
      var (r, d1) := Conversation.Chat(d, Some(h), input, systemPrompt, sdk, draw);
      var h1 := NextHistory(h, r);
      if ShouldAskAddToCart(r) && accept.Some? then
        var f := accept.value;
        var (r2, d2) := Conversation.Chat(d1, None, FollowUpMessage(f.productId, f.quantity), systemPrompt, f.sdk, f.draw);
        StepResult(false, [r, r2], NextHistory(h1, r2), d2)
      else StepResult(false, [r], h1, d1)
  }

  /** An exit word ends the session without sending anything. */
  lemma ExitSendsNothing(d: Data, h: History, systemPrompt: string, input: string,
                         sdk: Result<Exchange, string>, draw: nat -> Entropy, accept: Option<FollowUp>)
    requires IsExitWord(input)
    ensures LoopStep(d, h, systemPrompt, input, sdk, draw, accept) == StepResult(true, [], h, d)
  {
  }

  /**
   * Without the offer taken up, a successful exchange extends the kept
   * history by this message's turn (after the system prompt's turn when the
   * history was empty), and a failed one leaves it as it was.
   */
  lemma HistoryKeepsConversation(d: Data, h: History, systemPrompt: string, input: string,
                                 sdk: Result<Exchange, string>, draw: nat -> Entropy)
    requires !IsExitWord(input)
    ensures var s := LoopStep(d, h, systemPrompt, input, sdk, draw, None);
      && |s.replies| == 1
      && (s.replies[0].error.Some? ==> s.history == h)
      && (s.replies[0].error.None? && h != [] ==> s.history == h + [Turn(input, sdk.value.reply)])
      && (s.replies[0].error.None? && h == [] ==> s.history == [Turn(systemPrompt, sdk.value.systemReply), Turn(input, sdk.value.reply)])
  {
    if sdk.Success? {
      ChatLateFailure(d, Some(h), input, systemPrompt, sdk.value, draw);
      ChatSucceeds(d, Some(h), input, systemPrompt, sdk.value, draw);
    }
  }

  /**
   * When the follow-up message is answered, the history the loop keeps is
   * only the follow-up's new conversation: every earlier turn is dropped.
   * The offer is made only after a search that found products.
   */
  lemma FollowUpReplacesHistory(d: Data, h: History, systemPrompt: string, input: string,
                                sdk: Result<Exchange, string>, draw: nat -> Entropy, f: FollowUp)
    requires !IsExitWord(input)
    ensures var s := LoopStep(d, h, systemPrompt, input, sdk, draw, Some(f));
      && (|s.replies| == 2 ==> ShouldAskAddToCart(s.replies[0]))
      && (|s.replies| == 2 && s.replies[1].error.None? ==>
            s.history == [Turn(systemPrompt, f.sdk.value.systemReply), Turn(FollowUpMessage(f.productId, f.quantity), f.sdk.value.reply)])
  {
    var (r, d1) := Conversation.Chat(d, Some(h), input, systemPrompt, sdk, draw);
    if ShouldAskAddToCart(r) && f.sdk.Success? {
      ChatLateFailure(d1, None, FollowUpMessage(f.productId, f.quantity), systemPrompt, f.sdk.value, f.draw);
      ChatSucceeds(d1, None, FollowUpMessage(f.productId, f.quantity), systemPrompt, f.sdk.value, f.draw);
    }
  }

  /** The CLI object: the history it passes to each chat, and the chatbot. */
  class Session {
    var chatHistory: History
    const chatbot: Chatbot
    /** The one demo user; the loop never passes it on. */
    const currentUser: string

    constructor (chatbot: Chatbot)
      ensures this.chatbot == chatbot && chatHistory == [] && currentUser == "user123"
    {
      this.chatbot := chatbot;
      chatHistory := [];
      currentUser := "user123";
    }

    /** One pass of `run`'s loop. */
    method Step(input: string, sdk: Result<Exchange, string>, draw: nat -> Entropy, accept: Option<FollowUp>)
      returns (quit: bool, replies: seq<ChatResponse>)
      modifies this, chatbot.store
      ensures var s := LoopStep(old(chatbot.store.State()), old(chatHistory), chatbot.systemPrompt, input, sdk, draw, accept);
        quit == s.quit && replies == s.replies && chatHistory == s.history && chatbot.store.State() == s.data
    {
      if IsExitWord(input) {
        return true, [];
      }
      var response := chatbot.Chat(Some(chatHistory), input, sdk, draw);
      chatHistory := NextHistory(chatHistory, response);
      replies := [response];
      quit := false;
      if ShouldAskAddToCart(response) && accept.Some? {
        var f := accept.value;
        var cartResponse := chatbot.Chat(None, FollowUpMessage(f.productId, f.quantity), f.sdk, f.draw);
        chatHistory := NextHistory(chatHistory, cartResponse);
        replies := replies + [cartResponse];
      }
    }
  }
}
