/**
 * `GeminiChatbot.chat` (utils/gemini_client.py) as a function of the
 * store's state. The language model is not modelled: what it answers is an
 * input (an `Exchange`, or the error the SDK raised), and so are the
 * fresh UUIDs and timestamps the operations draw. The reply's parts are handled
 * in order; each function call runs against the state the previous ones
 * left, and the reply text is whatever the last part that sets it wrote.
 */
module Conversation {
  import opened Wrappers
  import opened Values
  import opened CartRules
  import opened Dispatch
  import opened Formatting

  /** One part of the model's answer: a function call, or text (possibly empty). */
  datatype Part = FunctionCall(name: string, args: Args) | TextPart(text: string)

  /** The model's answer to one message: its parts and `response.text`, which the SDK may refuse to give. */
  datatype ModelReply = ModelReply(parts: seq<Part>, text: Result<string, string>)

  /** What the SDK answered: the reply to the system prompt (sent only for a new conversation) and the reply to the message. */
  datatype Exchange = Exchange(systemReply: ModelReply, reply: ModelReply)

  /** One exchange of the chat history: the message sent and the model's reply. */
  datatype Turn = Turn(message: string, reply: ModelReply)

  type History = seq<Turn>

  /** An entry of `function_calls`: the call, and the result it returned or the error it raised. */
  datatype CallRecord = CallRecord(name: string, args: Args, outcome: Result<Outcome, string>)

  /** The dictionary `chat` returns; `chatHistory` is absent after an error, `error` present only then. */
  datatype ChatResponse = ChatResponse(text: Text, functionCalls: seq<CallRecord>, chatHistory: Option<History>, error: Option<string>)

  /** The loop's variables: `final_text`, `function_results`, and the store's state. */
  datatype Acc = Acc(text: Text, calls: seq<CallRecord>, data: Data)

  /** The text shown when a registered function raised `err`. */
  function CallErrorText(name: string, err: string): Text
  {
    Plain("I encountered an error executing " + name + ": " + err)
  }

  /** Handling one part. An unknown function name is reported in the text but not recorded; empty text changes nothing. */
  function Step(acc: Acc, part: Part, e: Entropy): Acc
  {
    match part
    case FunctionCall(name, args) =>
      if name in Registry then
        var (res, d') := Invoke(acc.data, name, args, e);
        var text := if res.Success? then Format(name, res.value) else CallErrorText(name, res.error);
        Acc(text, acc.calls + [CallRecord(name, args, res)], d')
      else
        acc.(text := Plain("Unknown function: " + name))
    case TextPart(t) =>
      if t != "" then acc.(text := Plain(t)) else acc
  }

  /** The loop over the first parts; part `i` draws `draw(i)`. */
  function Fold(d: Data, parts: seq<Part>, draw: nat -> Entropy): Acc
  {
    if parts == [] then Acc([], [], d)
    else Step(Fold(d, parts[..|parts| - 1], draw), parts[|parts| - 1], draw(|parts| - 1))
  }

  lemma FoldStep(d: Data, parts: seq<Part>, draw: nat -> Entropy, k: nat)
    requires k < |parts|
    ensures Fold(d, parts[..k + 1], draw) == Step(Fold(d, parts[..k], draw), parts[k], draw(k))
  {
    assert parts[..k + 1][..k] == parts[..k];
  }

  /** The response to an exception that escaped the loop. */
  function Fault(err: string): ChatResponse
  {
    ChatResponse(
      Plain("I apologize, but I encountered an error: " + err + ". Please try again or contact our support team at support@wrteam.com."),
      [], None, Some(err))
  }

  /** A conversation is new when no history, or an empty one, is passed. */
  predicate IsNew(history: Option<History>)
  {
    history.None? || history.value == []
  }

  /** `chat.history` after the exchange: the system prompt's turn first when the conversation is new, then the message's. */
  function NewHistory(history: Option<History>, systemPrompt: string, message: string, ex: Exchange): History
  {
    (if history.Some? then history.value else [])
    + (if IsNew(history) then [Turn(systemPrompt, ex.systemReply)] else [])
    + [Turn(message, ex.reply)]
  }

  /**
   * `chat(message, chat_history)`: the response and the store's new state.
   * When the SDK raises, nothing has run. When the parts leave the text
   * empty, `response.text` is used, and if the SDK refuses it the whole
   * chat is reported as failed although the calls already made stand.
   */
  function Chat(d: Data, history: Option<History>, message: string, systemPrompt: string,
                sdk: Result<Exchange, string>, draw: nat -> Entropy): (ChatResponse, Data)
  {
    match sdk
    case Failure(err) => (Fault(err), d)
    case Success(ex) =>
      var acc := Fold(d, ex.reply.parts, draw);
      var h := Some(NewHistory(history, systemPrompt, message, ex));
      if !IsBlank(acc.text) then (ChatResponse(acc.text, acc.calls, h, None), acc.data)
      else match ex.reply.text
        case Failure(err) => (Fault(err), acc.data)
        case Success(t) => (ChatResponse(Plain(t), acc.calls, h, None), acc.data)
  }

  // ---------------------------------------------------------------------
  // Properties of the loop

  /** The registered function calls among the parts, in order, as (name, arguments). */
  function RegisteredCalls(parts: seq<Part>): (r: seq<(string, Args)>)
    ensures |r| <= |parts|
  {
    if parts == [] then []
    else
      var last := parts[|parts| - 1];
      RegisteredCalls(parts[..|parts| - 1])
      + (if last.FunctionCall? && last.name in Registry then [(last.name, last.args)] else [])
  }

  /** The record of each call, without its outcome. */
  function Requested(calls: seq<CallRecord>): (r: seq<(string, Args)>)
    ensures |r| == |calls|
  {
    seq(|calls|, i requires 0 <= i < |calls| => (calls[i].name, calls[i].args))
  }

  /** `function_results` records exactly the calls of registered functions, in the order they were made. */
  lemma {:induction false} FoldRecordsRegisteredCalls(d: Data, parts: seq<Part>, draw: nat -> Entropy)
    ensures Requested(Fold(d, parts, draw).calls) == RegisteredCalls(parts)
    decreases |parts|
  {
    if parts != [] {
      var n := |parts| - 1;
      FoldRecordsRegisteredCalls(d, parts[..n], draw);
      StepRecords(Fold(d, parts[..n], draw), parts[n], draw(n));
    }
  }

  /** Handling a part records it exactly when it calls a registered function. */
  lemma StepRecords(acc: Acc, part: Part, e: Entropy)
    ensures Requested(Step(acc, part, e).calls) ==
            Requested(acc.calls) + (if part.FunctionCall? && part.name in Registry then [(part.name, part.args)] else [])
  {
    if part.FunctionCall? && part.name in Registry {
      var res := Invoke(acc.data, part.name, part.args, e).0;
      assert Step(acc, part, e).calls == acc.calls + [CallRecord(part.name, part.args, res)];
      RequestedAppend(acc.calls, CallRecord(part.name, part.args, res));
    }
  }

  lemma RequestedAppend(calls: seq<CallRecord>, c: CallRecord)
    ensures Requested(calls + [c]) == Requested(calls) + [(c.name, c.args)]
  {
    assert forall i :: 0 <= i < |calls| ==> (calls + [c])[i] == calls[i];
  }

  /** Handling a part leaves the text empty exactly when it was empty and the part is empty text. */
  lemma StepBlank(acc: Acc, part: Part, e: Entropy)
    ensures IsBlank(Step(acc, part, e).text) <==> IsBlank(acc.text) && part == TextPart("")
  {
    match part
    case FunctionCall(name, args) =>
      if name in Registry {
        var res := Invoke(acc.data, name, args, e).0;
        if res.Failure? {
          StartsNotBlank(CallErrorText(name, res.error));
        }
      } else {
        StartsNotBlank(Plain("Unknown function: " + name));
      }
    case TextPart(t) =>
      if t != "" {
        StartsNotBlank(Plain(t));
      }
  }

  /** The text stays empty exactly when every part is empty text. */
  lemma {:induction false} FoldBlankIffEmptyText(d: Data, parts: seq<Part>, draw: nat -> Entropy)
    ensures IsBlank(Fold(d, parts, draw).text) <==> forall i :: 0 <= i < |parts| ==> parts[i] == TextPart("")
    decreases |parts|
  {
    if parts != [] {
      var n := |parts| - 1;
      FoldBlankIffEmptyText(d, parts[..n], draw);
      StepBlank(Fold(d, parts[..n], draw), parts[n], draw(n));
      assert forall i :: 0 <= i < n ==> parts[..n][i] == parts[i];
    }
  }

  /**
   * A call of an unknown name only sets the text to "Unknown function: ...".
   * A call of a registered name is recorded with the result it returned or
   * the error it raised, leaves the state the operation left, and sets the
   * text to the formatted result or to the error message.
   */
  lemma StepCall(acc: Acc, name: string, args: Args, e: Entropy)
    ensures var acc' := Step(acc, FunctionCall(name, args), e);
      var (res, d') := Invoke(acc.data, name, args, e);
      && (name !in Registry ==> acc' == acc.(text := Plain("Unknown function: " + name)))
      && (name in Registry ==>
            && acc'.calls == acc.calls + [CallRecord(name, args, res)]
            && acc'.data == d'
            && (res.Success? ==> acc'.text == Format(name, res.value))
            && (res.Failure? ==> acc'.text == Plain("I encountered an error executing " + name + ": " + res.error)))
  {
  }

  /**
   * The reply text is the one set by the last part that sets it, a call or
   * a non-empty text: the empty text parts after it change nothing.
   */
  lemma {:induction false} LastSetterWins(d: Data, parts: seq<Part>, draw: nat -> Entropy, k: nat)
    requires k < |parts| && parts[k] != TextPart("")
    requires forall j :: k < j < |parts| ==> parts[j] == TextPart("")
    ensures Fold(d, parts, draw).text == Step(Fold(d, parts[..k], draw), parts[k], draw(k)).text
    decreases |parts|
  {
    var n := |parts| - 1;
    if k == n {
      FoldStep(d, parts, draw, k);
      assert parts[..k + 1] == parts;
    } else {
      FoldEmptyLast(d, parts, draw);
      assert parts[..n][..k] == parts[..k] && parts[..n][k] == parts[k];
      assert forall j :: k < j < n ==> parts[..n][j] == parts[j];
      LastSetterWins(d, parts[..n], draw, k);
    }
  }

  /** An empty text part at the end changes nothing. */
  lemma FoldEmptyLast(d: Data, parts: seq<Part>, draw: nat -> Entropy)
    requires parts != [] && parts[|parts| - 1] == TextPart("")
    ensures Fold(d, parts, draw) == Fold(d, parts[..|parts| - 1], draw)
  {
  }


  /** A call as the last part decides the reply text by its own result, whatever came before. */
  lemma LastCallWins(d: Data, parts: seq<Part>, draw: nat -> Entropy, name: string, args: Args)
    requires parts != [] && parts[|parts| - 1] == FunctionCall(name, args)
    ensures var n := |parts| - 1;
      var res := Invoke(Fold(d, parts[..n], draw).data, name, args, draw(n)).0;
      var text := Fold(d, parts, draw).text;
      && (name !in Registry ==> text == Plain("Unknown function: " + name))
      && (name in Registry && res.Success? ==> text == Format(name, res.value))
      && (name in Registry && res.Failure? ==> text == Plain("I encountered an error executing " + name + ": " + res.error))
  {
    var n := |parts| - 1;
    StepCall(Fold(d, parts[..n], draw), name, args, draw(n));
  }

  /** A non-empty text part as the last part decides the reply text, whatever came before. */
  lemma LastTextWins(d: Data, parts: seq<Part>, draw: nat -> Entropy, t: string)
    requires parts != [] && parts[|parts| - 1] == TextPart(t) && t != ""
    ensures Fold(d, parts, draw).text == Plain(t)
  {
  }

  /**
   * The calls made while handling the parts never change the catalog, only
   * append orders, and keep the one-line-per-product cart invariant.
   */
  lemma {:induction false} FoldEffects(d: Data, parts: seq<Part>, draw: nat -> Entropy)
    requires Valid(d)
    ensures var d' := Fold(d, parts, draw).data;
      d'.catalog == d.catalog && d.orders <= d'.orders && Valid(d')
    decreases |parts|
  {
    if parts != [] {
      var n := |parts| - 1;
      FoldEffects(d, parts[..n], draw);
      var acc := Fold(d, parts[..n], draw);
      var part := parts[n];
      if part.FunctionCall? && part.name in Registry {
        match Parse(part.name, part.args)
        case Failure(_) =>
        case Success(r) => ExecuteEffects(acc.data, r, draw(n));
      }
    }
  }

  /** When no part calls a registered function, the state is left as it was and nothing is recorded. */
  lemma {:induction false} FoldWithoutCalls(d: Data, parts: seq<Part>, draw: nat -> Entropy)
    requires forall i :: 0 <= i < |parts| ==> !(parts[i].FunctionCall? && parts[i].name in Registry)
    ensures Fold(d, parts, draw).data == d && Fold(d, parts, draw).calls == []
    decreases |parts|
  {
    if parts != [] {
      var n := |parts| - 1;
      assert forall i :: 0 <= i < n ==> parts[..n][i] == parts[i];
      FoldWithoutCalls(d, parts[..n], draw);
    }
  }

  // ---------------------------------------------------------------------
  // Properties of a whole chat

  /** An SDK error reports the apology and the error, with no calls and no history, and changes nothing. */
  lemma ChatSdkFailure(d: Data, history: Option<History>, message: string, systemPrompt: string, err: string, draw: nat -> Entropy)
    ensures var (r, d') := Chat(d, history, message, systemPrompt, Failure(err), draw);
      && d' == d && r.error == Some(err) && r.chatHistory.None? && r.functionCalls == []
      && r.text == Plain("I apologize, but I encountered an error: " + err + ". Please try again or contact our support team at support@wrteam.com.")
  {
  }

  /**
   * Unless it fails, a chat records the registered calls the reply made,
   * in order, and returns a non-empty history: the one passed in, then the
   * system prompt's turn if the conversation was new, then this message's.
   */
  lemma ChatSucceeds(d: Data, history: Option<History>, message: string, systemPrompt: string, ex: Exchange, draw: nat -> Entropy)
    ensures var (r, _) := Chat(d, history, message, systemPrompt, Success(ex), draw);
      r.error.None? ==>
        && Requested(r.functionCalls) == RegisteredCalls(ex.reply.parts)
        && r.chatHistory.Some?
        && r.chatHistory.value[|r.chatHistory.value| - 1] == Turn(message, ex.reply)
        && (IsNew(history) ==> r.chatHistory.value == [Turn(systemPrompt, ex.systemReply), Turn(message, ex.reply)])
        && (!IsNew(history) ==> r.chatHistory.value == history.value + [Turn(message, ex.reply)])
  {
    FoldRecordsRegisteredCalls(d, ex.reply.parts, draw);
  }

  /**
   * A chat fails after the SDK answered only when no part set the text
   * (every part was empty text, so no call was made) and `response.text`
   * was refused; its state is then unchanged too.
   */
  lemma ChatLateFailure(d: Data, history: Option<History>, message: string, systemPrompt: string, ex: Exchange, draw: nat -> Entropy)
    ensures var (r, d') := Chat(d, history, message, systemPrompt, Success(ex), draw);
      r.error.Some? <==>
        (forall i :: 0 <= i < |ex.reply.parts| ==> ex.reply.parts[i] == TextPart("")) && ex.reply.text.Failure?
    ensures var (r, d') := Chat(d, history, message, systemPrompt, Success(ex), draw);
      r.error.Some? ==> d' == d
  {
    var parts := ex.reply.parts;
    FoldBlankIffEmptyText(d, parts, draw);
    if forall i :: 0 <= i < |parts| ==> parts[i] == TextPart("") {
      FoldWithoutCalls(d, parts, draw);
    }
  }
}
