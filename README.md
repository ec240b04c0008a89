# WRTeam Sport Center shopping assistant — a Dafny model

The system is a command-line shopping assistant for a sports store. The user
types a message. A language model answers it with text or with calls to a
fixed set of store operations: search the catalog, look up or check a
product, track and list orders, edit the cart, check out, and answer support
questions. The assistant runs each requested operation against the stored
catalog, cart and orders, turns the result into a reply, and keeps the chat
history for the next message.

This project models that core in Dafny:

- `Records` (`records.dfy`): the product, order, cart-line and cart records, their dictionaries and the order total.
- `Catalog`, `Orders`, `Support` (`catalog.dfy`, `orders.dfy`, `support.dfy`): the read-only operations.
- `CartRules` (`cart_rules.dfy`): the cart operations as transitions of the stored state.
- `CartStore` (`cart_store.dfy`): a `Store` class whose methods update the stored catalog, cart and orders in place, each proved to perform its `CartRules` transition.
- `Dispatch` (`dispatch.dfy`): the table of the 16 operation names, the binding of a call's keyword arguments (defaults, missing and unknown arguments), and running a bound call.
- `Formatting` (`format.dfy`): the natural-language reply made from an operation's result.
- `Conversation` and `ChatClient` (`conversation.dfy`, `chat_client.dfy`): one chat exchange. `Chatbot.Chat` loops over the parts of the model's answer. The pure `Conversation.Chat` states the same exchange as a value.
- `Cli` (`cli.dfy`): one pass of the command-line loop: exit words, the history it keeps, and the offer to add a found product to the cart.
- `Wrappers`, `Strings`, `Values`, `Sequences`: `Option`/`Result`, the Python string operations used (ASCII case mapping, `title`, substring search, `str` of an integer), Python values with truthiness and keyword-argument binding, and order-preserving sub-sequences.

The language model's answer, the fresh UUID and the current time are inputs.
The three JSON files are the fields of the `Store` object (the `Data` value
in the pure functions).

## Model

| member | source | states |
|---|---|---|
| Records.ProductRoundTrip | models/product.py:5-28 | Reading back a product's dictionary gives the same product. |
| Records.OrderRoundTrip | models/product.py:30-51 | Reading back an order's dictionary gives the same order, with its line dictionaries. |
| Records.CartItemRoundTrip | models/product.py:53-64 | Reading back a cart line's dictionary gives the same line. |
| Records.ItemsRoundTrip | models/product.py:71-80 | Reading back a list of line dictionaries gives the same lines, in order. |
| Records.CartRoundTrip | models/product.py:66-80 | Reading back a cart's dictionary gives the same cart. |
| Records.CartWithoutItems | models/product.py:77-80 | A cart dictionary with no `items` key reads as an empty cart for its user. |
| Records.FirstMissing | models/product.py:26-28 | A field is reported missing only when it is required and absent; none is reported exactly when all required fields are present. |
| Records.Kwargs | models/product.py:26-28 | Binding succeeds exactly when the value is a dictionary whose keys are the record's fields, and then it yields that dictionary. |
| Records.LinesTotalConcat | models/product.py:82-83 | The cart total of two runs of lines is the sum of their totals. |
| Records.LinesTotalAppend | models/product.py:82-83 | Adding a line adds its price times its quantity to the total. |
| Records.TotalNonNegative | models/product.py:82-83 | With no negative price and no negative quantity, the total is not negative. |
| Catalog.SearchProducts | functions/product_functions.py:20-53 | The results are catalog products that pass every filter, never more than the catalog holds. |
| Catalog.SearchCatalog | functions/product_functions.py:34-53 | The search loop appends exactly the products the search function selects, in catalog order. |
| Catalog.SearchComplete | functions/product_functions.py:36-51 | Every catalog product passing the case-insensitive query, the category and both inclusive price bounds is returned. |
| Catalog.SearchKeepsOrder | functions/product_functions.py:36-51 | The results keep catalog order. |
| Catalog.SearchUnfiltered | functions/product_functions.py:20-53 | With every filter left at its default, search returns the whole catalog. |
| Catalog.GetProductById | functions/product_functions.py:55-69 | The result is absent exactly when no product has the id; otherwise it is the first product with the id. |
| Catalog.FindProduct | functions/product_functions.py:65-69 | The lookup loop returns what the lookup function defines. |
| Catalog.CheckAvailability | functions/product_functions.py:71-92 | An unknown product is "Product not found"; a known one is available exactly when its stock covers the quantity, and the report carries its stock and the quantity asked for. |
| Catalog.AvailableIffEnoughStock | functions/product_functions.py:84-92 | For a listed product, availability is exactly a stock comparison. |
| Orders.UserOrders | functions/order_functions.py:27-39 | Only the given user's stored orders are returned. |
| Orders.UserOrdersComplete | functions/order_functions.py:38 | Every stored order of the user is returned. |
| Orders.UserOrdersKeepOrder | functions/order_functions.py:38 | The user's orders keep their stored order. |
| Orders.UserOrdersAppend | functions/order_functions.py:38 | A new order joins only its own user's list, at the end. |
| Orders.EstimatedDelivery | functions/order_functions.py:64-73 | Each of the five known statuses has its own sentence; any other status gives "Status unknown". |
| Orders.KnownStatuses | functions/order_functions.py:66-72 | The statuses with a sentence are exactly pending, processing, shipped, delivered and cancelled. |
| Orders.TrackOrder | functions/order_functions.py:41-62 | The result is absent exactly when no order has the id; otherwise it reports the first such order's fields and the estimate for its status. |
| Orders.FindOrder | functions/order_functions.py:51-62 | The tracking loop returns what the tracking function defines. |
| Orders.TrackAppendedOrder | functions/order_functions.py:41-62 | A newly appended order with a new id is found by that id. |
| Orders.TrackOrderAfterAppend | functions/order_functions.py:41-62 | Appending an order does not change what an id already present tracks to. |
| Orders.InsertKeepsNewestFirst | functions/order_functions.py:88 | Inserting an order into a newest-first list keeps it newest first. |
| Orders.SortIsNewestFirst | functions/order_functions.py:88 | The sort by creation time, newest first, yields a newest-first permutation. |
| Orders.SortIsStable | functions/order_functions.py:88 | Orders with equal creation times keep their stored relative order. |
| Orders.HistoryNewestFirst | functions/order_functions.py:75-89 | The history holds only the user's orders, newest first. |
| Orders.HistoryLength | functions/order_functions.py:89 | With a non-negative limit, the history holds the smaller of the limit and the user's order count. |
| Orders.HistoryKeepsNewest | functions/order_functions.py:88-89 | No order the limit leaves out is newer than an order that is kept. |
| Support.GetHelp | functions/support_functions.py:23-45 | A topic known in any capitalisation gets its answer and the contact hint; anything else gets the topic list and the index message. |
| Support.FaqTopicsAreTheKeys | functions/support_functions.py:5-12 | The listed help topics are exactly the answered ones, each listed once. |
| Support.HelpAnswersListedTopic | functions/support_functions.py:33-39 | Asking for a listed topic gives that topic's answer and echoes the topic as asked. |
| Support.HelpIgnoresCase | functions/support_functions.py:33 | Help answers a topic and its lower-case form the same way. |
| Support.GetStoreInfo | functions/support_functions.py:47-54 | The store information has exactly its six keys and the store's e-mail address and phone number. |
| Support.ContactAgreesWithStoreInfo | functions/support_functions.py:5-21 | The contact answer names the same e-mail address and phone number as the store information. |
| Support.ReportIssue | functions/support_functions.py:56-77 | The ticket id is "TICKET" and the upper-cased first eight characters of the UUID, and the message quotes it. |
| Support.TicketIdShape | functions/support_functions.py:68 | For a UUID, the ticket id has 14 characters: "TICKET" and eight upper-case hexadecimal digits. |
| Support.GetSizeGuide | functions/support_functions.py:79-123 | A category known in any capitalisation gets its guide; anything else gets all categories and the index message. |
| Support.SizeCategoriesAreTheKeys | functions/support_functions.py:84-111 | The listed size categories are exactly the guides' keys, each listed once, and every guide has a guide text. |
| CartRules.LoadCart | functions/cart_functions.py:15-25 | The stored cart is used only when it belongs to the user; otherwise the user gets an empty cart. |
| CartRules.FindLine | functions/cart_functions.py:58-61 | The index found is the first line for the product. |
| CartRules.AddToCartOutcome | functions/cart_functions.py:32-77 | Adding succeeds exactly when the product exists and its stock covers both the amount and the cart's quantity after adding. A failure changes nothing. A success stores the user's cart with the line grown or appended. |
| CartRules.AddLineQuantities | functions/cart_functions.py:63-74 | Adding raises that product's quantity by the amount and leaves every other product's quantity unchanged. |
| CartRules.AddLineTotal | functions/cart_functions.py:63-74 | Adding raises the cart total by the subtotal of the added amount at the line's captured price, or at the catalog price for a new line. |
| CartRules.AddLineUnique | functions/cart_functions.py:63-74 | Adding keeps one line per product and adds a line only for a product the cart lacked. |
| CartRules.AddToCartKeepsValid | functions/cart_functions.py:32-77 | Adding keeps one line per product in the stored cart. |
| CartRules.AddAcceptsNonPositive | functions/cart_functions.py:32-77 | A zero or negative amount is added like any other when the stock is not negative. |
| CartRules.RemoveFromCartOutcome | functions/cart_functions.py:79-101 | Removing succeeds exactly when the cart has a line for the product. A success pops its first line: the lines before it stay in place, the later ones move up one, unchanged. The product's quantity becomes zero, every other quantity stays, and the total falls by that line's subtotal. |
| CartRules.RemoveLineKeepsUnique | functions/cart_functions.py:93-96 | Dropping a product's line from a cart with one line per product leaves no line for that product and keeps one line per product. |
| CartRules.DropLine | functions/cart_functions.py:95 | Popping line i keeps the lines before it in place and moves each later line up by one. |
| CartRules.UpdateNonPositiveRemoves | functions/cart_functions.py:115-116 | Updating to zero or less is removing. |
| CartRules.UpdateCartQuantityOutcome | functions/cart_functions.py:103-134 | A positive update succeeds exactly when the stock covers the new quantity and the cart has the line. A success sets the quantity of that line only; its price and every other line stay as they were. |
| CartRules.UpdateChecksStockFirst | functions/cart_functions.py:118-121 | A product short of stock is reported as short of stock even when it is not in the cart. |
| CartRules.ViewLinesComplete | functions/cart_functions.py:136-168 | When every line's product is listed, the view shows every line in order with its name and subtotal, and its sum is the cart total. |
| CartRules.ViewLinesStep | functions/cart_functions.py:151-162 | Viewing one more line adds its row and subtotal when its product is listed, and skips it otherwise. |
| CartRules.ViewLinesPrefix | functions/cart_functions.py:151-162 | Over lines whose products are all listed, the view of the first k lines has k rows summing to those lines' total. |
| CartRules.ViewCartMatchesCart | functions/cart_functions.py:136-168 | The view of such a cart reports the cart's total and line count. |
| CartRules.ClearCart | functions/cart_functions.py:170-182 | Clearing always succeeds and stores an empty cart for the user, leaving the catalog and orders unchanged. |
| CartRules.FirstUnavailableAt | functions/cart_functions.py:203-215 | Checkout names the first line whose stock check fails. |
| CartRules.CheckoutOutcome | functions/cart_functions.py:184-251 | An order is placed exactly when the cart is non-empty and every line passes the stock check. A refusal changes nothing. A placed order is appended as pending with the cart's total, and the cart is emptied. The catalog, stock included, is unchanged. |
| CartRules.CheckoutRecordsOrder | functions/cart_functions.py:219-238 | The placed order joins the user's order list only, and when its id is new it tracks as a pending order with its lines and total. |
| CartRules.CheckoutKeepsValid | functions/cart_functions.py:184-251 | Checkout keeps one line per product. |
| CartStore.FindLineIndex | functions/cart_functions.py:58-61 | The loop finds the first line for the product, or none. |
| CartStore.ViewRows | functions/cart_functions.py:151-162 | The view loop yields exactly the rows of the lines whose product still exists, and their running total. |
| CartStore.Store.constructor | functions/cart_functions.py:9-13 | The store starts with the given catalog, stored cart and orders. |
| CartStore.Store.LoadCart | functions/cart_functions.py:15-25 | Returns the cart that loading the stored cart for the user defines. |
| CartStore.Store.AddToCart | functions/cart_functions.py:32-77 | Updates the stored cart in place as adding defines and returns its status. |
| CartStore.Store.RemoveFromCart | functions/cart_functions.py:79-101 | Updates the stored cart in place as removing defines and returns its status. |
| CartStore.Store.UpdateCartQuantity | functions/cart_functions.py:103-134 | Updates the stored cart in place as the quantity update defines and returns its status. |
| CartStore.Store.ViewCart | functions/cart_functions.py:136-168 | The view loop builds the view that viewing defines. |
| CartStore.Store.ClearCart | functions/cart_functions.py:170-182 | Stores the empty cart in place and returns its status. |
| CartStore.Store.Checkout | functions/cart_functions.py:184-251 | Runs the stock-check loop, then appends the order and empties the cart in place, as checkout defines. |
| Dispatch.RegistryShape | utils/gemini_client.py:31-55 | The table holds 16 distinct names, and the 6 declared to the language model are among them. |
| Dispatch.GetAvailableFunctions | utils/gemini_client.py:363-365 | The list holds the 16 names in table order, the declared ones among them. |
| Dispatch.Params | utils/gemini_client.py:31-55 | Each operation's parameter names are distinct. |
| Dispatch.Parse | utils/gemini_client.py:247-249 | An unknown name fails with the KeyError's text, the name in quotes. A binding error is a failure. A bound call runs the operation of that name. |
| Dispatch.ParseCarriesArgs | utils/gemini_client.py:249 | A parsed call carries exactly the bound arguments: for each parameter, the argument passed or else its default, up to reading an integral float as an integer or an integer as a price. |
| Dispatch.RequestRoundTrip | utils/gemini_client.py:249 | Calling a request's operation with the arguments the request carries parses back to that same request. |
| Dispatch.AsIndex | functions/order_functions.py:89 | The history limit is read only from an integer, and as that integer; a float, which the slice refuses, fails. |
| Values.BindExact | utils/gemini_client.py:249 | Passing exactly one argument per parameter binds each parameter to its own argument. |
| Dispatch.AddToCartDefaults | functions/cart_functions.py:32 | A call of add_to_cart with only a product id adds one unit for user123. |
| Dispatch.UnknownArgumentRefused | utils/gemini_client.py:249 | An argument the operation does not take makes the call fail. |
| Dispatch.ExecuteReadOnly | utils/gemini_client.py:31-55 | The queries, view_cart among them, leave the state unchanged. |
| Dispatch.ExecuteEffects | utils/gemini_client.py:31-55 | Only the cart edits and checkout change the state. None changes the catalog. Only checkout adds orders, and it only appends. One line per product is kept. |
| Dispatch.AddPreserves | functions/cart_functions.py:32-77 | Adding to the cart keeps the catalog and the orders and keeps one line per product. |
| Dispatch.RemovePreserves | functions/cart_functions.py:79-101 | Removing from the cart keeps the catalog and the orders and keeps one line per product. |
| Dispatch.UpdatePreserves | functions/cart_functions.py:103-134 | A quantity update keeps the catalog and the orders and keeps one line per product. |
| Dispatch.CheckoutPreserves | functions/cart_functions.py:184-251 | Checkout keeps the catalog, only appends to the orders and keeps one line per product. |
| Dispatch.InvokeOutcome | utils/gemini_client.py:247-266 | A failed call changes nothing. A successful one ran the operation of that name on the bound arguments. |
| Dispatch.OutcomeToValue | utils/gemini_client.py:249-254 | A search result becomes the list of its products' dictionaries, in order. |
| Formatting.FormatSearch | utils/gemini_client.py:293-307 | An empty result gives the no-results text. Otherwise the reply opens with the result count. Either way it starts with text. |
| Formatting.ProductBlocksAt | utils/gemini_client.py:296-299 | Each shown product occupies its own five pieces of the reply, in order. |
| Formatting.SearchCountsResults | utils/gemini_client.py:294-305 | With results, the reply counts them, notes the unlisted ones beyond three, and ends with the add-to-cart hint. |
| Formatting.SearchShowsFirstThree | utils/gemini_client.py:296-302 | The reply shows the first three results, in order, and notes how many more there are. |
| Formatting.FormatAdded | utils/gemini_client.py:309-313 | A successful add shows its message and the next-step question; a failed one shows its message and asks to check the id. |
| Formatting.CartReplyShowsCartTotal | utils/gemini_client.py:315-325 | The cart reply counts the cart's lines and shows the cart's total to two decimals. |
| Formatting.TrackReplyUnknownOrder | utils/gemini_client.py:338-339 | Tracking an unknown order gives the not-found text. |
| Formatting.TrackReplyShowsStatus | utils/gemini_client.py:328-337 | Tracking a stored order shows its id, its status in upper case and its delivery estimate. |
| Formatting.OrderRows | utils/gemini_client.py:344-345 | One row per order, in order, showing its id, its total to two decimals and its status in upper case. |
| Formatting.OrdersReplyListsEachOrder | utils/gemini_client.py:341-347 | The orders reply counts the orders and lists each one's total and upper-cased status, in stored order. |
| Formatting.HelpReplyForTopic | utils/gemini_client.py:352-353 | Help on a known topic shows the title-cased topic and its answer. |
| Formatting.HelpReplyListsTopics | utils/gemini_client.py:354-358 | Help on anything else lists every topic, title-cased. |
| Formatting.Format | utils/gemini_client.py:291-361 | A reply is never empty. |
| Formatting.UnformattedShownRaw | utils/gemini_client.py:360-361 | The result of an operation the formatter does not know is shown as its value. |
| Conversation.FoldStep | utils/gemini_client.py:234-272 | Handling one more part extends the loop by one step. |
| Conversation.FoldRecordsRegisteredCalls | utils/gemini_client.py:246-268 | The calls recorded are exactly the calls of registered names, in order; an unknown name is not recorded. |
| Conversation.StepRecords | utils/gemini_client.py:236-268 | One part adds a record exactly when it calls a registered name, and then with that name and arguments. |
| Conversation.StepCall | utils/gemini_client.py:236-268 | An unknown name only sets the "Unknown function" text. A registered call is recorded with its result or error, leaves the state the operation left, and sets the text to the formatted result or the error message. |
| Conversation.StepBlank | utils/gemini_client.py:236-272 | A part leaves the text empty exactly when the text was empty and the part is empty text. |
| Conversation.FoldBlankIffEmptyText | utils/gemini_client.py:229-272 | The reply text stays empty exactly when every part is empty text. |
| Conversation.LastTextWins | utils/gemini_client.py:270-272 | A non-empty text part at the end decides the reply text. |
| Conversation.LastSetterWins | utils/gemini_client.py:234-272 | The reply text is the one set by the last call or non-empty text part; empty text parts after it change nothing. |
| Conversation.LastCallWins | utils/gemini_client.py:246-268 | A call as the last part sets the reply text from its own result: the unknown-function text, the formatted result or the error message. |
| Conversation.FoldEffects | utils/gemini_client.py:246-266 | The calls of one reply never change the catalog, only append orders and keep one line per product. |
| Conversation.FoldWithoutCalls | utils/gemini_client.py:246-268 | Without calls of registered names, the state is unchanged and nothing is recorded. |
| Conversation.ChatSdkFailure | utils/gemini_client.py:284-289 | An SDK error gives the apology with the error, no calls, no history, and no state change. |
| Conversation.ChatSucceeds | utils/gemini_client.py:218-282 | A chat that does not fail records the registered calls and returns the history with this message's turn last, after the system prompt's turn when the conversation was new. |
| Conversation.ChatLateFailure | utils/gemini_client.py:274-289 | After the SDK answered, a chat fails exactly when every part was empty text and the reply's text was refused; the state is then unchanged. |
| ChatClient.Chatbot.constructor | utils/gemini_client.py:24-28 | The chatbot holds the given store and system prompt. |
| ChatClient.Chatbot.Run | utils/gemini_client.py:249 | Runs a bound call: the cart operations on the store in place, the queries by their loops, as running a request defines. |
| ChatClient.Chatbot.Invoke | utils/gemini_client.py:247-266 | Binds and runs a call as invoking defines. A binding error runs nothing. |
| ChatClient.Chatbot.Handle | utils/gemini_client.py:236-272 | Handles one part on the store in place, as one step of the reply loop defines. |
| ChatClient.Chatbot.Chat | utils/gemini_client.py:206-289 | The loop over the parts runs each registered call on the store in place and yields the response and state that a chat defines. |
| Cli.ExitWordsIgnoreCase | cli.py:101-103 | Exactly exit, quit and bye, in any capitalisation, end the session. |
| Cli.ExitSendsNothing | cli.py:101-103 | An exit word ends the session with nothing sent and nothing changed. |
| Cli.SearchFoundIffProducts | cli.py:138-150 | A search record qualifies for the add-to-cart offer exactly when it found products. |
| Cli.HistoryKeepsConversation | cli.py:106-111 | Without the offer taken up, a successful exchange extends the kept history by its turn and a failed one keeps it. |
| Cli.FollowUpReplacesHistory | cli.py:113-125 | The follow-up is sent only after a search that found products, and when it is answered the kept history is only the follow-up's new conversation. |
| Cli.Session.constructor | cli.py:13-17 | The session starts with an empty history and user123. |
| Cli.Session.Step | cli.py:95-128 | One pass of the loop, updating the kept history and the store, as one loop step defines. |

## Left out

- The language-model SDK: starting a chat, sending a message and reading its answer are an input (`Exchange` or an error string). The model's choice of calls is not modelled.
- The system-prompt text and the function-declaration schemas. Only the names of the six declared operations are modelled.
- File I/O: the three JSON files are fields of `Store` and values in `Data`. Missing or unreadable files, and saving, are not modelled.
- `.env` loading, the API-key check and the console: banners, the product table, Rich markup, prompts, the separator line and debug output.
- The outer `while True` of the command line, its KeyboardInterrupt handler and its "Continue?" prompt after an exception. One pass is `Cli.Session.Step`, and the user's confirmation is an input.
- `uuid.uuid4()` and `datetime.now()`: their values are parameters (`Entropy`).
- Floating point: prices and totals are exact reals. Rounding and the rendering of a float as text are abstract text pieces (`Show`, `Fixed2`).
- Case mapping is ASCII-only: `lower`, `upper` and `title` change only A–Z and a–z.
- Argument types: a bound argument of the wrong kind is refused at binding. An integral float is accepted as an integer quantity and any other number is refused. The Python runtime would accept some of these and fail later or compute with them.
- Dispatch.AsIndex: a `limit` of `None` or a `bool`, which Python's slice accepts, is refused like any other non-integer.
- The texts of binding and type TypeErrors are paraphrases. A KeyError's text is the key in quotes, as `str` gives it, and the slice TypeError of the history limit is Python's own text.
- `from_dict` checks the kind of each field; the dataclass constructor does not.
- Formatting.Format: the formatter is total over the typed results, so the case where formatting raises after the call was recorded is not modelled.
- Support.ReportIssue: the description is accepted and, as in the source, not stored.
- Orders.UserOrders and Orders.OrderHistory: the comprehension and the library sort are pure functions; the sort is modelled as a stable insertion sort by creation time.
- Concurrent access to the JSON files.
