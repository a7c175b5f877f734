# Conversational commerce backend — a Dafny model

This project models the core of an Express/MongoDB shop backend whose main
entry point is a chat endpoint. A signed-in user's message is handled in four steps:

1. Intent detection classifies it into one of seven intents. It asks a language
   model when one is configured, and otherwise falls back to keyword rules.
2. The chat controller routes the intent to one agent: product, cart, order,
   payment or confirmation.
3. The agent calls the matching service: cart, order or payment (Razorpay).
4. The controller wraps the answer, or the thrown error, in one JSON envelope.

The authentication service, the JWT middlewares and the profile service
complete the core.

The model follows the program's layout, one module per source file:

| module | source |
|---|---|
| `IntentService` | `src/services/intent.service.js` |
| `Chat` | `src/controllers/chat.controller.js` |
| `ProductAgent`, `CartAgent`, `OrderAgent`, `PaymentAgent`, `ConfirmationAgent` | `src/agents/*.js` |
| `CartModel` | `src/models/Cart.js` |
| `CartService` | `src/services/cart.service.js` |
| `OrderService` | `src/services/order.service.js` |
| `PaymentService` | `src/services/payment.service.js` |
| `AuthService` | `src/services/auth.service.js` |
| `AuthMiddleware` | `src/middlewares/auth.middleware.js` |
| `ProfileService` | `src/services/profile.service.js` |

Shared pieces:

- `Js` holds the JavaScript values the code handles: `undefined`, `null`, booleans, numbers, strings, arrays and objects. It also defines truthiness, `String(v)`, `trim` and `toLowerCase`.
- `Text` holds the regular-expression building blocks: `\b`, `\s+`, literal runs and digit captures.
- `Store` holds the product collection and the ObjectId operations.
- `Wrappers` holds `Option` and `Result`.

The modules `IntentExamples`, `ChatExamples` and `CartExamples` state the cases of the repository's test files, plus concrete inputs for the findings below.

The pure layers are functions: the keyword rules, the agents, the controller, the
checks of every service, and the auth and profile logic. The arguments the code
receives from outside are parameters:

- the language model;
- the products service;
- the ObjectId validator;
- bcrypt, `jwt.sign` and `jwt.verify`;
- the Razorpay client and the HMAC check;
- the database calls of the profile service.

State that the source updates in place is modelled with classes:

- `CartService.CartService` holds one `CartModel.CartDoc` per user. Its `AddItem`, `UpdateItem`, `RemoveItem` and `ClearCart` rewrite those lines and re-total them through `CartDoc.Save`, the save hook.
- `OrderService.OrderService` keeps the orders. `CreateOrder` writes the order, takes the stock from `Store.Products` and empties the cart.
- `PaymentService.Payments` keeps the payment records. `VerifyPayment` marks the order paid and upserts a record.
- `AuthService.Users` keeps the user documents. `Signup` appends to them.
- `AuthMiddleware.Request` carries what the middlewares attach to a request.

Each method is specified by the function that says what it computes. The lemmas
are stated about those functions.

## Model

| member | source | states |
|---|---|---|
| Text.LeftmostMatchIsCaptured | src/services/intent.service.js:148-149 | `String.prototype.match` without the g flag: when the pattern first matches at position p, the capture taken is the one at p |
| Text.MatchIsCaptured | src/services/intent.service.js:148-149 | a match anywhere at or after the start position means `match` succeeds |
| Text.NoMatchNoCapture | src/services/intent.service.js:148-149 | when the pattern matches at no position, `match` answers `null` |
| IntentService.PriceParams | src/services/intent.service.js:148-152 | `maxPrice`/`minPrice` are present exactly when the first under/below/less-than (resp. above/over/more-than) pattern matches, and hold the value of its captured digits; no other key |
| IntentService.Fallback | src/services/intent.service.js:144-180 | the keyword rules in order: each intent is returned exactly when its rule matches and every earlier rule does not; its parameters are the price bounds, the chosen product with quantity 1, or the chosen order id (`''` when none); the result is always one of the seven intents |
| IntentService.CartRuleIsWordCart | src/services/intent.service.js:163 | the view-cart pattern matches exactly when the whole word "cart" occurs: the optional "view"/"my" prefixes never change the outcome |
| IntentService.Spread | src/services/intent.service.js:127 | `{ ...parsed }` copies an object's own fields; a string or array spreads into index keys only |
| IntentService.PostProcessWith | src/services/intent.service.js:121-126 | a `null` parse makes reading `parsed.intent` throw; otherwise the intent is the tag when the tag check accepts it, else UNKNOWN |
| IntentService.PostProcess | src/services/intent.service.js:126-138 | with the intended tag check: the intent is one of the seven names (the tag exactly when the tag is one); the params are the parsed fields without `intent`; the context's `productId`/`orderId` fill a missing one only for the intents that use it, and a truthy parsed value wins |
| IntentService.PostProcessAsWritten | src/services/intent.service.js:126 | the tag check as written agrees with the intended one on every tag that is one of the seven names |
| IntentService.InheritedKeyEscapes | src/services/intent.service.js:126 | as written, the tag "constructor" passes `INTENTS[parsed.intent]` and comes back as an intent outside the seven |
| IntentService.ArrayTagEscapes | src/services/intent.service.js:126 | as written, the tag `["CHECKOUT"]` passes the check and the returned intent is not even a string |
| IntentService.ModelPath | src/services/intent.service.js:110-138 | no tool call, no arguments or unparsable arguments give UNKNOWN; a parsed reply gives the post-processed detection, under the corrected tag check of the second finding (as written, `InheritedKeyEscapes` shows an intent outside the seven); a throw gives no answer (so the fallback runs) |
| IntentService.Trimmed | src/services/intent.service.js:27 | the trimmed message is empty exactly when the message is blank |
| IntentService.DetectIntent | src/services/intent.service.js:26-43 | a blank message is UNKNOWN with no params; without a usable key the keyword rules decide; with one the model's answer is used unless the call throws, in which case the keyword rules decide; with the corrected tag check of the second finding the intent is always one of the seven (as written it need not be, see `InheritedKeyEscapes`) |
| IntentService.BlankIgnoresClassifier | src/services/intent.service.js:27-30 | a blank message gives UNKNOWN whatever the key, the model and the context |
| IntentService.BadReplyIsFinal | src/services/intent.service.js:112-124 | a model reply without a usable tool call gives UNKNOWN and the keyword rules are never consulted |
| IntentExamples.EmptyMessage | tests/intent.service.test.js:20-24 | `''` is UNKNOWN with `{}` params |
| IntentExamples.ShowMeProducts | tests/intent.service.test.js:26-29 | "show me products" is LIST_PRODUCTS |
| IntentExamples.ShowMeHeadphones | tests/intent.service.test.js:31-34 | "show me Wireless Bluetooth Headphones" is LIST_PRODUCTS |
| IntentExamples.ShowLaptopsUnder50000 | tests/intent.service.test.js:36-40 | "show laptops under 50000" is LIST_PRODUCTS with `maxPrice` 50000 and nothing else |
| IntentExamples.ProductsUnderRs20000 | tests/intent.service.test.js:42-46 | "products under Rs 20000" is LIST_PRODUCTS with `maxPrice` 20000: the currency word is skipped whatever its case |
| IntentExamples.AddToCartWithProduct | tests/intent.service.test.js:48-52 | "add to cart" with a chosen product is ADD_TO_CART for that product, quantity 1 |
| IntentExamples.ViewCart | tests/intent.service.test.js:54-57 | "view cart" is GET_CART |
| IntentExamples.PlaceOrder | tests/intent.service.test.js:59-62 | "place order" is PLACE_ORDER |
| IntentExamples.Checkout | tests/intent.service.test.js:64-67 | "checkout" is CHECKOUT with an empty order id |
| IntentExamples.PayWithOrder | tests/intent.service.test.js:69-73 | "pay" with a chosen order is CHECKOUT for that order |
| IntentExamples.OrderStatus | tests/intent.service.test.js:75-78 | "order status" is GET_ORDER_STATUS |
| IntentExamples.HelloWorld | tests/intent.service.test.js:80-83 | "hello world" is UNKNOWN |
| Replies.Reply.Json | src/agents/productAgent.js:35-50 | an agent's reply is the object with exactly `type`, `message`, `data` and `suggestions` |
| Chat.Dispatch | src/controllers/chat.controller.js:35-59 | each dispatched intent goes to exactly its agent (ADD_TO_CART and GET_CART both to the cart agent), with the detected params and the body fields that agent reads; any other intent reaches no agent |
| Chat.ErrorResponse | src/controllers/chat.controller.js:62-67 | a thrown error answers with its `statusCode` or 500, its message or the default text, and `data: null` |
| Chat.Handle | src/controllers/chat.controller.js:20-69 | no user: 401 before anything else; otherwise the detected intent's agent result with 200, the help reply with 200 for an intent no agent handles, or the agent's error as an error response |
| Chat.UnauthenticatedSkipsEverything | src/controllers/chat.controller.js:23-29 | without a user the answer is 401 whatever the classifier and the agents would do |
| Chat.OneAgentPerRequest | src/controllers/chat.controller.js:34-59 | the response depends only on the one agent call the switch makes |
| Chat.StatusIsOneOfThree | src/controllers/chat.controller.js:20-69 | every response is 401, 200 or an error response |
| Chat.RunAgent | src/controllers/chat.controller.js:36-51 | each call kind runs its own agent against the services |
| ChatExamples.MissingUser | tests/chat.controller.test.js:42-49 | no `req.user`: 401, type `error`, the log-in message |
| ChatExamples.ListingPassesThrough | tests/chat.controller.test.js:51-73 | a listing answer is returned unchanged with 200 |
| ChatExamples.UnknownHelps | tests/chat.controller.test.js:75-88 | UNKNOWN: 200, type `unknown`, `data: null` |
| ChatExamples.AgentFailureIs500 | tests/chat.controller.test.js:90-106 | an agent that throws a plain error gives 500 with its message |
| ChatExamples.LaptopsListingFails | src/agents/productAgent.js:23-26 | with the products service as exported, the listing bounded by 50000 fails with the missing-function TypeError |
| ChatExamples.FilteredListingEndToEnd | src/agents/productAgent.js:23-26 | "show laptops under 50000" sent to the chat endpoint, with the services as exported, is answered 500 |
| ChatExamples.MissingSearchResponse | src/controllers/chat.controller.js:62-67 | that failure's response is a 500 carrying the TypeError's message |
| ProductAgent.TextFilter | src/agents/productAgent.js:17-18 | a query/category is kept exactly when it is not blank, trimmed, with no white space at either end |
| ProductAgent.PriceFilter | src/agents/productAgent.js:19-20 | a price bound is kept exactly when it is a number of at least 0 |
| ProductAgent.NormalizeFilters | src/agents/productAgent.js:16-21 | each of the four filters is present exactly under its own condition, with the trimmed text or the number |
| ProductAgent.Search | src/agents/productAgent.js:25 | calling a search the service does not have throws "productsService.searchWithFilters is not a function" |
| ProductAgent.ListingMessage | src/agents/productAgent.js:28-33 | the "none found" text exactly when the count is 0; otherwise the count in the filtered or the full-list wording |
| ProductAgent.Listed | src/agents/productAgent.js:38-48 | one entry per product, each holding exactly the nine listed fields with the product's values |
| ProductAgent.Handle | src/agents/productAgent.js:15-51 | the search is used exactly when a filter is present and the full list otherwise; a failure of that call is the result; otherwise a `product_list` reply of the listed products with the matching message |
| ProductAgent.UnfilteredIgnoresSearch | src/agents/productAgent.js:23-26 | without filters the search (or its absence) cannot change the reply |
| ProductAgent.FilteredIgnoresFullList | src/agents/productAgent.js:23-26 | with a filter the full list cannot change the reply |
| ProductAgent.ZeroPriceIsAFilter | src/agents/productAgent.js:23 | a bound of 0 counts as a filter (`!= null`, not truthiness) |
| ProductAgent.BlankQueryIsNoFilter | src/agents/productAgent.js:17 | a white-space-only query is no filter |
| ProductAgent.ServiceAsWritten | src/services/products.service.js:15 | the exported service has `getProducts` and no `searchWithFilters` |
| ProductAgent.FilteredListingFailsAsWritten | src/agents/productAgent.js:25 | against the exported service every filtered listing fails with the TypeError, whatever the catalogue holds |
| ProductAgent.FilteredListingUsesSearch | src/agents/productAgent.js:23-33 | with the intended search, a filtered listing lists exactly what the search finds, and says none were found exactly when it finds none |
| ProductAgent.QueryByName | tests/agents/productAgent.test.js:24-59 | a product-name query lists the one hit with its name and price, the one-match message and the two suggestions |
| ProductAgent.NoFiltersListsAll | tests/agents/productAgent.test.js:61-81 | no params: the full list with the "(1 total)" message |
| ProductAgent.MaxPriceSearch | tests/agents/productAgent.test.js:83-102 | a `maxPrice` of 25000 is searched with that bound and its hit is listed |
| ProductAgent.EmptyCategory | tests/agents/productAgent.test.js:104-117 | a category that finds nothing gives an empty list and the "No products found" message |
| CartAgent.ItemCount | src/agents/cartAgent.js:20 | the number of lines of a cart whose `items` is an array, 0 when there are none |
| CartAgent.CartSummary | src/agents/cartAgent.js:18-26 | a `cart` reply of the cart itself; the empty-cart text exactly when there are no lines, else the count; order suggestions only for a non-empty cart |
| CartAgent.ResolveProduct | src/agents/cartAgent.js:30 | the body's product id wins when truthy, else the detected one |
| CartAgent.ResolveQuantity | src/agents/cartAgent.js:31 | a body quantity of at least 1 wins, else a truthy detected one, else 1; never falsy |
| CartAgent.FindItem | src/agents/cartAgent.js:38 | `find` reads the lines in order: the first line whose product id prints as the requested id; or the first line, ahead of any match, whose element or product is null or undefined, where reading `i.product._id` throws; or no match, when every line is readable and none matches |
| CartAgent.AddedName | src/agents/cartAgent.js:38-39 | 'Item' when `cart.items` is falsy or holds no match; the TypeError when `items` is truthy but not an array, or when the scan reaches an unreadable line first; else the matching line's product name (or 'Item' for a falsy product) |
| CartAgent.Handle | src/agents/cartAgent.js:17-47 | GET_CART summarises the cart; otherwise a blank product id is refused before the cart is touched, the service's error passes through, the name lookup's TypeError fails the call, and a successful add reports the product's name and the quantity with the new lines and total |
| CartAgent.NoProductNoCall | src/agents/cartAgent.js:33-37 | without a product the reply is the same whatever adding would do |
| CartAgent.UnreadableLineThrows | src/agents/cartAgent.js:38 | a line with a null or undefined product ahead of the match makes the name lookup throw that line's TypeError |
| CartAgent.DeletedProductAheadThrows | src/agents/cartAgent.js:36-39 | a cart whose first line's product is `null` and whose second is the added product: the add answers "Cannot read properties of null (reading '_id')" |
| CartAgent.AddedLineNamed | src/agents/cartAgent.js:36-44 | with the added line first, the reply is "Added Phone (qty: 1) to your cart." even though a later line has no product |
| OrderAgent.ResolveAddress | src/agents/orderAgent.js:17 | the body's address wins when truthy, else the detected one |
| OrderAgent.Created | src/agents/orderAgent.js:25-35 | an `order_created` reply whose data is exactly the order's id as text, total, lines and address |
| OrderAgent.Handle | src/agents/orderAgent.js:16-36 | an address that is not an object is refused before any order is placed; otherwise the created order, or the service's error |
| OrderAgent.StringAddressRefused | src/agents/orderAgent.js:18-20 | a non-empty string address is refused |
| PaymentAgent.ResolveOrderId | src/agents/paymentAgent.js:17 | the body's order id wins when truthy, else the detected one |
| PaymentAgent.Handle | src/agents/paymentAgent.js:16-36 | a blank order id is refused before the service is called; otherwise a `checkout_ready` reply holding exactly the five checkout fields of the service's answer, or its error |
| ConfirmationAgent.OrdersSummary | src/agents/confirmationAgent.js:29-37 | the orders as data; the no-orders text exactly when there are none, else their count; "View order details" offered exactly when there are orders |
| ConfirmationAgent.Handle | src/agents/confirmationAgent.js:16-38 | with an order id the one order with both statuses in the message, without one the summary of the user's orders; service errors pass through |
| ConfirmationAgent.NoIdStillAnswers | src/agents/confirmationAgent.js:29-37 | without an id the agent fails only when listing the orders fails |
| CartModel.TotalAppend | src/models/Cart.js:48-50 | the reduced total splits over concatenated lines |
| CartModel.TotalNonNegative | src/models/Cart.js:33-37 | lines within the schema's bounds never total below 0 |
| CartModel.TotalUpdate | src/models/Cart.js:48-50 | replacing one line moves the total by the difference of the two subtotals |
| CartModel.CartDoc.constructor | src/services/cart.service.js:37-40 | a new cart holds its user and lines, total 0 until saved |
| CartModel.CartDoc.Save | src/models/Cart.js:46-55 | saving keeps the lines and sets the total to their sum, whatever it was |
| Store.UnitPrice | src/services/cart.service.js:32 | the discount price when set, else the price; never negative for a valid product |
| Store.Products.TakeStock | src/services/order.service.js:73-75 | the product loses exactly `quantity` units of stock and nothing else changes; an unknown id changes nothing |
| CartService.IndexOf | src/services/cart.service.js:42-44 | the first line of the product, or -1 when the cart has none |
| CartService.FindIndex | src/services/cart.service.js:42-44 | the loop finds the index `IndexOf` specifies |
| CartService.AddedIsMerge | src/services/cart.service.js:20-51 | once the checks pass, adding merges the units under the product's stored id |
| CartService.MergeSucceedsIff | src/services/cart.service.js:45-51 | merging succeeds exactly when the units already held plus the new ones fit in the stock |
| CartService.AddedSucceedsIff | src/services/cart.service.js:20-51 | adding succeeds exactly when the id is valid, the quantity (1 when missing) is a whole number of at least 1, the product exists and the units held plus the new ones fit in its stock |
| CartService.MergeAddsUnits | src/services/cart.service.js:42-51 | a merge adds exactly the requested units of the product, never beyond its stock, keeps every other product's units and one line per product, and adds a line only for a new product; every other product's line stays as it was at its place, a new line goes last at the current unit price, and a merged line keeps its price snapshot |
| CartService.AddedMerges | src/services/cart.service.js:20-51 | a successful add adds exactly the requested units, within stock, and keeps one line per product; every other product's line is left unchanged at its place, the product's new line is appended at the current unit price, and an existing line keeps its price snapshot |
| CartService.MergeTotal | src/services/cart.service.js:39-50 | the total rises by the new units at the current unit price for a new line, and at the line's original snapshot for a merged one |
| CartService.UpdatedSucceedsIff | src/services/cart.service.js:60-82 | updating succeeds exactly when the id is valid, the quantity is a whole number of at least 1 (no default), the cart holds the product, it exists and the new quantity alone fits in its stock |
| CartService.UpdatedSetsQuantity | src/services/cart.service.js:79-82 | an update sets (not adds) the product's units, re-prices its line at the current unit price, and changes no other line |
| CartService.WithoutKeepsOthers | src/services/cart.service.js:101-103 | the filter removes every unit of the product and keeps every other product's units, the bounds and one line per product |
| CartService.RemovedSucceedsIff | src/services/cart.service.js:89-99 | removing succeeds exactly when the id is valid, the user has a cart, and the cart holds the product |
| CartService.RemovedDropsProduct | src/services/cart.service.js:98-103 | after a successful removal none of the product remains, and the lines are the old ones with the product's line cut out, the others in their order; other products' units, the bounds and one line per product hold |
| CartService.MergeInto | src/services/cart.service.js:42-53 | on a stored cart the merged lines are written and saved, or nothing changes on failure |
| CartService.SetLine | src/services/cart.service.js:79-83 | the line gets the new quantity and unit price, and the cart is saved with its total |
| CartService.CartService.GetCart | src/services/cart.service.js:5-18 | no cart reads as no lines and total 0; a stored cart's total is the sum over its lines |
| CartService.CartService.AddItem | src/services/cart.service.js:20-58 | the cart ends with the lines `Added` specifies and their total, created when missing, or is left untouched with the error; no other user's cart changes |
| CartService.CartService.UpdateItem | src/services/cart.service.js:60-88 | the cart ends with the lines `Updated` specifies, or is left untouched with the error |
| CartService.CartService.RemoveItem | src/services/cart.service.js:90-110 | the cart ends with the lines `Removed` specifies, or is left untouched with the error |
| CartService.CartService.ClearCart | src/services/cart.service.js:112-120 | the user's cart, if any, is emptied with total 0; the answer is always the empty cart |
| CartExamples.AsWrittenDuplicatesLine | src/services/cart.service.js:42-50 | as written, a valid id whose text differs from the stored id misses its line, and a second line for the same product is appended |
| CartExamples.UpperCaseIdSplitsLine | src/services/cart.service.js:42-44 | an upper-case spelling of a held product's id: as written two lines of one product; with the stored-id lookup one line of two units |
| CartExamples.AsWrittenMissesLine | src/services/cart.service.js:71-72 | as written, `updateItem` and `removeItem` answer "Product not in cart" for a valid id whose text matches no stored id |
| CartExamples.UpperCaseIdNotInCart | src/services/cart.service.js:71-72 | the upper-case spelling of a held product's id: as written, updating or removing it answers "Product not in cart"; with the stored-id lookup the line is set to three units, or removed |
| CartExamples.UpperCaseIdOverdrawsStock | src/services/order.service.js:41-76 | with one unit in stock and one in the cart, the upper-case spelling adds a second one-unit line as written; each line passes the order's stock check, and placing the order leaves the stock at -1; with the stored-id lookup the add is refused |
| OrderService.FirstMissing | src/services/order.service.js:13-17 | the first address field, in the listed order, that is missing or blank, or none when all are present |
| OrderService.Field | src/services/order.service.js:19-24 | a present field is stored trimmed |
| OrderService.ValidateShippingAddress | src/services/order.service.js:8-26 | the address (the body's `shippingAddress` or the body itself) passes exactly when it is an object with all six fields present and not blank; otherwise the "required" error for the first missing field; the result is trimmed |
| OrderService.FirstLineError | src/services/order.service.js:41-49 | the error of the first cart line whose product is missing or short of stock, or none when every line passes |
| OrderService.CheckLines | src/services/order.service.js:40-56 | the loop returns the order lines, or the first failing line's error |
| OrderService.OrderTotalMatchesLines | src/services/order.service.js:58-61 | the total summed over the cart equals the sum over the order's own lines |
| OrderService.TakeAllStock | src/services/order.service.js:72-76 | the decrements change only stock: each product loses exactly its units over the lines |
| OrderService.LineUnitsMatchCart | src/services/order.service.js:50-55 | the order lines hold each product's units exactly as the cart did |
| OrderService.StockAfterOrder | src/services/order.service.js:41-76 | placing an order takes from each product exactly the units the cart held of it, and no stock goes negative |
| OrderService.OrderDoc.constructor | src/services/order.service.js:63-70 | a new order holds its user, lines, address and total, PENDING and PLACED, with no gateway order |
| OrderService.PlanIsValidOrder | src/services/order.service.js:28-70 | an order that goes through has a clean address, one line per cart line (at least one), lines within the schema's bounds, and a total equal to the sum over its lines |
| OrderService.AddressBeforeCart | src/services/order.service.js:29-34 | a bad address is reported whatever the cart and the catalogue hold |
| OrderService.OrderService.GetOrderById | src/services/order.service.js:92-101 | an invalid id is refused; otherwise the order is found exactly when it exists and belongs to the user |
| OrderService.OrderService.CreateOrder | src/services/order.service.js:28-83 | on failure no order, stock or cart changes; on success a fresh PENDING/PLACED order with the plan's lines, address and total, the stock decremented by the lines, and the cart emptied |
| OrderService.OrderService.Place | src/services/order.service.js:63-79 | the writes of a successful order: the new order is stored, the stock is taken and the cart is emptied |
| OrderService.EmptyCart | src/services/order.service.js:78-79 | the cart is left with no lines and total 0 |
| OrderService.TakeStockAll | src/services/order.service.js:72-76 | the loop applies every line's decrement in order |
| PaymentService.Currency | src/services/payment.service.js:46 | the configured currency when truthy, else INR |
| PaymentService.StartCheckout | src/services/payment.service.js:34-61 | a paid order is refused first, then a total under 1 INR, then missing keys; checkout succeeds exactly when all pass and the gateway answers, and returns the gateway order id, key id, amount, currency and order id |
| PaymentService.ReadFields | src/services/payment.service.js:70-74 | the four fields are read exactly when all are truthy; otherwise the missing-fields error (a TypeError for a null body) |
| PaymentService.VerifyStep | src/services/payment.service.js:84-99 | an order is reported as already paid, without error, exactly when it is paid; otherwise a gateway-order mismatch, then a bad signature, are refused; the order is marked paid exactly when neither applies |
| PaymentService.NoPaymentBeforeCheckout | src/services/payment.service.js:87-89 | an order that never went through checkout cannot be paid and stays as it was |
| PaymentService.PaidIsTerminal | src/services/payment.service.js:84-86 | once paid, no sequence of checkouts and confirmations changes the order |
| PaymentService.RunKeepsOrder | src/services/payment.service.js:25-119 | no checkout or confirmation changes an order's id or total |
| PaymentService.PaidOnlyBySignature | src/services/payment.service.js:87-101 | an unpaid order becomes paid only through a confirmation whose signature checked out and whose gateway order id matched the one stored at that moment |
| PaymentService.CreateRazorpayOrder | src/services/payment.service.js:25-62 | the order is looked up as `getOrderById` does; the answer is `StartCheckout`'s, the order records the new gateway order id exactly when checkout succeeded, its payment status, order status and total never change, and no other order changes |
| PaymentService.Payments.Find | src/services/payment.service.js:85 | the payment record of an order when it has one |
| PaymentService.Payments.VerifyPayment | src/services/payment.service.js:69-119 | the fields, the order lookup and `VerifyStep` decide; a paid order is answered with its existing record; a confirmed payment marks the order paid and upserts one SUCCESS record for it; the order status is never changed; any failure changes nothing |
| AuthService.GetTokenSecrets | src/services/auth.service.js:6-12 | both secrets are returned exactly when both are configured, else the "not configured" error |
| AuthService.CreateTokens | src/services/auth.service.js:14-20 | both tokens carry the user's id and role; the access token is signed with the access secret and lifetime, the refresh token with the refresh ones |
| AuthService.NormalizeIdempotent | src/services/auth.service.js:30 | normalising an address twice is normalising it once, so stored addresses and later lookups agree |
| AuthService.CheckSignup | src/services/auth.service.js:24-40 | in the source's order: all three fields required, then a registered (normalised) address refused, then a password whose `length` converts to a number below 6 refused; what passes carries the normalised, unregistered address |
| AuthService.StringToNumberOfNatToStr | src/services/auth.service.js:38 | a count written in decimal reads back as that count when `<` converts it |
| AuthService.ShortIsFewerThanSix | src/services/auth.service.js:38 | a string or an array password is too short exactly when it has fewer than six elements |
| AuthService.ObjectLengthCoerced | src/services/auth.service.js:38 | an object whose `length` is `null` or `true` is too short, as these convert to 0 and 1 |
| AuthService.ObjectLengthEmptyArray | src/services/auth.service.js:38 | an object whose `length` is `[]` is too short, as the empty array converts to 0 |
| AuthService.ObjectLengthText | src/services/auth.service.js:38 | an object whose `length` is a count written as text is too short exactly when that count is below 6 |
| AuthService.ObjectLengthNaN | src/services/auth.service.js:38 | an object with no `length`, or with a `length` text that is not a number, is never too short (`NaN < 6` is false) |
| AuthService.EmailCheckedBeforePassword | src/services/auth.service.js:32-40 | a registered address is refused before the password is looked at |
| AuthService.SignupEmailCaseInsensitive | src/services/auth.service.js:30-36 | an address differing from a stored one only in case or surrounding white space is refused as registered |
| AuthService.CatchSignup | src/services/auth.service.js:55-67 | known messages are rethrown as they are; a validation error becomes its joined messages; a duplicate key becomes "Email already registered"; anything else is rethrown |
| AuthService.CatchKeepsCheckErrors | src/services/auth.service.js:56-58 | every error the sign-up checks raise reaches the caller unchanged |
| AuthService.CatchSignupIdempotent | src/services/auth.service.js:55-67 | mapping an error twice is mapping it once |
| AuthService.SignupUser | src/services/auth.service.js:24-48 | a created user passed the checks, has the normalised unregistered address, the trimmed name, the hash of the password and role USER; a failed check is the error |
| AuthService.PublicUser | src/services/auth.service.js:50-51 | the user object without `password` and with every other field |
| AuthService.Users.FindByEmail | src/services/auth.service.js:32 | a stored user with that address exactly when one exists |
| AuthService.Users.FindById | src/services/auth.service.js:105 | a stored user with that id exactly when one exists |
| AuthService.Users.Register | src/services/auth.service.js:44-48 | the new user is appended and the unique address and id indexes still hold |
| AuthService.Users.Signup | src/services/auth.service.js:22-68 | a failed check writes nothing and throws the mapped error; otherwise the user is stored before the tokens are made, and the answer is the public user with both tokens or the token error |
| AuthService.Users.Login | src/services/auth.service.js:70-98 | both fields required; an unknown address and a wrong password give the same error; otherwise name, role and email with both tokens |
| AuthService.Users.RefreshAccessToken | src/services/auth.service.js:99-117 | a missing id or an unknown user is an invalid refresh token; a malformed id is a cast error; otherwise new tokens for the stored user |
| AuthService.Logout | src/services/auth.service.js:119-124 | fails with "User not found" exactly when there is no user id, else the logged-out message |
| AuthMiddleware.JoinSplit | src/middlewares/auth.middleware.js:6 | joining the pieces of `split(' ')` gives the header back |
| AuthMiddleware.SplitJoin | src/middlewares/auth.middleware.js:6 | splitting space-free pieces joined by spaces gives the pieces back |
| AuthMiddleware.BearerTokenShape | src/middlewares/auth.middleware.js:5-10 | a header that yields a token reads `Bearer`, one space, the token, then nothing or a space |
| AuthMiddleware.BearerTokenOfShape | src/middlewares/auth.middleware.js:5-10 | such a header yields exactly that token |
| AuthMiddleware.BearerTokenIff | src/middlewares/auth.middleware.js:5-10 | the header yields token `t` exactly when it reads `Bearer`, one space, `t` free of spaces, then nothing or a space: a doubled space leaves no token |
| AuthMiddleware.Caller | src/middlewares/auth.middleware.js:13 | the caller is exactly the payload's user id and role |
| AuthMiddleware.RefreshToken | src/middlewares/auth.middleware.js:22-25 | the body's refresh token when truthy, else the header's second piece under the Bearer scheme, else null |
| AuthMiddleware.BodyTokenWins | src/middlewares/auth.middleware.js:25 | a refresh token in the body wins whatever the header says |
| AuthMiddleware.HeaderTokenIsBearer | src/middlewares/auth.middleware.js:23-25 | without one in the body, a refresh token is found exactly when the header carries a bearer token, and it is that token |
| AuthMiddleware.RefreshSecret | src/middlewares/auth.middleware.js:31 | the refresh secret when set, else the access secret |
| AuthMiddleware.Authenticate | src/middlewares/auth.middleware.js:3-18 | no bearer token: 401 Unauthorized; a token that does not verify: 401 "Invalid or expired token"; otherwise the request proceeds with the caller attached and nothing else changes |
| AuthMiddleware.RefreshTokenMiddleware | src/middlewares/auth.middleware.js:19-42 | no token: 401 and the request untouched; expired: its own 401; otherwise invalid: 401; a verified token attaches the caller and the token |
| ProfileService.Allowed | src/services/profile.service.js:41 | exactly the keys that are name, phone or addresses |
| ProfileService.CopyAdds | src/services/profile.service.js:42-45 | the fold adds every visited key with the body's value to what it started from |
| ProfileService.UpdateDataIsWhitelist | src/services/profile.service.js:40-45 | the update holds exactly the body's own keys among name, phone and addresses, each with the body's value, whatever order the keys come in; email, role and password never reach the database |
| ProfileService.Select | src/services/profile.service.js:9 | only the profile fields of the document, never the password |
| ProfileService.GetProfile | src/services/profile.service.js:7-15 | the selected profile of a stored user, "User not found" exactly when there is none, or the lookup's error |
| ProfileService.UpdateProfile | src/services/profile.service.js:37-56 | a null body throws the conversion TypeError; otherwise the whitelisted update is applied and the selected profile, "User not found" or the store's error is returned |

## Left out

- The language-model request (prompt, tool schema, model name, token limit) is left out. The reply enters only as a parameter. A reply that is a string or array spreads into index keys and is not studied further.
- Only ASCII letters are case-folded, for `toLowerCase` and the regex `/i` flag. `\s` and `trim` use the JavaScript white-space set.
- Numbers are integers. Fractional prices, `NaN` and `Infinity` are left out.
- Money is held in integer paise, so `Math.round(order.totalAmount * 100)` is the total itself. The difference between the rupee amount returned to the frontend and the paise amount sent to Razorpay is therefore not modelled.
- `populate`, `lean`, `toObject`, timestamps and `__v` are left out. The populated product fields of a cart are not modelled: the cart agent reads whatever the service returns.
- Mongoose schema setters and validators beyond the bounds used here are not re-checked on write. This includes `trim`, `uppercase`, `enum` and the discount-below-price validator.
- `getOrders` and its sort by creation date are left out. The confirmation agent receives the list as a parameter.
- Concurrency is left out. Each service call runs to completion before the next, so races between two requests on one cart or order are not modelled.
- `products.service.js` appears only as the pair of operations the product agent calls.
- These are not part of this model: `db.js`, the route and controller plumbing other than the chat controller, the HTTP server, CORS, configuration loading, `Review.js` and the webhook signature check.
- `verifyRazorpaySignature`'s HMAC is a boolean parameter.
- bcrypt, `jwt.sign` and `jwt.verify` are parameters. A throwing `bcrypt.compare` is not modelled.
- The CastError text that `User.findById` throws for a malformed id follows Mongoose's usual wording. `getOrderById` and `createRazorpayOrder` check the id first, so their own lookups never cast.
- AuthService.CheckSignup: a string's `length` is counted in Unicode scalar values, not UTF-16 code units. A password of three emoji has length 6 in JavaScript and passes the check there, while the model counts 3 and refuses it.
- AuthService.StringToNumber: text converts to a number only when it is empty or an optionally signed run of decimal digits. Fractions, exponents, hexadecimal, binary and octal literals, and `Infinity` read as `NaN` here, because the model's numbers are integers.
- CartAgent.CartSummary and CartAgent.AddedName read `items` from whatever cart the service answers. The service always answers an object, so the TypeError of reading `items` from a null cart is not modelled.
- Logging (`console.log`/`console.warn`) is left out.

## Findings

| source | as written | input that shows it | evidently intended | confidence | as-written member | corrected member |
|---|---|---|---|---|---|---|
| src/agents/productAgent.js:25 | calls `productsService.searchWithFilters`, which `products.service.js` does not export, so every filtered listing throws a TypeError and the chat answers 500 | chat message "show laptops under 50000" (or params `{ maxPrice: 25000 }`) | a search the service provides, whose results are listed | not executed | ProductAgent.FilteredListingFailsAsWritten | ProductAgent.FilteredListingUsesSearch |
| src/services/intent.service.js:126 | `INTENTS[parsed.intent]` is truthy for inherited keys and for a one-element array holding a name, so the classifier can return an intent outside the seven | tool arguments `{"intent":"constructor"}` or `{"intent":["CHECKOUT"]}` | only the seven names are accepted | not executed | IntentService.InheritedKeyEscapes | IntentService.PostProcess |
| src/services/cart.service.js:42-44 | the line lookup compares the stored ObjectId's text (lower-case hex) with the raw `productId` text, which `isValid` also accepts in upper case, so the same product gets a second cart line | a cart holding one unit of `507f1f77bcf86cd799439011`, then `addItem` with `507F1F77BCF86CD799439011` | the lookup uses the id as stored, so units merge into one line | not executed | CartExamples.UpperCaseIdSplitsLine | CartService.AddedMerges |
| src/services/cart.service.js:71 | `updateItem` looks the line up with the same raw-text comparison, so the upper-case spelling of a held product's id answers "Product not in cart" | a cart holding `507f1f77bcf86cd799439011`, then `updateItem` with `507F1F77BCF86CD799439011` and quantity 3 | the line of the product is found and set to three units | not executed | CartExamples.UpperCaseIdNotInCart | CartService.UpdatedSetsQuantity |
| src/services/cart.service.js:98-103 | `removeItem` looks the line up, and filters, with the same raw-text comparison, so the upper-case spelling answers "Product not in cart" | a cart holding `507f1f77bcf86cd799439011`, then `removeItem` with `507F1F77BCF86CD799439011` | the product's line is removed | not executed | CartExamples.AsWrittenMissesLine | CartService.RemovedDropsProduct |
| src/services/order.service.js:41-49 | the stock check runs line by line, so the duplicate lines the cart lookup makes each pass on their own, and the `$inc` loop at lines 72-76 takes more than the stock | stock 1, a cart with one unit of the product, then `addItem` with the upper-case id and quantity 1, then `createOrder` | stock never goes below zero | not executed | CartExamples.UpperCaseIdOverdrawsStock | OrderService.StockAfterOrder |

The rest of the model uses the corrected definitions:

- `ProductAgent.Handle` takes the catalogue as a parameter.
- `IntentService.ModelPath` uses `PostProcess`.
- `CartService.Added`, `Updated` and `Removed` look lines up by the stored id. `AddedAsWritten`, `UpdatedAsWritten` and `RemovedAsWritten` keep the raw-text lookups for the findings.
