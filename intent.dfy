/** Intent detection for the chat: the keyword classifier used when no language
    model is available, the post-processing of the model's tool call, and the
    choice between the two (src/services/intent.service.js). */
module IntentService {
  import opened Wrappers
  import opened Js
  import opened Text

  /** The seven values of the frozen `INTENTS` table (each key maps to itself). */
  const IntentNames: seq<string> :=
    ["LIST_PRODUCTS", "ADD_TO_CART", "PLACE_ORDER", "CHECKOUT", "GET_ORDER_STATUS", "GET_CART", "UNKNOWN"]

  /** Keys every object inherits from `Object.prototype`; `INTENTS[k]` is truthy for them too. */
  const PrototypeKeys: seq<string> :=
    ["constructor", "hasOwnProperty", "isPrototypeOf", "propertyIsEnumerable", "toLocaleString",
     "toString", "valueOf", "__proto__", "__defineGetter__", "__defineSetter__",
     "__lookupGetter__", "__lookupSetter__"]

  /** The `{ productId, orderId }` context taken from the chat request body. */
  datatype Context = Context(productId: Value, orderId: Value)

  /** `{ intent, params }` as returned by `detectIntent`. */
  datatype Detection = Detection(intent: Value, params: map<string, Value>)

  function Unknown(): Detection
  {
    Detection(Str("UNKNOWN"), map[])
  }

  // ---------------------------------------------------------------------------
  // The keyword rules, applied to the lower-cased message.

  const ListWords: seq<string> :=
    ["list", "show", "search", "find", "get", "browse", "products", "product", "items", "item"]
  const ListExclusions: seq<string> := ["cart", "order", "checkout", "pay"]
  const MaxKeywords: seq<string> := ["under", "below", "less than"]
  const MinKeywords: seq<string> := ["above", "over", "more than"]

  /** `/\b(list|show|search|find|get|browse|products?|items?)\b/` matches and
      `/\b(cart|order|checkout|pay)\b/` does not. */
  predicate ListRule(l: string)
  {
    AnyWord(l, ListWords) && !AnyWord(l, ListExclusions)
  }

  /** `/\b(add|put)\b.*\b(cart)\b|\b(cart)\b.*\b(add|put)\b/`, or a product chosen in
      the UI together with the bare substring "add" or "cart" (`/add|cart/i`). */
  predicate AddRule(l: string, ctx: Context)
  {
    WordThenWord(l, ["add", "put"], ["cart"]) || WordThenWord(l, ["cart"], ["add", "put"])
    || (Truthy(ctx.productId) && (Contains(l, "add") || Contains(l, "cart")))
  }

  /** One of `\b(view\s+)?cart\b` and `\b(my\s+)?cart\b` matches at `i`. */
  predicate CartAt(l: string, i: nat)
  {
    Boundary(l, i)
    && (PhraseThenBoundary(l, i, ["view", "cart"]) || PhraseThenBoundary(l, i, ["cart"])
        || PhraseThenBoundary(l, i, ["my", "cart"]))
  }

  predicate CartRule(l: string)
  {
    exists i :: 0 <= i <= |l| && CartAt(l, i)
  }

  /** `\bplace\s+order\b` (listed twice in the source) or `order\s+now\b`, which has
      no boundary in front: "reorder now" matches it. */
  predicate PlaceOrderAt(l: string, i: nat)
  {
    PhraseAt(l, i, ["place", "order"]) || PhraseThenBoundary(l, i, ["order", "now"])
  }

  predicate PlaceOrderRule(l: string)
  {
    exists i :: 0 <= i <= |l| && PlaceOrderAt(l, i)
  }

  /** `/\bcheckout\b|\bpay\b|\bpayment\b/` */
  predicate CheckoutRule(l: string)
  {
    AnyWord(l, ["checkout", "pay", "payment"])
  }

  /** `\b(order\s+status\b|status\s+of\s+order|track\s+order)\b` matches at `i`. */
  predicate StatusAt(l: string, i: nat)
  {
    Boundary(l, i)
    && (PhraseThenBoundary(l, i, ["order", "status"]) || PhraseThenBoundary(l, i, ["status", "of", "order"])
        || PhraseThenBoundary(l, i, ["track", "order"]))
  }

  predicate StatusRule(l: string)
  {
    exists i :: 0 <= i <= |l| && StatusAt(l, i)
  }

  /** The price bounds of a listing request: `maxPrice`/`minPrice` from the first
      match of the under/below/less-than and above/over/more-than patterns. */
  function PriceParams(l: string): (p: map<string, Value>)
    ensures p.Keys <= {"maxPrice", "minPrice"}
    ensures "maxPrice" in p <==> FirstCapture(l, 0, MaxKeywords).Some?
    ensures "minPrice" in p <==> FirstCapture(l, 0, MinKeywords).Some?
    ensures "maxPrice" in p ==> p["maxPrice"] == Num(DigitsValue(FirstCapture(l, 0, MaxKeywords).value))
    ensures "minPrice" in p ==> p["minPrice"] == Num(DigitsValue(FirstCapture(l, 0, MinKeywords).value))
  {
    var hi := FirstCapture(l, 0, MaxKeywords);
    var lo := FirstCapture(l, 0, MinKeywords);
    (if hi.Some? then map["maxPrice" := Num(DigitsValue(hi.value))] else map[])
    + (if lo.Some? then map["minPrice" := Num(DigitsValue(lo.value))] else map[])
  }

  /** `detectIntentFallback(message, context)`: the first rule that matches decides,
      in the order listing, add to cart, view cart, place order, checkout, order status. */
  function Fallback(message: string, ctx: Context): (d: Detection)
    ensures d.intent.Str? && d.intent.s in IntentNames
    ensures var l := Lower(message);
      && (d.intent == Str("LIST_PRODUCTS") <==> ListRule(l))
      && (d.intent == Str("ADD_TO_CART") <==> !ListRule(l) && AddRule(l, ctx))
      && (d.intent == Str("GET_CART") <==> !ListRule(l) && !AddRule(l, ctx) && CartRule(l))
      && (d.intent == Str("PLACE_ORDER") <==>
            !ListRule(l) && !AddRule(l, ctx) && !CartRule(l) && PlaceOrderRule(l))
      && (d.intent == Str("CHECKOUT") <==>
            !ListRule(l) && !AddRule(l, ctx) && !CartRule(l) && !PlaceOrderRule(l)
            && (CheckoutRule(l) || Truthy(ctx.orderId)))
      && (d.intent == Str("GET_ORDER_STATUS") <==>
            !ListRule(l) && !AddRule(l, ctx) && !CartRule(l) && !PlaceOrderRule(l)
            && !CheckoutRule(l) && !Truthy(ctx.orderId) && StatusRule(l))
    ensures d.intent == Str("LIST_PRODUCTS") ==> d.params == PriceParams(Lower(message))
    ensures d.intent == Str("ADD_TO_CART") ==>
      d.params == map["productId" := OrElse(ctx.productId, Str("")), "quantity" := Num(1)]
    ensures d.intent == Str("CHECKOUT") ==> d.params == map["orderId" := OrElse(ctx.orderId, Str(""))]
    ensures d.intent == Str("GET_ORDER_STATUS") ==> d.params == map["orderId" := Str("")]
    ensures d.intent in {Str("GET_CART"), Str("PLACE_ORDER"), Str("UNKNOWN")} ==> d.params == map[]
  {
    var l := Lower(message);
    if ListRule(l) then Detection(Str("LIST_PRODUCTS"), PriceParams(l))
    else if AddRule(l, ctx) then
      Detection(Str("ADD_TO_CART"), map["productId" := OrElse(ctx.productId, Str("")), "quantity" := Num(1)])
    else if CartRule(l) then Detection(Str("GET_CART"), map[])
    else if PlaceOrderRule(l) then Detection(Str("PLACE_ORDER"), map[])
    else if CheckoutRule(l) || Truthy(ctx.orderId) then
      Detection(Str("CHECKOUT"), map["orderId" := OrElse(ctx.orderId, Str(""))])
    else if StatusRule(l) then Detection(Str("GET_ORDER_STATUS"), map["orderId" := OrElse(ctx.orderId, Str(""))])
    else Unknown()
  }

  /** The view-cart rule is the whole word "cart": the optional "view"/"my" prefixes
      never change whether the pattern matches. */
  lemma {:induction false} CartRuleIsWordCart(l: string)
    ensures CartRule(l) <==> AnyWord(l, ["cart"])
  {
    if CartRule(l) {
      var i :| 0 <= i <= |l| && CartAt(l, i);
      var j := CartWordInside(l, i);
      assert WordAt(l, j, ["cart"][0]);
    }
    if AnyWord(l, ["cart"]) {
      var k, i :| 0 <= k < 1 && 0 <= i <= |l| && WordAt(l, i, ["cart"][k]);
      assert PhraseEnd(l, i, ["cart"]) == Some(i + 4);
      assert CartAt(l, i);
    }
  }

  /** Where one of the view-cart alternatives matches, the word "cart" stands alone. */
  lemma CartWordInside(l: string, i: nat) returns (j: nat)
    requires CartAt(l, i)
    ensures j <= |l| && WordAt(l, j, "cart")
  {
    if PhraseThenBoundary(l, i, ["cart"]) {
      j := i;
    } else if PhraseThenBoundary(l, i, ["view", "cart"]) {
      j := CartAfterWord(l, i, "view");
    } else {
      j := CartAfterWord(l, i, "my");
    }
  }

  /** `\ba\s+cart\b` matching at `i` puts a whole word "cart" after the spaces. */
  lemma CartAfterWord(l: string, i: nat, a: string) returns (j: nat)
    requires PhraseThenBoundary(l, i, [a, "cart"])
    ensures j <= |l| && WordAt(l, j, "cart")
  {
    var e := PhraseEnd(l, i, [a, "cart"]).value;
    PhraseEndTwoWords(l, i, a, "cart", e);
    j :| i + |a| < j && e == j + 4 && LitAt(l, i, a) && LitAt(l, j, "cart")
         && forall k :: i + |a| <= k < j ==> IsSpace(l[k]);
    assert IsSpace(l[j - 1]);
    assert l[j] == "cart"[0];
  }

  // ---------------------------------------------------------------------------
  // The language-model path.

  /** What the chat-completion call came back with. */
  datatype ModelReply =
    | Threw(message: string)   // the request (or anything before the reply) threw
    | NoToolCall               // no `tool_calls`, or an empty list
    | NoArguments              // the first tool call has no or empty `arguments`
    | Unparsable               // `JSON.parse(arguments)` threw
    | Parsed(json: Value)

  /** `{ ...v }`: an object's own fields; a string or an array spreads into
      index keys "0", "1", ...; any other value spreads into nothing. */
  function Spread(v: Value): (m: map<string, Value>)
    ensures v.Obj? ==> m == v.fields
    ensures !v.Obj? ==> forall key :: key in m ==> |key| >= 1 && IsDigit(key[0])
  {
    NatToStrInjective();
    match v
    case Obj(f) => f
    case Str(s) => map k | 0 <= k < |s| :: NatToStr(k) := Str([s[k]])
    case Arr(es) => map k | 0 <= k < |es| :: NatToStr(k) := es[k]
    case _ => map[]
  }

  /** `parsed.intent && INTENTS[parsed.intent]` as written: the tag is used as a
      property key of the table, so inherited keys such as "constructor" and any
      value that prints as a name (the array `["CHECKOUT"]`) are accepted. */
  predicate AcceptedAsWritten(tag: Value)
  {
    Truthy(tag) && (ToStr(tag) in IntentNames || ToStr(tag) in PrototypeKeys)
  }

  /** The tag is one of the seven intent names. */
  predicate Accepted(tag: Value)
  {
    tag.Str? && tag.s in IntentNames
  }

  /** Lines 126-136 once the reply has been parsed, for a given tag check:
      `None` when reading `parsed.intent` throws (`parsed` is `null`). */
  function PostProcessWith(accept: Value -> bool, parsed: Value, ctx: Context): (r: Option<Detection>)
    ensures r.None? <==> parsed.Null? || parsed.Undefined?
    ensures r.Some? ==> r.value.intent == if accept(Get(parsed, "intent")) then Get(parsed, "intent") else Str("UNKNOWN")
  {
    if parsed.Null? || parsed.Undefined? then None
    else
      var tag := Get(parsed, "intent");
      var intent := if accept(tag) then tag else Str("UNKNOWN");
      var params := Spread(parsed) - {"intent"};
      var params' :=
        if Truthy(ctx.productId) && (intent == Str("ADD_TO_CART") || intent == Str("LIST_PRODUCTS"))
        then params["productId" := OrElse(Lookup(params, "productId"), ctx.productId)]
        else params;
      var params'' :=
        if Truthy(ctx.orderId) && (intent == Str("CHECKOUT") || intent == Str("GET_ORDER_STATUS"))
        then params'["orderId" := OrElse(Lookup(params', "orderId"), ctx.orderId)]
        else params';
      Some(Detection(intent, params''))
  }

  /** Post-processing of a parsed tool call with the intended tag check. */
  function PostProcess(parsed: Value, ctx: Context): (r: Option<Detection>)
    ensures r.None? <==> parsed.Null? || parsed.Undefined?
    ensures r.Some? ==> var d := r.value;
      && d.intent.Str? && d.intent.s in IntentNames
      && (Accepted(Get(parsed, "intent")) ==> d.intent == Get(parsed, "intent"))
      && (!Accepted(Get(parsed, "intent")) ==> d.intent == Str("UNKNOWN"))
      && "intent" !in d.params
      && (forall k :: k in d.params && k != "productId" && k != "orderId" ==>
            k in Spread(parsed) && d.params[k] == Spread(parsed)[k])
      && (forall k :: k in Spread(parsed) && k != "intent" ==> k in d.params)
      && (if Truthy(ctx.productId) && d.intent in {Str("ADD_TO_CART"), Str("LIST_PRODUCTS")}
          then Lookup(d.params, "productId") == OrElse(Lookup(Spread(parsed), "productId"), ctx.productId)
          else Lookup(d.params, "productId") == Lookup(Spread(parsed), "productId"))
      && (if Truthy(ctx.orderId) && d.intent in {Str("CHECKOUT"), Str("GET_ORDER_STATUS")}
          then Lookup(d.params, "orderId") == OrElse(Lookup(Spread(parsed), "orderId"), ctx.orderId)
          else Lookup(d.params, "orderId") == Lookup(Spread(parsed), "orderId"))
  {
    PostProcessWith(Accepted, parsed, ctx)
  }

  /** Post-processing of a parsed tool call as the source writes it. It agrees with
      `PostProcess` whenever the tag is one of the seven names. */
  function PostProcessAsWritten(parsed: Value, ctx: Context): (r: Option<Detection>)
    ensures r.None? <==> parsed.Null? || parsed.Undefined?
    ensures Accepted(Get(parsed, "intent")) ==> r == PostProcess(parsed, ctx)
  {
    PostProcessWith(AcceptedAsWritten, parsed, ctx)
  }

  /** An inherited key of the table passes the tag check as written and comes back
      as the intent, outside the seven names. */
  lemma InheritedKeyEscapes(ctx: Context)
    ensures var r := PostProcessAsWritten(Obj(map["intent" := Str("constructor")]), ctx);
      r.Some? && r.value.intent == Str("constructor") && "constructor" !in IntentNames
  {
    assert ToStr(Str("constructor")) == PrototypeKeys[0];
  }

  /** A one-element array holding a name passes too, and the intent is not a string. */
  lemma ArrayTagEscapes(ctx: Context)
    ensures var tag := Arr([Str("CHECKOUT")]);
      var r := PostProcessAsWritten(Obj(map["intent" := tag]), ctx);
      r.Some? && r.value.intent == tag && !r.value.intent.Str?
  {
    var tag := Arr([Str("CHECKOUT")]);
    assert ToStr(tag) == JoinComma(["CHECKOUT"]);
    assert ToStr(tag) == IntentNames[3];
  }

  /** Lines 110-138: what the model path returns, `None` when it throws. */
  function ModelPath(reply: ModelReply, ctx: Context): (r: Option<Detection>)
    ensures reply.Threw? ==> r.None?
    ensures reply.NoToolCall? || reply.NoArguments? || reply.Unparsable? ==> r == Some(Unknown())
    ensures reply.Parsed? ==> r == PostProcess(reply.json, ctx)
    ensures r.Some? ==> r.value.intent.Str? && r.value.intent.s in IntentNames
  {
    match reply
    case Threw(_) => None
    case Parsed(v) => PostProcess(v, ctx)
    case _ => Some(Unknown())
  }

  /** `getOpenAIClient()` returns a client: the key is set and not blank. */
  predicate KeyUsable(apiKey: Option<string>)
  {
    apiKey.Some? && Trim(apiKey.value) != ""
  }

  /** `(message && String(message).trim()) || ''` */
  function Trimmed(message: Value): (t: string)
    ensures t == "" <==> IsBlank(message)
  {
    if Truthy(message) then Trim(ToStr(message)) else ""
  }

  /** `detectIntent(message, context)`. `ask` is the chat-completion request for the
      trimmed message; it is consulted only with a usable key. */
  function DetectIntent(message: Value, ctx: Context, apiKey: Option<string>,
                        ask: (string, Context) -> ModelReply): (d: Detection)
    ensures IsBlank(message) ==> d == Unknown()
    ensures !IsBlank(message) && !KeyUsable(apiKey) ==> d == Fallback(Trimmed(message), ctx)
    ensures !IsBlank(message) && KeyUsable(apiKey) ==>
      match ModelPath(ask(Trimmed(message), ctx), ctx)
      case Some(m) => d == m
      case None => d == Fallback(Trimmed(message), ctx)
    ensures d.intent.Str? && d.intent.s in IntentNames
  {
    var trimmed := Trimmed(message);
    if trimmed == "" then Unknown()
    else if KeyUsable(apiKey) then
      match ModelPath(ask(trimmed, ctx), ctx)
      case Some(m) => m
      case None => Fallback(trimmed, ctx)
    else Fallback(trimmed, ctx)
  }

  /** The empty check comes before any classifier: a blank message gives the same
      answer whatever the key, the model and the context. */
  lemma BlankIgnoresClassifier(message: Value, c1: Context, c2: Context, k1: Option<string>, k2: Option<string>,
                               a1: (string, Context) -> ModelReply, a2: (string, Context) -> ModelReply)
    requires IsBlank(message)
    ensures DetectIntent(message, c1, k1, a1) == DetectIntent(message, c2, k2, a2) == Unknown()
  {
  }

  /** A reply without a usable tool call is final: the keyword rules are not tried,
      whatever they would have said. */
  lemma BadReplyIsFinal(message: Value, ctx: Context, apiKey: Option<string>, ask: (string, Context) -> ModelReply)
    requires !IsBlank(message) && KeyUsable(apiKey)
    requires ask(Trimmed(message), ctx) in {NoToolCall, NoArguments, Unparsable}
    ensures DetectIntent(message, ctx, apiKey, ask) == Unknown()
  {
  }
}
