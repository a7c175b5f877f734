/** The chat endpoint (src/controllers/chat.controller.js): authenticate, classify
    the message, hand it to one agent and turn every outcome, errors included, into
    one `(status, body)` response. */
module Chat {
  import opened Wrappers
  import opened Js
  import opened Replies
  import opened IntentService
  import ProductAgent
  import CartAgent
  import OrderAgent
  import PaymentAgent
  import ConfirmationAgent

  /** `req.body` and `req.user` as the route hands them over. */
  datatype Request = Request(body: Value, user: Value)

  /** `res.status(status).json(body)` */
  datatype Response = Response(status: int, body: Value)

  /** The call the switch makes, with the arguments that agent receives. */
  datatype AgentCall =
    | ProductCall(userId: Value, intent: Value, params: map<string, Value>)
    | CartCall(userId: Value, intent: Value, params: map<string, Value>, productId: Value, quantity: Value)
    | OrderCall(userId: Value, intent: Value, params: map<string, Value>, shippingAddress: Value)
    | PaymentCall(userId: Value, intent: Value, params: map<string, Value>, orderId: Value)
    | ConfirmationCall(userId: Value, intent: Value, params: map<string, Value>, orderId: Value)

  const UnauthorizedMessage := "Unauthorized. Please log in."
  const DefaultErrorMessage := "Something went wrong. Please try again."
  const UnknownReply := Reply("unknown",
    "I didn't understand that. You can ask to list products, add to cart, view cart, place order, or checkout.",
    Null, ["List products", "View cart", "Place order"])

  /** A field of `req.body || {}`. */
  function BodyField(req: Request, key: string): Value
  {
    Get(OrElse(req.body, Obj(map[])), key)
  }

  /** `req.user && req.user.id` */
  function UserId(req: Request): Value
  {
    AndGet(req.user, "id")
  }

  /** The tag names the switch compares against. */
  const DispatchedIntents: set<Value> :=
    {Str("LIST_PRODUCTS"), Str("ADD_TO_CART"), Str("GET_CART"), Str("PLACE_ORDER"), Str("CHECKOUT"), Str("GET_ORDER_STATUS")}

  /** Lines 35-59: which agent the intent goes to, and with what. */
  function Dispatch(d: Detection, userId: Value, req: Request): (c: Option<AgentCall>)
    ensures c.None? <==> d.intent !in DispatchedIntents
    ensures c.Some? ==> c.value.userId == userId && c.value.intent == d.intent && c.value.params == d.params
    ensures d.intent == Str("LIST_PRODUCTS") <==> c.Some? && c.value.ProductCall?
    ensures d.intent in {Str("ADD_TO_CART"), Str("GET_CART")} <==> c.Some? && c.value.CartCall?
    ensures d.intent == Str("PLACE_ORDER") <==> c.Some? && c.value.OrderCall?
    ensures d.intent == Str("CHECKOUT") <==> c.Some? && c.value.PaymentCall?
    ensures d.intent == Str("GET_ORDER_STATUS") <==> c.Some? && c.value.ConfirmationCall?
    ensures c.Some? && c.value.CartCall? ==>
      c.value.productId == BodyField(req, "productId") && c.value.quantity == BodyField(req, "quantity")
    ensures c.Some? && c.value.OrderCall? ==> c.value.shippingAddress == BodyField(req, "shippingAddress")
    ensures c.Some? && (c.value.PaymentCall? || c.value.ConfirmationCall?) ==>
      c.value.orderId == BodyField(req, "orderId")
  {
    var i := d.intent;
    if i == Str("LIST_PRODUCTS") then Some(ProductCall(userId, i, d.params))
    else if i == Str("ADD_TO_CART") || i == Str("GET_CART") then
      Some(CartCall(userId, i, d.params, BodyField(req, "productId"), BodyField(req, "quantity")))
    else if i == Str("PLACE_ORDER") then Some(OrderCall(userId, i, d.params, BodyField(req, "shippingAddress")))
    else if i == Str("CHECKOUT") then Some(PaymentCall(userId, i, d.params, BodyField(req, "orderId")))
    else if i == Str("GET_ORDER_STATUS") then Some(ConfirmationCall(userId, i, d.params, BodyField(req, "orderId")))
    else None
  }

  /** Lines 62-67: a thrown error as a response. */
  function ErrorResponse(e: Failure): (r: Response)
    ensures r.status == (if e.statusCode != 0 then e.statusCode else 500)
    ensures r.status != 0
    ensures r.body == Obj(map["type" := Str("error"),
                              "message" := Str(if e.message != "" then e.message else DefaultErrorMessage),
                              "data" := Null])
  {
    Response(if e.statusCode != 0 then e.statusCode else 500,
             Obj(map["type" := Str("error"),
                     "message" := Str(if e.message != "" then e.message else DefaultErrorMessage),
                     "data" := Null]))
  }

  /** `chat(req, res)`. `classify` is `detectIntent`; `run` performs the agent call. */
  function Handle(req: Request, classify: (Value, Context) -> Detection, run: AgentCall -> Result<Value>)
    : (r: Response)
    ensures !Truthy(UserId(req)) ==>
      r == Response(401, Obj(map["type" := Str("error"), "message" := Str(UnauthorizedMessage)]))
    ensures Truthy(UserId(req)) ==>
      var d := classify(OrElse(BodyField(req, "message"), Str("")),
                        Context(BodyField(req, "productId"), BodyField(req, "orderId")));
      match Dispatch(d, UserId(req), req)
      case None => r == Response(200, UnknownReply.Json())
      case Some(call) =>
        match run(call)
        case Ok(result) => r == Response(200, result)
        case Err(e) => r == ErrorResponse(e)
  {
    var userId := UserId(req);
    if !Truthy(userId) then
      Response(401, Obj(map["type" := Str("error"), "message" := Str(UnauthorizedMessage)]))
    else
      var context := Context(BodyField(req, "productId"), BodyField(req, "orderId"));
      var d := classify(OrElse(BodyField(req, "message"), Str("")), context);
      match Dispatch(d, userId, req)
      case None => Response(200, UnknownReply.Json())
      case Some(call) =>
        match run(call)
        case Ok(result) => Response(200, result)
        case Err(e) => ErrorResponse(e)
  }

  /** Without a user neither the classifier nor any agent is consulted. */
  lemma UnauthenticatedSkipsEverything(req: Request, c1: (Value, Context) -> Detection, c2: (Value, Context) -> Detection,
                                       r1: AgentCall -> Result<Value>, r2: AgentCall -> Result<Value>)
    requires !Truthy(UserId(req))
    ensures Handle(req, c1, r1) == Handle(req, c2, r2)
    ensures Handle(req, c1, r1).status == 401
  {
  }

  /** Exactly one agent call matters: two agent layers that agree on the call the
      switch makes give the same response. */
  lemma OneAgentPerRequest(req: Request, classify: (Value, Context) -> Detection,
                           r1: AgentCall -> Result<Value>, r2: AgentCall -> Result<Value>)
    requires Truthy(UserId(req))
    requires var d := classify(OrElse(BodyField(req, "message"), Str("")),
                               Context(BodyField(req, "productId"), BodyField(req, "orderId")));
             forall call :: Dispatch(d, UserId(req), req) == Some(call) ==> r1(call) == r2(call)
    ensures Handle(req, classify, r1) == Handle(req, classify, r2)
  {
  }

  /** Every request is answered with 401, 200, or the error's status (500 by default). */
  lemma StatusIsOneOfThree(req: Request, classify: (Value, Context) -> Detection, run: AgentCall -> Result<Value>)
    ensures var r := Handle(req, classify, run);
      r.status == 401 || r.status == 200
      || (exists e: Failure :: r == ErrorResponse(e))
  {
    var r := Handle(req, classify, run);
    if Truthy(UserId(req)) {
      var d := classify(OrElse(BodyField(req, "message"), Str("")),
                        Context(BodyField(req, "productId"), BodyField(req, "orderId")));
      match Dispatch(d, UserId(req), req)
      case None =>
      case Some(call) =>
        match run(call)
        case Ok(_) =>
        case Err(e) => assert r == ErrorResponse(e);
    }
  }

  // ---------------------------------------------------------------------------
  // The agents behind the switch.

  /** The service operations the five agents call. */
  datatype Services = Services(
    catalog: ProductAgent.Catalog,
    getCart: Value -> Result<Value>,
    addItem: (Value, Value, Value) -> Result<Value>,
    createOrder: (Value, Value) -> Result<Value>,
    createRazorpayOrder: (Value, Value) -> Result<Value>,
    getOrderById: (Value, Value) -> Result<Value>,
    getOrders: Value -> Result<seq<Value>>)

  function AsJson(r: Result<Reply>): Result<Value>
  {
    match r
    case Ok(reply) => Ok(reply.Json())
    case Err(e) => Err(e)
  }

  /** The agent the call names, run against the services. */
  function RunAgent(call: AgentCall, svc: Services): (r: Result<Value>)
    ensures call.ProductCall? ==> r == AsJson(ProductAgent.Handle(call.params, svc.catalog))
    ensures call.CartCall? ==>
      r == AsJson(CartAgent.Handle(call.userId, call.intent, call.params, call.productId, call.quantity,
                                   svc.getCart, svc.addItem))
    ensures call.OrderCall? ==>
      r == AsJson(OrderAgent.Handle(call.userId, call.params, call.shippingAddress, svc.createOrder))
    ensures call.PaymentCall? ==>
      r == AsJson(PaymentAgent.Handle(call.userId, call.params, call.orderId, svc.createRazorpayOrder))
    ensures call.ConfirmationCall? ==>
      r == AsJson(ConfirmationAgent.Handle(call.userId, call.params, call.orderId, svc.getOrderById, svc.getOrders))
  {
    match call
    case ProductCall(_, _, params) => AsJson(ProductAgent.Handle(params, svc.catalog))
    case CartCall(userId, intent, params, productId, quantity) =>
      AsJson(CartAgent.Handle(userId, intent, params, productId, quantity, svc.getCart, svc.addItem))
    case OrderCall(userId, _, params, address) =>
      AsJson(OrderAgent.Handle(userId, params, address, svc.createOrder))
    case PaymentCall(userId, _, params, orderId) =>
      AsJson(PaymentAgent.Handle(userId, params, orderId, svc.createRazorpayOrder))
    case ConfirmationCall(userId, _, params, orderId) =>
      AsJson(ConfirmationAgent.Handle(userId, params, orderId, svc.getOrderById, svc.getOrders))
  }
}
