/** The cases of tests/chat.controller.test.js, and one request run end to end
    through the keyword classifier and the real agents. */
module ChatExamples {
  import opened Wrappers
  import opened Js
  import opened Replies
  import opened IntentService
  import opened Chat
  import ProductAgent
  import IntentExamples

  const SignedIn := Obj(map["id" := Str("user1")])

  /** No `req.user`: 401 with the log-in message. */
  lemma MissingUser(classify: (Value, Context) -> Detection, run: AgentCall -> Result<Value>)
    ensures var r := Handle(Request(Obj(map["message" := Str("hello")]), Null), classify, run);
      r.status == 401 && Get(r.body, "type") == Str("error")
      && Get(r.body, "message") == Str("Unauthorized. Please log in.")
  {
  }

  /** A listing intent: the product agent's result is the body, as it is. */
  lemma ListingPassesThrough(classify: (Value, Context) -> Detection, run: AgentCall -> Result<Value>, result: Value)
    requires forall m, c :: classify(m, c) == Detection(Str("LIST_PRODUCTS"), map[])
    requires forall call: AgentCall :: call.ProductCall? ==> run(call) == Ok(result)
    ensures Handle(Request(Obj(map["message" := Str("show products")]), SignedIn), classify, run)
         == Response(200, result)
  {
  }

  /** UNKNOWN: the fixed help reply, with status 200. */
  lemma UnknownHelps(classify: (Value, Context) -> Detection, run: AgentCall -> Result<Value>)
    requires forall m, c :: classify(m, c) == Unknown()
    ensures var r := Handle(Request(Obj(map["message" := Str("random text")]), SignedIn), classify, run);
      r.status == 200 && Get(r.body, "type") == Str("unknown") && Get(r.body, "data") == Null
  {
  }

  /** An agent that throws a plain error: 500 with its message. */
  lemma AgentFailureIs500(classify: (Value, Context) -> Detection, run: AgentCall -> Result<Value>)
    requires forall m, c :: classify(m, c) == Detection(Str("LIST_PRODUCTS"), map[])
    requires forall call :: run(call) == Err(Plain("DB connection failed"))
    ensures Handle(Request(Obj(map["message" := Str("show products")]), SignedIn), classify, run)
         == Response(500, Obj(map["type" := Str("error"), "message" := Str("DB connection failed"), "data" := Null]))
  {
  }

  /** A signed-in request whose dispatched call fails is answered with that failure. */
  lemma FailedCall(req: Request, classify: (Value, Context) -> Detection, run: AgentCall -> Result<Value>,
                   call: AgentCall, e: Failure)
    requires Truthy(UserId(req))
    requires Dispatch(classify(OrElse(BodyField(req, "message"), Str("")),
                               Context(BodyField(req, "productId"), BodyField(req, "orderId"))),
                      UserId(req), req) == Some(call)
    requires run(call) == Err(e)
    ensures Handle(req, classify, run) == ErrorResponse(e)
  {
  }

  const LaptopsParams := map["maxPrice" := Num(50000)]
  const MissingSearch := Plain("productsService.searchWithFilters is not a function")

  lemma LaptopsClassified(ask: (string, Context) -> ModelReply)
    ensures DetectIntent(Str(IntentExamples.Laptops), IntentExamples.NoContext, IntentExamples.BlankKey, ask)
         == Detection(Str("LIST_PRODUCTS"), LaptopsParams)
  {
    IntentExamples.ShowLaptopsUnder50000(ask);
  }

  lemma LaptopsListingFails(svc: Services)
    requires svc.catalog == ProductAgent.ServiceAsWritten(svc.catalog.getProducts)
    ensures RunAgent(ProductCall(Str("user1"), Str("LIST_PRODUCTS"), LaptopsParams), svc) == Err(MissingSearch)
  {
    assert ProductAgent.HasFilters(ProductAgent.NormalizeFilters(LaptopsParams));
    ProductAgent.FilteredListingFailsAsWritten(LaptopsParams, svc.catalog.getProducts);
  }

  /** A message the classifier reads as a listing bounded by 50000. */
  lemma BoundedListingFails(message: string, classify: (Value, Context) -> Detection, svc: Services)
    requires classify(Str(message), IntentExamples.NoContext) == Detection(Str("LIST_PRODUCTS"), LaptopsParams)
    requires svc.catalog == ProductAgent.ServiceAsWritten(svc.catalog.getProducts)
    ensures Handle(Request(Obj(map["message" := Str(message)]), SignedIn), classify, call => RunAgent(call, svc))
         == ErrorResponse(MissingSearch)
  {
    var req := Request(Obj(map["message" := Str(message)]), SignedIn);
    var run := call => RunAgent(call, svc);
    var call := ProductCall(Str("user1"), Str("LIST_PRODUCTS"), LaptopsParams);
    assert Context(BodyField(req, "productId"), BodyField(req, "orderId")) == IntentExamples.NoContext;
    assert OrElse(BodyField(req, "message"), Str("")) == Str(message);
    assert Dispatch(Detection(Str("LIST_PRODUCTS"), LaptopsParams), UserId(req), req) == Some(call);
    LaptopsListingFails(svc);
    FailedCall(req, classify, run, call, MissingSearch);
  }

  /** "show laptops under 50000" end to end, with the products service as it is
      exported: the price bound makes it a filtered listing, the search does not
      exist, and the user gets a 500. */
  lemma FilteredListingEndToEnd(ask: (string, Context) -> ModelReply, svc: Services)
    requires svc.catalog == ProductAgent.ServiceAsWritten(svc.catalog.getProducts)
    ensures Handle(Request(Obj(map["message" := Str(IntentExamples.Laptops)]), SignedIn),
                   (m, c) => DetectIntent(m, c, IntentExamples.BlankKey, ask),
                   call => RunAgent(call, svc))
         == ErrorResponse(MissingSearch)
  {
    LaptopsClassified(ask);
    BoundedListingFails(IntentExamples.Laptops, (m, c) => DetectIntent(m, c, IntentExamples.BlankKey, ask), svc);
  }

  /** That response is a 500 carrying the TypeError's message. */
  lemma MissingSearchResponse()
    ensures ErrorResponse(MissingSearch)
         == Response(500, Obj(map["type" := Str("error"), "message" := Str(MissingSearch.message), "data" := Null]))
  {
  }
}
