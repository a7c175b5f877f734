/** The payment agent (src/agents/paymentAgent.js): resolves the order id, asks the
    payment service for a gateway order and shapes a `checkout_ready` reply. */
module PaymentAgent {
  import opened Wrappers
  import opened Js
  import opened Replies

  const OrderIdRequired :=
    "Order ID is required for checkout. Please place an order first or provide the orderId."
  const CheckoutFields: seq<string> := ["razorpayOrderId", "keyId", "amount", "currency", "orderId"]
  const CheckoutSuggestions: seq<string> := ["Complete payment", "View order"]

  /** `orderId || (params && params.orderId)`, shared by the payment and confirmation agents. */
  function ResolveOrderId(orderId: Value, params: map<string, Value>): (oid: Value)
    ensures Truthy(orderId) ==> oid == orderId
    ensures !Truthy(orderId) ==> oid == Lookup(params, "orderId")
  {
    OrElse(orderId, Lookup(params, "orderId"))
  }

  /** `handle({ userId, intent, params, orderId })`; `createRazorpayOrder` takes the
      order id first and the user id second. */
  function Handle(userId: Value, params: map<string, Value>, orderId: Value,
                  createRazorpayOrder: (Value, Value) -> Result<Value>): (r: Result<Reply>)
    ensures IsBlank(ResolveOrderId(orderId, params)) ==> r == Err(Plain(OrderIdRequired))
    ensures !IsBlank(ResolveOrderId(orderId, params)) ==>
      match createRazorpayOrder(ResolveOrderId(orderId, params), userId)
      case Err(e) => r == Err(e)
      case Ok(data) =>
        r.Ok? && r.value.kind == "checkout_ready" && r.value.suggestions == CheckoutSuggestions
        && r.value.data.Obj? && r.value.data.fields.Keys == set k | k in CheckoutFields
        && forall k :: k in r.value.data.fields ==> r.value.data.fields[k] == Get(data, k)
  {
    var oid := ResolveOrderId(orderId, params);
    if IsBlank(oid) then Err(Plain(OrderIdRequired))
    else
      match createRazorpayOrder(oid, userId)
      case Err(e) => Err(e)
      case Ok(data) =>
        Ok(Reply("checkout_ready",
                 "Proceed to payment. Use the details below to open Razorpay Checkout on the frontend.",
                 Pick(data, CheckoutFields), CheckoutSuggestions))
  }
}
