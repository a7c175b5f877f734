/** The confirmation agent (src/agents/confirmationAgent.js): one order when an id
    is given, otherwise the user's orders. */
module ConfirmationAgent {
  import opened Wrappers
  import opened Js
  import opened Replies
  import PaymentAgent

  const NoOrders := "You have no orders yet."

  /** Lines 19-27: the message names the order and both of its statuses. */
  function OrderMessage(order: Value): string
  {
    "Order " + ToStr(Get(order, "_id")) + ": " + ToStr(Get(order, "orderStatus"))
    + ", Payment: " + ToStr(Get(order, "paymentStatus")) + "."
  }

  /** Lines 29-37: the summary of the user's orders. */
  function OrdersSummary(orders: seq<Value>): (r: Reply)
    ensures r.kind == "order_confirmed" && r.data == Obj(map["orders" := Arr(orders)])
    ensures r.message == NoOrders <==> orders == []
    ensures orders != [] ==> r.message == "You have " + NatToStr(|orders|) + " order(s)."
    ensures "View order details" in r.suggestions <==> orders != []
  {
    if orders == [] then Reply("order_confirmed", NoOrders, Obj(map["orders" := Arr(orders)]), ["Browse products"])
    else
      var m := "You have " + NatToStr(|orders|) + " order(s).";
      assert m[|m| - 3] != NoOrders[|NoOrders| - 3];
      Reply("order_confirmed", m, Obj(map["orders" := Arr(orders)]), ["View order details", "Browse products"])
  }

  /** `handle({ userId, intent, params, orderId })` */
  function Handle(userId: Value, params: map<string, Value>, orderId: Value,
                  getOrderById: (Value, Value) -> Result<Value>, getOrders: Value -> Result<seq<Value>>)
    : (r: Result<Reply>)
    ensures var oid := PaymentAgent.ResolveOrderId(orderId, params);
      && (!IsBlank(oid) ==>
            match getOrderById(userId, oid)
            case Err(e) => r == Err(e)
            case Ok(order) =>
              r == Ok(Reply("order_confirmed", OrderMessage(order), order, ["Track order", "Browse more"])))
      && (IsBlank(oid) ==>
            match getOrders(userId)
            case Err(e) => r == Err(e)
            case Ok(orders) => r == Ok(OrdersSummary(orders)))
    ensures r.Ok? ==> r.value.kind == "order_confirmed"
  {
    var oid := PaymentAgent.ResolveOrderId(orderId, params);
    if !IsBlank(oid) then
      match getOrderById(userId, oid)
      case Err(e) => Err(e)
      case Ok(order) => Ok(Reply("order_confirmed", OrderMessage(order), order, ["Track order", "Browse more"]))
    else
      match getOrders(userId)
      case Err(e) => Err(e)
      case Ok(orders) => Ok(OrdersSummary(orders))
  }

  /** Without an id the agent never fails for that reason: it fails only when
      listing the orders fails. */
  lemma NoIdStillAnswers(userId: Value, params: map<string, Value>, orderId: Value,
                         getOrderById: (Value, Value) -> Result<Value>, getOrders: Value -> Result<seq<Value>>)
    requires IsBlank(PaymentAgent.ResolveOrderId(orderId, params))
    requires getOrders(userId).Ok?
    ensures Handle(userId, params, orderId, getOrderById, getOrders).Ok?
  {
  }
}
