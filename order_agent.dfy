/** The order agent (src/agents/orderAgent.js): resolves the shipping address,
    places the order and shapes an `order_created` reply. */
module OrderAgent {
  import opened Wrappers
  import opened Js
  import opened Replies

  const AddressRequired :=
    "Shipping address is required to place an order. Please provide fullName, phone, address, city, state, and pincode."
  const OrderSuggestions: seq<string> := ["Proceed to checkout", "View order"]

  /** `shippingAddress || (params && params.shippingAddress)` */
  function ResolveAddress(shippingAddress: Value, params: map<string, Value>): (a: Value)
    ensures Truthy(shippingAddress) ==> a == shippingAddress
    ensures !Truthy(shippingAddress) ==> a == Lookup(params, "shippingAddress")
  {
    OrElse(shippingAddress, Lookup(params, "shippingAddress"))
  }

  /** `!address || typeof address !== 'object'` rejects it. */
  predicate UsableAddress(a: Value)
  {
    Truthy(a) && IsObjectType(a)
  }

  /** Lines 25-35, from the created order. */
  function Created(order: Value): (r: Reply)
    ensures r.kind == "order_created" && r.suggestions == OrderSuggestions
    ensures r.data.Obj? && r.data.fields.Keys == {"orderId", "totalAmount", "items", "shippingAddress"}
    ensures r.data.fields["orderId"] == Str(ToStr(Get(order, "_id")))
    ensures forall k :: k in {"totalAmount", "items", "shippingAddress"} ==> r.data.fields[k] == Get(order, k)
  {
    var id := ToStr(Get(order, "_id"));
    Reply("order_created", "Order placed successfully. Order ID: " + id + ". You can proceed to checkout.",
          Obj(map["orderId" := Str(id), "totalAmount" := Get(order, "totalAmount"),
                  "items" := Get(order, "items"), "shippingAddress" := Get(order, "shippingAddress")]),
          OrderSuggestions)
  }

  /** `handle({ userId, intent, params, shippingAddress })`; `createOrder` is the order
      service's operation, given the user id and the request body it builds. */
  function Handle(userId: Value, params: map<string, Value>, shippingAddress: Value,
                  createOrder: (Value, Value) -> Result<Value>): (r: Result<Reply>)
    ensures !UsableAddress(ResolveAddress(shippingAddress, params)) ==> r == Err(Plain(AddressRequired))
    ensures UsableAddress(ResolveAddress(shippingAddress, params)) ==>
      var body := Obj(map["shippingAddress" := ResolveAddress(shippingAddress, params)]);
      match createOrder(userId, body)
      case Err(e) => r == Err(e)
      case Ok(order) => r == Ok(Created(order))
  {
    var address := ResolveAddress(shippingAddress, params);
    if !UsableAddress(address) then Err(Plain(AddressRequired))
    else
      match createOrder(userId, Obj(map["shippingAddress" := address]))
      case Err(e) => Err(e)
      case Ok(order) => Ok(Created(order))
  }

  /** A non-empty string address is refused before any order is placed. */
  lemma StringAddressRefused(userId: Value, params: map<string, Value>, s: string,
                             createOrder: (Value, Value) -> Result<Value>)
    requires s != ""
    ensures Handle(userId, params, Str(s), createOrder) == Err(Plain(AddressRequired))
  {
  }
}
