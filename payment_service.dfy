/** The payment service (src/services/payment.service.js): opening a Razorpay order
    for one of the user's orders and confirming the payment the checkout reports.
    On an order these are transitions of its payment status and gateway order id;
    the Razorpay client and the HMAC signature check are parameters. */
module PaymentService {
  import opened Wrappers
  import opened Js
  import opened Store
  import opened OrderService

  const KeysMissing := "Razorpay keys are not configured"
  const AlreadyPaid := "Order is already paid"
  const AmountTooSmall := "Amount must be at least 1 INR"
  const MissingFields := "Missing required fields: orderId, razorpayOrderId, razorpayPaymentId, razorpaySignature"
  const OrderMismatch := "Razorpay order does not match"
  const BadSignature := "Invalid payment signature"

  /** `config.razorpay`: the key pair and the optional currency. */
  datatype Config = Config(keyId: Value, keySecret: Value, currency: Value)

  /** `razorpayConfig.currency || 'INR'` */
  function Currency(c: Config): (r: Value)
    ensures Truthy(c.currency) ==> r == c.currency
    ensures !Truthy(c.currency) ==> r == Str("INR")
  {
    OrElse(c.currency, Str("INR"))
  }

  /** The fields of an order the payment service reads and writes. Money is in
      integer paise, so `Math.round(order.totalAmount * 100)` is the total itself. */
  datatype Billing = Billing(id: string, totalAmount: int, paymentStatus: PaymentStatus,
                             razorpayOrderId: Option<string>)

  /** `{ amount, currency, receipt }` as sent to `razorpay.orders.create`. */
  datatype GatewayRequest = GatewayRequest(amount: int, currency: Value, receipt: string)

  /** The five fields Checkout needs on the frontend. */
  datatype CheckoutData = CheckoutData(razorpayOrderId: string, keyId: Value, amount: int,
                                       currency: Value, orderId: string)

  /** Lines 34-61, once the order is found: `receipt` is `orderId.toString()` and
      `gateway` the Razorpay client, answering with the new gateway order's id. */
  function StartCheckout(b: Billing, config: Config, gateway: GatewayRequest -> Result<string>,
                         receipt: string): (r: Result<CheckoutData>)
    ensures b.paymentStatus == Paid ==> r == Err(Plain(AlreadyPaid))
    ensures b.paymentStatus != Paid && b.totalAmount < 100 ==> r == Err(Plain(AmountTooSmall))
    ensures b.paymentStatus != Paid && b.totalAmount >= 100 && !(Truthy(config.keyId) && Truthy(config.keySecret))
            ==> r == Err(Plain(KeysMissing))
    ensures r.Ok? <==>
      && b.paymentStatus != Paid && b.totalAmount >= 100
      && Truthy(config.keyId) && Truthy(config.keySecret)
      && gateway(GatewayRequest(b.totalAmount, Currency(config), receipt)).Ok?
    ensures r.Ok? ==>
      var g := gateway(GatewayRequest(b.totalAmount, Currency(config), receipt)).value;
      r.value == CheckoutData(g, config.keyId, b.totalAmount, Currency(config), b.id)
  {
    if b.paymentStatus == Paid then Err(Plain(AlreadyPaid))
    else if b.totalAmount < 100 then Err(Plain(AmountTooSmall))
    else if !Truthy(config.keyId) || !Truthy(config.keySecret) then Err(Plain(KeysMissing))
    else
      match gateway(GatewayRequest(b.totalAmount, Currency(config), receipt))
      case Err(e) => Err(e)
      case Ok(g) => Ok(CheckoutData(g, config.keyId, b.totalAmount, Currency(config), b.id))
  }

  /** The order after `StartCheckout`: only the gateway order id changes, and only
      when the checkout went through. */
  function AfterCheckout(b: Billing, r: Result<CheckoutData>): Billing
  {
    if r.Ok? then b.(razorpayOrderId := Some(r.value.razorpayOrderId)) else b
  }

  /** The four fields `verifyPayment` destructures from its body. */
  datatype Fields = Fields(orderId: Value, razorpayOrderId: Value, razorpayPaymentId: Value,
                           razorpaySignature: Value)

  /** The TypeError of destructuring `null` or `undefined`. */
  function DestructureError(body: Value): Failure
  {
    Plain("Cannot destructure property 'orderId' of 'body' as it is " + (if body.Null? then "null." else "undefined."))
  }

  /** Lines 70-74. */
  function ReadFields(body: Value): (r: Result<Fields>)
    ensures body.Undefined? || body.Null? ==> r == Err(DestructureError(body))
    ensures !(body.Undefined? || body.Null?) ==>
      (r.Ok? <==> Truthy(Get(body, "orderId")) && Truthy(Get(body, "razorpayOrderId"))
                  && Truthy(Get(body, "razorpayPaymentId")) && Truthy(Get(body, "razorpaySignature")))
    ensures !(body.Undefined? || body.Null?) && r.Err? ==> r == Err(Plain(MissingFields))
    ensures r.Ok? ==> r.value == Fields(Get(body, "orderId"), Get(body, "razorpayOrderId"),
                                        Get(body, "razorpayPaymentId"), Get(body, "razorpaySignature"))
  {
    if body.Undefined? || body.Null? then Err(DestructureError(body))
    else
      var f := Fields(Get(body, "orderId"), Get(body, "razorpayOrderId"),
                      Get(body, "razorpayPaymentId"), Get(body, "razorpaySignature"));
      if !Truthy(f.orderId) || !Truthy(f.razorpayOrderId) || !Truthy(f.razorpayPaymentId)
         || !Truthy(f.razorpaySignature)
      then Err(Plain(MissingFields))
      else Ok(f)
  }

  /** `order.razorpayOrderId === razorpayOrderId`: the stored id defaults to `null`. */
  predicate SameGatewayOrder(stored: Option<string>, given: Value)
  {
    match stored
    case None => given.Null?
    case Some(s) => given == Str(s)
  }

  /** Lines 84-99, once the order is found; `sigOk` is the HMAC check's verdict.
      `Ok(true)` is the already-paid answer, `Ok(false)` marks the order paid. */
  function VerifyStep(b: Billing, f: Fields, sigOk: bool): (r: Result<bool>)
    ensures b.paymentStatus == Paid <==> r == Ok(true)
    ensures b.paymentStatus != Paid && !SameGatewayOrder(b.razorpayOrderId, f.razorpayOrderId)
            ==> r == Err(Plain(OrderMismatch))
    ensures b.paymentStatus != Paid && SameGatewayOrder(b.razorpayOrderId, f.razorpayOrderId) && !sigOk
            ==> r == Err(Plain(BadSignature))
    ensures r == Ok(false) <==>
      b.paymentStatus != Paid && SameGatewayOrder(b.razorpayOrderId, f.razorpayOrderId) && sigOk
  {
    if b.paymentStatus == Paid then Ok(true)
    else if !SameGatewayOrder(b.razorpayOrderId, f.razorpayOrderId) then Err(Plain(OrderMismatch))
    else if !sigOk then Err(Plain(BadSignature))
    else Ok(false)
  }

  /** The order after `VerifyStep`: paid exactly when the step said so. */
  function AfterVerify(b: Billing, r: Result<bool>): Billing
  {
    if r == Ok(false) then b.(paymentStatus := Paid) else b
  }

  /** An order that never went through checkout cannot be paid: the body's gateway
      order id is present, so it differs from the stored `null`. */
  lemma NoPaymentBeforeCheckout(b: Billing, f: Fields, sigOk: bool)
    requires b.paymentStatus != Paid && b.razorpayOrderId.None?
    requires Truthy(f.razorpayOrderId)
    ensures VerifyStep(b, f, sigOk) == Err(Plain(OrderMismatch))
    ensures AfterVerify(b, VerifyStep(b, f, sigOk)) == b
  {
  }

  /** What can happen to one order: a checkout request or a payment confirmation
      (with the signature check's verdict). */
  datatype Event =
    | Checkout(config: Config, gateway: GatewayRequest -> Result<string>, receipt: string)
    | Confirm(fields: Fields, sigOk: bool)

  function Step(b: Billing, e: Event): Billing
  {
    match e
    case Checkout(config, gateway, receipt) => AfterCheckout(b, StartCheckout(b, config, gateway, receipt))
    case Confirm(f, sigOk) => AfterVerify(b, VerifyStep(b, f, sigOk))
  }

  /** The order after a sequence of events, applied in order. */
  function Run(b: Billing, events: seq<Event>): Billing
  {
    if events == [] then b else Step(Run(b, events[..|events| - 1]), events[|events| - 1])
  }

  /** PAID is terminal: once paid, no event changes the order at all. */
  lemma {:induction false} PaidIsTerminal(b: Billing, events: seq<Event>)
    requires b.paymentStatus == Paid
    ensures Run(b, events) == b
  {
    if events != [] {
      PaidIsTerminal(b, events[..|events| - 1]);
    }
  }

  /** Events never change an order's id or total. */
  lemma {:induction false} RunKeepsOrder(b: Billing, events: seq<Event>)
    ensures Run(b, events).id == b.id && Run(b, events).totalAmount == b.totalAmount
  {
    if events != [] {
      RunKeepsOrder(b, events[..|events| - 1]);
    }
  }

  /** An unpaid order becomes paid only through a confirmation whose signature
      checked out and whose gateway order id was the one stored at that moment. */
  lemma {:induction false} PaidOnlyBySignature(b: Billing, events: seq<Event>)
    requires b.paymentStatus != Paid && Run(b, events).paymentStatus == Paid
    ensures exists i :: 0 <= i < |events| && events[i].Confirm? && events[i].sigOk
                        && SameGatewayOrder(Run(b, events[..i]).razorpayOrderId, events[i].fields.razorpayOrderId)
  {
    var n := |events| - 1;
    var init := events[..n];
    if Run(b, init).paymentStatus == Paid {
      PaidOnlyBySignature(b, init);
      var i :| 0 <= i < |init| && init[i].Confirm? && init[i].sigOk
                && SameGatewayOrder(Run(b, init[..i]).razorpayOrderId, init[i].fields.razorpayOrderId);
      assert init[..i] == events[..i];
    } else {
      assert events[..n] == init;
    }
  }

  /** The payment document (src/models/Payment.js) as `verifyPayment` writes it. */
  datatype PaymentRecord = PaymentRecord(order: string, user: string, provider: string, paymentId: Value,
                                         status: string, amount: int, currency: Value)

  /** Lines 104-116: the record upserted for a confirmed payment. */
  function SuccessRecord(b: Billing, userId: string, f: Fields, config: Config): PaymentRecord
  {
    PaymentRecord(b.id, userId, "Razorpay", f.razorpayPaymentId, "SUCCESS", b.totalAmount, Currency(config))
  }

  /** What `verifyPayment` returns. */
  datatype Verification = Verification(order: OrderDoc, payment: Option<PaymentRecord>, alreadyPaid: bool)

  function BillingOf(o: OrderDoc): Billing
    reads o
  {
    Billing(o.id, o.totalAmount, o.paymentStatus, o.razorpayOrderId)
  }

  /** Lines 25-62. The order is looked up as `getOrderById` does. */
  method CreateRazorpayOrder(store: OrderService, ids: Ids, config: Config,
                             gateway: GatewayRequest -> Result<string>, orderId: Value, userId: string)
    returns (r: Result<CheckoutData>)
    requires store.Valid()
    modifies store.orders.Values
    ensures store.Valid()
    ensures match old(store.GetOrderById(ids, userId, orderId))
            case Err(e) => r == Err(e) && unchanged(store.orders.Values)
            case Ok(o) =>
              && r == StartCheckout(old(BillingOf(o)), config, gateway, ToStr(orderId))
              && BillingOf(o) == AfterCheckout(old(BillingOf(o)), r)
              && o.orderStatus == old(o.orderStatus)
              && unchanged(store.orders.Values - {o})
  {
    var found := store.GetOrderById(ids, userId, orderId);
    if found.Err? {
      return Err(found.error);
    }
    var order := found.value;
    if order.paymentStatus == Paid {
      return Err(Plain(AlreadyPaid));
    }
    var amount := order.totalAmount;
    if amount < 100 {
      return Err(Plain(AmountTooSmall));
    }
    if !Truthy(config.keyId) || !Truthy(config.keySecret) {
      return Err(Plain(KeysMissing));
    }
    var created := gateway(GatewayRequest(amount, Currency(config), ToStr(orderId)));
    if created.Err? {
      return Err(created.error);
    }
    order.razorpayOrderId := Some(created.value);
    r := Ok(CheckoutData(created.value, config.keyId, order.totalAmount, Currency(config), order.id));
  }

  /** The payment collection: at most one record per order, keyed by it. */
  class Payments {
    var byOrder: map<string, PaymentRecord>

    ghost predicate Valid()
      reads this
    {
      forall id :: id in byOrder ==> byOrder[id].order == id && byOrder[id].amount >= 0
    }

    constructor ()
      ensures byOrder == map[] && Valid()
    {
      byOrder := map[];
    }

    /** `Payment.findOne({ order: order._id })` */
    function Find(orderId: string): (p: Option<PaymentRecord>)
      reads this
      ensures p.Some? <==> orderId in byOrder
      ensures p.Some? ==> p.value == byOrder[orderId]
    {
      if orderId in byOrder then Some(byOrder[orderId]) else None
    }

    /** Lines 69-119. `verifySig` is `verifyRazorpaySignature`. */
    method VerifyPayment(store: OrderService, ids: Ids, config: Config,
                         verifySig: (Value, Value, Value, Value) -> bool, userId: string, body: Value)
      returns (r: Result<Verification>)
      requires Valid() && store.Valid()
      modifies this, store.orders.Values
      ensures Valid() && store.Valid()
      ensures match ReadFields(body)
              case Err(e) => r == Err(e) && unchanged(this) && unchanged(store.orders.Values)
              case Ok(f) =>
                match old(store.GetOrderById(ids, userId, f.orderId))
                case Err(e) => r == Err(e) && unchanged(this) && unchanged(store.orders.Values)
                case Ok(o) =>
                  var sigOk := verifySig(f.razorpayOrderId, f.razorpayPaymentId, f.razorpaySignature, config.keySecret);
                  var step := VerifyStep(old(BillingOf(o)), f, sigOk);
                  && BillingOf(o) == AfterVerify(old(BillingOf(o)), step)
                  && o.orderStatus == old(o.orderStatus)
                  && unchanged(store.orders.Values - {o})
                  && match step
                     case Err(e) => r == Err(e) && unchanged(this)
                     case Ok(true) => r == Ok(Verification(o, old(Find(o.id)), true)) && unchanged(this)
                     case Ok(false) =>
                       var p := SuccessRecord(old(BillingOf(o)), userId, f, config);
                       && byOrder == old(byOrder)[o.id := p]
                       && r == Ok(Verification(o, Some(p), false))
    {
      var fields := ReadFields(body);
      if fields.Err? {
        return Err(fields.error);
      }
      var f := fields.value;
      var found := store.GetOrderById(ids, userId, f.orderId);
      if found.Err? {
        return Err(found.error);
      }
      var order := found.value;
      if order.paymentStatus == Paid {
        return Ok(Verification(order, Find(order.id), true));
      }
      if !SameGatewayOrder(order.razorpayOrderId, f.razorpayOrderId) {
        return Err(Plain(OrderMismatch));
      }
      var isValid := verifySig(f.razorpayOrderId, f.razorpayPaymentId, f.razorpaySignature, config.keySecret);
      if !isValid {
        return Err(Plain(BadSignature));
      }
      order.paymentStatus := Paid;
      var p := PaymentRecord(order.id, userId, "Razorpay", f.razorpayPaymentId, "SUCCESS",
                             order.totalAmount, Currency(config));
      byOrder := byOrder[order.id := p];
      r := Ok(Verification(order, Some(p), false));
    }
  }
}
