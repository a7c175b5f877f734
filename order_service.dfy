/** The order service (src/services/order.service.js): shipping-address validation,
    turning a user's cart into an order, and reading one order back. */
module OrderService {
  import opened Wrappers
  import opened Js
  import opened CartModel
  import opened Store
  import opened CartService

  /** Line 6, in the order the fields are checked. */
  const AddressFields: seq<string> := ["fullName", "phone", "address", "city", "state", "pincode"]

  const AddressRequired := "Shipping address is required"
  const CartEmpty := "Cart is empty"
  const InvalidOrderId := "Invalid order id"
  const OrderNotFound := "Order not found"

  /** A validated shipping address. */
  datatype Address = Address(fullName: string, phone: string, address: string,
                             city: string, state: string, pincode: string)

  /** Every field is present, with no white space at either end. */
  predicate Clean(s: string)
  {
    s != [] && !IsSpace(s[0]) && !IsSpace(s[|s| - 1])
  }

  predicate CleanAddress(a: Address)
  {
    Clean(a.fullName) && Clean(a.phone) && Clean(a.address) && Clean(a.city) && Clean(a.state) && Clean(a.pincode)
  }

  /** The first field, in `fields` order, that `a` lacks or holds only white space. */
  function FirstMissing(a: Value, fields: seq<string>): (r: Option<nat>)
    ensures r.None? <==> forall k :: 0 <= k < |fields| ==> !IsBlank(Get(a, fields[k]))
    ensures r.Some? ==> r.value < |fields| && IsBlank(Get(a, fields[r.value]))
                        && forall k :: 0 <= k < r.value ==> !IsBlank(Get(a, fields[k]))
  {
    FirstMissingFrom(a, fields, 0)
  }

  function FirstMissingFrom(a: Value, fields: seq<string>, i: nat): (r: Option<nat>)
    requires i <= |fields|
    ensures r.None? <==> forall k :: i <= k < |fields| ==> !IsBlank(Get(a, fields[k]))
    ensures r.Some? ==> i <= r.value < |fields| && IsBlank(Get(a, fields[r.value]))
                        && forall k :: i <= k < r.value ==> !IsBlank(Get(a, fields[k]))
    decreases |fields| - i
  {
    if i == |fields| then None
    else if IsBlank(Get(a, fields[i])) then Some(i)
    else FirstMissingFrom(a, fields, i + 1)
  }

  /** `String(v).trim()` of a field known not to be blank. */
  function Field(a: Value, name: string): (s: string)
    requires !IsBlank(Get(a, name))
    ensures Clean(s)
  {
    TrimIsSlice(ToStr(Get(a, name)));
    Trim(ToStr(Get(a, name)))
  }

  /** `body.shippingAddress` on a `null` or `undefined` body. */
  function ReadError(body: Value): Failure
  {
    Plain("Cannot read properties of " + (if body.Null? then "null" else "undefined") + " (reading 'shippingAddress')")
  }

  /** Lines 8-26. */
  function ValidateShippingAddress(body: Value): (r: Result<Address>)
    ensures (body.Undefined? || body.Null?) ==> r == Err(ReadError(body))
    ensures !(body.Undefined? || body.Null?) ==>
      var a := OrElse(Get(body, "shippingAddress"), body);
      && (r.Ok? <==> Truthy(a) && IsObjectType(a) && forall k :: 0 <= k < |AddressFields| ==> !IsBlank(Get(a, AddressFields[k])))
      && (!(Truthy(a) && IsObjectType(a)) ==> r == Err(Plain(AddressRequired)))
      && (r.Err? && Truthy(a) && IsObjectType(a) ==>
            exists k :: 0 <= k < |AddressFields| && IsBlank(Get(a, AddressFields[k]))
                        && (forall j :: 0 <= j < k ==> !IsBlank(Get(a, AddressFields[j])))
                        && r == Err(Plain("Shipping address " + AddressFields[k] + " is required")))
    ensures r.Ok? ==> CleanAddress(r.value)
  {
    if body.Undefined? || body.Null? then Err(ReadError(body))
    else
      var a := OrElse(Get(body, "shippingAddress"), body);
      if !Truthy(a) || !IsObjectType(a) then Err(Plain(AddressRequired))
      else
        match FirstMissing(a, AddressFields)
        case Some(k) => Err(Plain("Shipping address " + AddressFields[k] + " is required"))
        case None =>
          assert forall k :: 0 <= k < |AddressFields| ==> !IsBlank(Get(a, AddressFields[k]));
          assert !IsBlank(Get(a, AddressFields[0])) && !IsBlank(Get(a, AddressFields[1]))
              && !IsBlank(Get(a, AddressFields[2])) && !IsBlank(Get(a, AddressFields[3]))
              && !IsBlank(Get(a, AddressFields[4])) && !IsBlank(Get(a, AddressFields[5]));
          Ok(Address(Field(a, "fullName"), Field(a, "phone"), Field(a, "address"),
                     Field(a, "city"), Field(a, "state"), Field(a, "pincode")))
  }

  /** An order line: what the order remembers of a cart line. */
  datatype OrderItem = OrderItem(product: string, name: string, price: int, quantity: int)

  datatype PaymentStatus = Pending | Paid | Failed
  datatype OrderStatus = Placed | Confirmed | Shipped | Delivered | Cancelled

  /** Lines 44-49: the error for a cart line whose product is missing or short of stock. */
  function LineError(it: CartItem, products: map<string, Product>): Option<Failure>
  {
    if it.product !in products then Some(Plain("Product not found: " + it.product))
    else if products[it.product].stock < it.quantity then
      Some(Plain("Insufficient stock for " + products[it.product].name + ". Available: "
                 + IntToStr(products[it.product].stock)))
    else None
  }

  /** The first failing cart line's error, in cart order. */
  function FirstLineError(items: seq<CartItem>, products: map<string, Product>): (r: Option<Failure>)
    ensures r.None? <==> forall k :: 0 <= k < |items| ==> LineError(items[k], products).None?
    ensures r.Some? ==> exists k :: 0 <= k < |items| && LineError(items[k], products) == r
                                    && forall j :: 0 <= j < k ==> LineError(items[j], products).None?
  {
    if items == [] then None
    else if LineError(items[0], products).Some? then LineError(items[0], products)
    else
      var r := FirstLineError(items[1..], products);
      if r.Some? then
        var k :| 1 <= k < |items| && LineError(items[k], products) == r
                && forall j :: 1 <= j < k ==> LineError(items[j], products).None?;
        r
      else r
  }

  /** Lines 50-55 for a line that passed its check. */
  function ToOrderItem(it: CartItem, products: map<string, Product>): OrderItem
    requires it.product in products
  {
    OrderItem(it.product, products[it.product].name, it.priceSnapshot, it.quantity)
  }

  /** Lines 40-56: the order lines, or the first failing line's error. */
  function OrderLines(items: seq<CartItem>, products: map<string, Product>): Result<seq<OrderItem>>
  {
    match FirstLineError(items, products)
    case Some(e) => Err(e)
    case None =>
      assert forall k :: 0 <= k < |items| ==> LineError(items[k], products).None?;
      Ok(seq(|items|, k requires 0 <= k < |items| => ToOrderItem(items[k], products)))
  }

  /** The loop of lines 41-56. */
  method CheckLines(items: seq<CartItem>, products: map<string, Product>) returns (r: Result<seq<OrderItem>>)
    ensures r == OrderLines(items, products)
  {
    var lines: seq<OrderItem> := [];
    var i := 0;
    while i < |items|
      invariant 0 <= i <= |items|
      invariant forall j :: 0 <= j < i ==> LineError(items[j], products).None?
      invariant lines == seq(i, k requires 0 <= k < i => ToOrderItem(items[k], products))
    {
      var e := LineError(items[i], products);
      if e.Some? {
        return Err(e.value);
      }
      lines := lines + [ToOrderItem(items[i], products)];
      i := i + 1;
    }
    r := Ok(lines);
  }

  /** What `price × quantity` adds up to over order lines. */
  function LinesTotal(lines: seq<OrderItem>): int
  {
    if lines == [] then 0 else LinesTotal(lines[..|lines| - 1]) + lines[|lines| - 1].price * lines[|lines| - 1].quantity
  }

  /** Lines 58-61: the order's total, summed over the cart, equals the sum over the
      order's own lines, since each line keeps the cart line's snapshot and quantity. */
  lemma {:induction false} OrderTotalMatchesLines(items: seq<CartItem>, products: map<string, Product>)
    requires OrderLines(items, products).Ok?
    ensures LinesTotal(OrderLines(items, products).value) == Total(items)
  {
    var lines := OrderLines(items, products).value;
    if items != [] {
      var init := items[..|items| - 1];
      assert forall k :: 0 <= k < |init| ==> LineError(init[k], products) == LineError(items[k], products);
      assert FirstLineError(init, products).None?;
      OrderTotalMatchesLines(init, products);
      assert lines[..|lines| - 1] == OrderLines(init, products).value;
    }
  }

  /** The units of product `id` over order lines. */
  function LineUnits(lines: seq<OrderItem>, id: string): int
  {
    if lines == [] then 0
    else LineUnits(lines[..|lines| - 1], id) + (if lines[|lines| - 1].product == id then lines[|lines| - 1].quantity else 0)
  }

  /** Lines 72-76: every line's `$inc: { stock: -quantity }`, in order. */
  function TakeAll(products: map<string, Product>, lines: seq<OrderItem>): map<string, Product>
  {
    if lines == [] then products
    else
      var before := TakeAll(products, lines[..|lines| - 1]);
      var l := lines[|lines| - 1];
      if l.product in before then before[l.product := before[l.product].(stock := before[l.product].stock - l.quantity)]
      else before
  }

  /** The decrements touch only stock: each product loses exactly its units over
      the lines, and the catalogue keeps its ids. */
  lemma {:induction false} TakeAllStock(products: map<string, Product>, lines: seq<OrderItem>)
    ensures TakeAll(products, lines).Keys == products.Keys
    ensures forall id :: id in products ==>
      TakeAll(products, lines)[id] == products[id].(stock := products[id].stock - LineUnits(lines, id))
  {
    if lines != [] {
      TakeAllStock(products, lines[..|lines| - 1]);
    }
  }

  /** The order lines hold each product's units as the cart did. */
  lemma {:induction false} LineUnitsMatchCart(items: seq<CartItem>, products: map<string, Product>, id: string)
    requires OrderLines(items, products).Ok?
    ensures LineUnits(OrderLines(items, products).value, id) == QuantityOf(items, id)
  {
    var lines := OrderLines(items, products).value;
    if items != [] {
      var init := items[..|items| - 1];
      assert forall k :: 0 <= k < |init| ==> LineError(init[k], products) == LineError(items[k], products);
      assert FirstLineError(init, products).None?;
      LineUnitsMatchCart(init, products, id);
      assert lines[..|lines| - 1] == OrderLines(init, products).value;
    }
  }

  /** With one cart line per product, placing the order takes from every product
      exactly the units the cart held of it, and no stock goes negative. */
  lemma StockAfterOrder(items: seq<CartItem>, products: map<string, Product>)
    requires UniqueProducts(items) && ValidCatalog(products)
    requires OrderLines(items, products).Ok?
    ensures var after := TakeAll(products, OrderLines(items, products).value);
            && after.Keys == products.Keys
            && (forall id :: id in products ==> after[id].stock == products[id].stock - QuantityOf(items, id))
            && ValidCatalog(after)
  {
    var lines := OrderLines(items, products).value;
    TakeAllStock(products, lines);
    forall id | id in products
      ensures TakeAll(products, lines)[id].stock == products[id].stock - QuantityOf(items, id)
      ensures ValidProduct(TakeAll(products, lines)[id])
    {
      LineUnitsMatchCart(items, products, id);
      var i := IndexOf(items, id);
      if i >= 0 {
        QuantityOfLine(items, i);
        assert LineError(items[i], products).None?;
      } else {
        QuantityAbsent(items, id);
      }
    }
  }

  /** The order document (src/models/Order.js). The payment service updates its
      payment status and gateway order id in place. */
  class OrderDoc {
    const id: string
    const user: string
    const items: seq<OrderItem>
    const shippingAddress: Address
    const totalAmount: int
    var paymentStatus: PaymentStatus
    var orderStatus: OrderStatus
    var razorpayOrderId: Option<string>

    /** Order.js lines 3-23 and 58-82: at least one line, lines within bounds,
        and a non-negative total. */
    ghost predicate Valid()
      reads this
    {
      |items| > 0 && totalAmount >= 0
      && forall k :: 0 <= k < |items| ==> items[k].price >= 0 && items[k].quantity >= 1
    }

    /** `Order.create({ ..., paymentStatus: 'PENDING', orderStatus: 'PLACED' })` */
    constructor (id: string, user: string, items: seq<OrderItem>, shippingAddress: Address, totalAmount: int)
      ensures this.id == id && this.user == user && this.items == items
      ensures this.shippingAddress == shippingAddress && this.totalAmount == totalAmount
      ensures paymentStatus == Pending && orderStatus == Placed && razorpayOrderId == None
    {
      this.id := id;
      this.user := user;
      this.items := items;
      this.shippingAddress := shippingAddress;
      this.totalAmount := totalAmount;
      paymentStatus := Pending;
      orderStatus := Placed;
      razorpayOrderId := None;
    }
  }

  /** What `createOrder` decides before it writes anything: the address, the
      lines and the total, or the first error. */
  datatype Plan = Plan(address: Address, lines: seq<OrderItem>, total: int)

  /** Lines 29-61. `cart` is the user's cart lines, `None` without a cart. */
  function PlanOrder(body: Value, cart: Option<seq<CartItem>>, products: map<string, Product>): Result<Plan>
  {
    match ValidateShippingAddress(body)
    case Err(e) => Err(e)
    case Ok(address) =>
      if cart.None? || cart.value == [] then Err(Plain(CartEmpty))
      else
        match OrderLines(cart.value, products)
        case Err(e) => Err(e)
        case Ok(lines) => Ok(Plan(address, lines, Total(cart.value)))
  }

  /** A plan that goes through yields an order the Order schema accepts: a clean
      address, at least one line, every line within bounds, and a total equal to
      the sum over its lines. */
  lemma PlanIsValidOrder(body: Value, items: seq<CartItem>, products: map<string, Product>)
    requires ValidItems(items)
    requires PlanOrder(body, Some(items), products).Ok?
    ensures var p := PlanOrder(body, Some(items), products).value;
            && CleanAddress(p.address) && |p.lines| == |items| > 0 && p.total >= 0
            && p.total == LinesTotal(p.lines)
            && forall k :: 0 <= k < |p.lines| ==> p.lines[k].price >= 0 && p.lines[k].quantity >= 1
  {
    TotalNonNegative(items);
    OrderTotalMatchesLines(items, products);
    var lines := OrderLines(items, products).value;
    forall k | 0 <= k < |lines| ensures lines[k].price >= 0 && lines[k].quantity >= 1 {
      assert ValidItem(items[k]);
    }
  }

  /** The address is checked before the cart: with a bad address the answer is the
      same whatever the cart holds. */
  lemma AddressBeforeCart(body: Value, c1: Option<seq<CartItem>>, c2: Option<seq<CartItem>>,
                          p1: map<string, Product>, p2: map<string, Product>)
    requires ValidateShippingAddress(body).Err?
    ensures PlanOrder(body, c1, p1) == PlanOrder(body, c2, p2) == Err(ValidateShippingAddress(body).error)
  {
  }

  /** The service's orders by id. */
  class OrderService {
    var orders: map<string, OrderDoc>

    ghost predicate Valid()
      reads this, orders.Values
    {
      forall id :: id in orders ==> orders[id].id == id && orders[id].Valid()
    }

    constructor ()
      ensures orders == map[] && Valid()
    {
      orders := map[];
    }

    /** Lines 92-101: `Order.findOne({ _id: orderId, user: userId })`. */
    function GetOrderById(ids: Ids, userId: string, orderId: Value): (r: Result<OrderDoc>)
      reads this
      ensures !ids.isValid(orderId) ==> r == Err(Plain(InvalidOrderId))
      ensures ids.isValid(orderId) ==>
        (r.Ok? <==> ids.canon(orderId) in orders && orders[ids.canon(orderId)].user == userId)
      ensures ids.isValid(orderId) && r.Err? ==> r == Err(Plain(OrderNotFound))
      ensures r.Ok? ==> r.value == orders[ids.canon(orderId)] && r.value.user == userId
    {
      if !ids.isValid(orderId) then Err(Plain(InvalidOrderId))
      else
        var key := ids.canon(orderId);
        if key in orders && orders[key].user == userId then Ok(orders[key]) else Err(Plain(OrderNotFound))
    }

    /** Lines 28-83. `newId` is the id the database gives the new order. */
    method CreateOrder(carts: CartService, products: Products, userId: string, body: Value, newId: string)
      returns (r: Result<OrderDoc>)
      requires Valid() && carts.Valid() && products.Valid() && newId !in orders
      modifies this, products, carts.CartOf(userId)
      ensures Valid() && carts.Valid() && products.Valid()
      ensures match PlanOrder(body, old(carts.Lines(userId)), old(products.byId))
              case Err(e) =>
                && r == Err(e) && orders == old(orders) && products.byId == old(products.byId)
                && (userId in carts.carts ==> unchanged(carts.carts[userId]))
              case Ok(plan) =>
                && r.Ok? && fresh(r.value) && orders == old(orders)[newId := r.value]
                && r.value.id == newId && r.value.user == userId && r.value.items == plan.lines
                && r.value.shippingAddress == plan.address && r.value.totalAmount == plan.total
                && r.value.paymentStatus == Pending && r.value.orderStatus == Placed
                && products.byId == TakeAll(old(products.byId), plan.lines)
                && carts.carts[userId].items == [] && carts.carts[userId].totalPrice == 0
    {
      var address := ValidateShippingAddress(body);
      if address.Err? {
        return Err(address.error);
      }
      if userId !in carts.carts || carts.carts[userId].items == [] {
        return Err(Plain(CartEmpty));
      }
      var cart := carts.carts[userId];
      var lines := CheckLines(cart.items, products.byId);
      if lines.Err? {
        return Err(lines.error);
      }
      var total := Total(cart.items);
      PlanIsValidOrder(body, cart.items, products.byId);
      StockAfterOrder(cart.items, products.byId);
      var plan := Plan(address.value, lines.value, total);
      assert PlanOrder(body, carts.Lines(userId), products.byId) == Ok(plan);
      var order := Place(carts, products, userId, plan, newId);
      r := Ok(order);
    }

    /** Lines 63-81: the writes of a plan that went through. The new order joins
        the store, each line's units leave stock and the cart is emptied. */
    method Place(carts: CartService, products: Products, userId: string, plan: Plan, newId: string)
      returns (order: OrderDoc)
      requires Valid() && carts.Valid() && products.Valid() && newId !in orders
      requires userId in carts.carts
      requires |plan.lines| > 0 && plan.total >= 0
      requires forall k :: 0 <= k < |plan.lines| ==> plan.lines[k].price >= 0 && plan.lines[k].quantity >= 1
      requires ValidCatalog(TakeAll(products.byId, plan.lines))
      modifies this, products, carts.carts[userId]
      ensures Valid() && carts.Valid() && products.Valid()
      ensures fresh(order) && orders == old(orders)[newId := order]
      ensures order.id == newId && order.user == userId && order.items == plan.lines
      ensures order.shippingAddress == plan.address && order.totalAmount == plan.total
      ensures order.paymentStatus == Pending && order.orderStatus == Placed
      ensures products.byId == TakeAll(old(products.byId), plan.lines)
      ensures carts.carts[userId].items == [] && carts.carts[userId].totalPrice == 0
    {
      order := new OrderDoc(newId, userId, plan.lines, plan.address, plan.total);
      orders := orders[newId := order];
      TakeStockAll(products, plan.lines);
      assert products.Valid();
      EmptyCart(carts, userId);
    }
  }

  /** Lines 78-79: `cart.items = []; await cart.save()`. */
  method EmptyCart(carts: CartService, userId: string)
    requires carts.Valid() && userId in carts.carts
    modifies carts.carts[userId]
    ensures carts.Valid()
    ensures carts.carts[userId].items == [] && carts.carts[userId].totalPrice == 0
  {
    var cart := carts.carts[userId];
    cart.items := [];
    cart.Save();
  }

  /** The loop of lines 72-76. */
  method TakeStockAll(products: Products, lines: seq<OrderItem>)
    modifies products
    ensures products.byId == TakeAll(old(products.byId), lines)
  {
    ghost var start := products.byId;
    var i := 0;
    while i < |lines|
      invariant 0 <= i <= |lines|
      invariant products.byId == TakeAll(start, lines[..i])
    {
      assert lines[..i + 1][..i] == lines[..i];
      products.TakeStock(lines[i].product, lines[i].quantity);
      i := i + 1;
    }
    assert lines[..i] == lines;
  }
}
