/** The cart agent (src/agents/cartAgent.js): summarises the cart for `GET_CART`,
    and for every other intent resolves a product and a quantity and adds them. */
module CartAgent {
  import opened Wrappers
  import opened Js
  import opened Replies

  const EmptyCart := "Your cart is empty."
  const ProductRequired := "Please select a product to add to cart (productId is required)."
  const AddedSuggestions: seq<string> := ["View cart", "Place order", "Continue shopping"]
  const FindMissing := "cart.items.find is not a function"

  /** `(cart.items && cart.items.length) || 0` */
  function ItemCount(cart: Value): (n: nat)
    ensures Get(cart, "items").Arr? ==> n == |Get(cart, "items").elems|
    ensures !Get(cart, "items").Arr? && !Get(cart, "items").Str? ==> n == 0
  {
    match Get(cart, "items")
    case Arr(es) => |es|
    case Str(s) => |s|
    case _ => 0
  }

  /** Lines 18-26: the cart summary. */
  function CartSummary(cart: Value): (r: Reply)
    ensures r.kind == "cart" && r.data == cart
    ensures r.message == EmptyCart <==> ItemCount(cart) == 0
    ensures ItemCount(cart) > 0 ==> r.message == "You have " + NatToStr(ItemCount(cart)) + " item(s) in your cart."
    ensures r.suggestions == (if ItemCount(cart) > 0 then ["Place order", "Continue shopping"] else ["Browse products"])
  {
    var n := ItemCount(cart);
    if n == 0 then Reply("cart", EmptyCart, cart, ["Browse products"])
    else
      var m := "You have " + NatToStr(n) + " item(s) in your cart.";
      assert m[3] != EmptyCart[3];
      Reply("cart", m, cart, ["Place order", "Continue shopping"])
  }

  /** `productId || (params && params.productId)`: the body field wins when truthy. */
  function ResolveProduct(productId: Value, params: map<string, Value>): (pid: Value)
    ensures Truthy(productId) ==> pid == productId
    ensures !Truthy(productId) ==> pid == Lookup(params, "productId")
  {
    OrElse(productId, Lookup(params, "productId"))
  }

  /** `typeof quantity === 'number' && quantity >= 1 ? quantity : (params && params.quantity) || 1` */
  function ResolveQuantity(quantity: Value, params: map<string, Value>): (q: Value)
    ensures quantity.Num? && quantity.n >= 1 ==> q == quantity
    ensures !(quantity.Num? && quantity.n >= 1) && Truthy(Lookup(params, "quantity")) ==> q == Lookup(params, "quantity")
    ensures !(quantity.Num? && quantity.n >= 1) && !Truthy(Lookup(params, "quantity")) ==> q == Num(1)
    ensures Truthy(q)
  {
    if quantity.Num? && quantity.n >= 1 then quantity else OrElse(Lookup(params, "quantity"), Num(1))
  }

  /** What scanning the lines with `find` ends in: the first matching line, no
      match, or the TypeError thrown at a line that cannot be read. */
  datatype Scan = Found(index: nat) | NotFound | Unreadable(index: nat)

  /** `i.product._id` can be read: neither the line nor its product is null or
      undefined (a populated line whose product was deleted has a null product). */
  predicate Readable(line: Value)
  {
    !Nullish(line) && !Nullish(Get(line, "product"))
  }

  /** `String(i.product._id) === String(pid)` on a readable line. */
  predicate Matches(line: Value, pid: Value)
  {
    ToStr(Get(Get(line, "product"), "_id")) == ToStr(pid)
  }

  /** The TypeError thrown reading `i.product._id` on an unreadable line. */
  function ReadFailure(line: Value): Failure
    requires !Readable(line)
  {
    if Nullish(line) then Plain(ReadError(line, "product")) else Plain(ReadError(Get(line, "product"), "_id"))
  }

  /** `items.find((i) => String(i.product._id) === String(pid))`, from line `i` on:
      the lines are read in order until one matches or one cannot be read. */
  function FindItem(items: seq<Value>, pid: Value, i: nat): (r: Scan)
    requires i <= |items|
    ensures r.Found? ==> i <= r.index < |items| && Readable(items[r.index]) && Matches(items[r.index], pid)
    ensures r.Unreadable? ==> i <= r.index < |items| && !Readable(items[r.index])
    ensures !r.NotFound? ==> forall j :: i <= j < r.index ==> Readable(items[j]) && !Matches(items[j], pid)
    ensures r.NotFound? ==> forall j :: i <= j < |items| ==> Readable(items[j]) && !Matches(items[j], pid)
    decreases |items| - i
  {
    if i == |items| then NotFound
    else if !Readable(items[i]) then Unreadable(i)
    else if Matches(items[i], pid) then Found(i)
    else FindItem(items, pid, i + 1)
  }

  /** Lines 38-39: the added product's name, or 'Item' when `cart.items` is falsy
      or holds no match; the scan's TypeError, or `find` missing on a truthy
      `items` that is not an array, is thrown. */
  function AddedName(cart: Value, pid: Value): (r: Result<Value>)
    ensures !Truthy(Get(cart, "items")) ==> r == Ok(Str("Item"))
    ensures Truthy(Get(cart, "items")) && !Get(cart, "items").Arr? ==> r == Err(Plain(FindMissing))
    ensures Get(cart, "items").Arr? ==>
      var items := Get(cart, "items").elems;
      match FindItem(items, pid, 0)
      case NotFound => r == Ok(Str("Item"))
      case Unreadable(k) => r == Err(ReadFailure(items[k]))
      case Found(k) =>
        var product := Get(items[k], "product");
        r == Ok(if Truthy(product) then Get(product, "name") else Str("Item"))
  {
    var items := Get(cart, "items");
    if !Truthy(items) then Ok(Str("Item"))
    else if !items.Arr? then Err(Plain(FindMissing))
    else
      match FindItem(items.elems, pid, 0)
      case NotFound => Ok(Str("Item"))
      case Unreadable(k) => Err(ReadFailure(items.elems[k]))
      case Found(k) =>
        var product := Get(items.elems[k], "product");
        Ok(if Truthy(product) then Get(product, "name") else Str("Item"))
  }

  /** A line ahead of the match that cannot be read makes the whole add fail, even
      though the product was added: the reply is the TypeError. */
  lemma UnreadableLineThrows(cart: Value, pid: Value, k: nat)
    requires Get(cart, "items").Arr? && k < |Get(cart, "items").elems|
    requires !Readable(Get(cart, "items").elems[k])
    requires forall j :: 0 <= j < k ==> Readable(Get(cart, "items").elems[j]) && !Matches(Get(cart, "items").elems[j], pid)
    ensures AddedName(cart, pid) == Err(ReadFailure(Get(cart, "items").elems[k]))
  {
    var items := Get(cart, "items").elems;
    FindUnreadable(items, pid, 0, k);
  }

  lemma {:induction false} FindUnreadable(items: seq<Value>, pid: Value, i: nat, k: nat)
    requires i <= k < |items| && !Readable(items[k])
    requires forall j :: i <= j < k ==> Readable(items[j]) && !Matches(items[j], pid)
    ensures FindItem(items, pid, i) == Unreadable(k)
    decreases k - i
  {
    if i < k {
      FindUnreadable(items, pid, i + 1, k);
    }
  }

  /** `handle({ userId, intent, params, productId, quantity })`; `getCart` and
      `addItem` are the cart service's operations. */
  function Handle(userId: Value, intent: Value, params: map<string, Value>, productId: Value, quantity: Value,
                  getCart: Value -> Result<Value>, addItem: (Value, Value, Value) -> Result<Value>): (r: Result<Reply>)
    ensures intent == Str("GET_CART") ==>
      r == (match getCart(userId) case Ok(cart) => Ok(CartSummary(cart)) case Err(e) => Err(e))
    ensures intent != Str("GET_CART") && IsBlank(ResolveProduct(productId, params)) ==>
      r == Err(Plain(ProductRequired))
    ensures intent != Str("GET_CART") && !IsBlank(ResolveProduct(productId, params)) ==>
      var pid := ResolveProduct(productId, params);
      var qty := ResolveQuantity(quantity, params);
      match addItem(userId, pid, qty)
      case Err(e) => r == Err(e)
      case Ok(cart) =>
        match AddedName(cart, pid)
        case Err(e) => r == Err(e)
        case Ok(name) =>
          r.Ok? && r.value.kind == "cart" && r.value.suggestions == AddedSuggestions
          && r.value.data == Obj(map["items" := Get(cart, "items"), "totalPrice" := Get(cart, "totalPrice")])
          && r.value.message == "Added " + ToStr(name) + " (qty: " + ToStr(qty) + ") to your cart."
  {
    if intent == Str("GET_CART") then
      match getCart(userId)
      case Ok(cart) => Ok(CartSummary(cart))
      case Err(e) => Err(e)
    else
      var pid := ResolveProduct(productId, params);
      var qty := ResolveQuantity(quantity, params);
      if IsBlank(pid) then Err(Plain(ProductRequired))
      else
        match addItem(userId, pid, qty)
        case Err(e) => Err(e)
        case Ok(cart) =>
          match AddedName(cart, pid)
          case Err(e) => Err(e)
          case Ok(name) =>
            Ok(Reply("cart", "Added " + ToStr(name) + " (qty: " + ToStr(qty) + ") to your cart.",
                     Obj(map["items" := Get(cart, "items"), "totalPrice" := Get(cart, "totalPrice")]),
                     AddedSuggestions))
  }

  /** Without a product the cart is never touched: the reply is the same whatever
      `addItem` would have done. */
  lemma NoProductNoCall(userId: Value, intent: Value, params: map<string, Value>, productId: Value, quantity: Value,
                        getCart: Value -> Result<Value>, a1: (Value, Value, Value) -> Result<Value>,
                        a2: (Value, Value, Value) -> Result<Value>)
    requires intent != Str("GET_CART") && IsBlank(ResolveProduct(productId, params))
    ensures Handle(userId, intent, params, productId, quantity, getCart, a1)
         == Handle(userId, intent, params, productId, quantity, getCart, a2)
  {
  }

  const Phone := Obj(map["_id" := Str("p"), "name" := Str("Phone")])
  const NoProduct := Obj(map["product" := Null])

  /** Adding product `p`, given as the body's id, to a cart that answers `cart`. */
  function AddP(userId: Value, getCart: Value -> Result<Value>, cart: Value): Result<Reply>
  {
    Handle(userId, Str("ADD_TO_CART"), map[], Str("p"), Num(1), getCart, (u, p, q) => Ok(cart))
  }

  /** The body's id `p` and quantity 1 are what the agent resolves. */
  lemma PGiven()
    ensures ResolveProduct(Str("p"), map[]) == Str("p") && !IsBlank(Str("p"))
    ensures ResolveQuantity(Num(1), map[]) == Num(1) && ToStr(Num(1)) == "1"
  {
    assert Trim("p") == "p" by { TrimUnpadded("p"); }
    assert ToStr(Num(1)) == [DigitChar(1)];
  }

  /** A failed name lookup is the reply. */
  lemma AddPFails(userId: Value, getCart: Value -> Result<Value>, cart: Value)
    requires AddedName(cart, Str("p")).Err?
    ensures AddP(userId, getCart, cart) == Err(AddedName(cart, Str("p")).error)
  {
    PGiven();
  }

  /** A found name is reported with the quantity. */
  lemma AddPNames(userId: Value, getCart: Value -> Result<Value>, cart: Value)
    requires AddedName(cart, Str("p")).Ok?
    ensures AddP(userId, getCart, cart).Ok?
    ensures AddP(userId, getCart, cart).value.message
         == "Added " + ToStr(AddedName(cart, Str("p")).value) + " (qty: " + "1" + ") to your cart."
  {
    PGiven();
    var name := AddedName(cart, Str("p")).value;
    var m := "Added " + ToStr(name) + " (qty: " + ToStr(Num(1)) + ") to your cart.";
    assert AddP(userId, getCart, cart)
        == Ok(Reply("cart", m, Obj(map["items" := Get(cart, "items"), "totalPrice" := Get(cart, "totalPrice")]),
                    AddedSuggestions));
  }

  /** A cart whose first line lost its product (populated as `null`) ahead of the
      line just added: the service's add succeeds, yet the agent answers the
      TypeError of reading `_id` from `null`. */
  lemma DeletedProductAheadThrows(userId: Value, getCart: Value -> Result<Value>)
    ensures AddP(userId, getCart, Obj(map["items" := Arr([NoProduct, Obj(map["product" := Phone])])]))
         == Err(Plain(ReadError(Null, "_id")))
  {
    var cart := Obj(map["items" := Arr([NoProduct, Obj(map["product" := Phone])])]);
    assert Get(NoProduct, "product") == Null;
    UnreadableLineThrows(cart, Str("p"), 0);
    AddPFails(userId, getCart, cart);
  }

  /** With the added line first, the reply names its product. */
  lemma AddedLineNamed(userId: Value, getCart: Value -> Result<Value>)
    ensures var r := AddP(userId, getCart, Obj(map["items" := Arr([Obj(map["product" := Phone]), NoProduct])]));
      r.Ok? && r.value.message == "Added " + "Phone" + " (qty: " + "1" + ") to your cart."
  {
    var items := [Obj(map["product" := Phone]), NoProduct];
    var cart := Obj(map["items" := Arr(items)]);
    assert Get(items[0], "product") == Phone;
    assert Matches(items[0], Str("p"));
    assert FindItem(items, Str("p"), 0) == Found(0);
    assert AddedName(cart, Str("p")) == Ok(Str("Phone"));
    AddPNames(userId, getCart, cart);
  }
}
