/** The cart service (src/services/cart.service.js): one cart per user, whose lines
    are looked up with `findIndex`, updated in place, and re-totalled on every save. */
module CartService {
  import opened Wrappers
  import opened Js
  import opened CartModel
  import opened Store

  const InvalidProductId := "Invalid product id"
  const BadQuantity := "Quantity must be at least 1"
  const ProductNotFound := "Product not found"
  const CartNotFound := "Cart not found"
  const NotInCart := "Product not in cart"

  /** `Only ${product.stock} items in stock` */
  function OutOfStock(p: Product): Failure
  {
    Plain("Only " + IntToStr(p.stock) + " items in stock")
  }

  /** `{ items, totalPrice }` as the service returns it. */
  datatype CartView = CartView(items: seq<CartItem>, totalPrice: int)

  /** `items.findIndex((item) => item.product.toString() === key)` */
  function IndexOf(items: seq<CartItem>, key: string): (i: int)
    ensures -1 <= i < |items|
    ensures i >= 0 ==> items[i].product == key
    ensures i >= 0 ==> forall j :: 0 <= j < i ==> items[j].product != key
    ensures i < 0 ==> forall j :: 0 <= j < |items| ==> items[j].product != key
  {
    if items == [] then -1
    else if items[0].product == key then 0
    else
      var k := IndexOf(items[1..], key);
      if k < 0 then -1 else k + 1
  }

  /** The `findIndex` scan itself. */
  method FindIndex(items: seq<CartItem>, key: string) returns (i: int)
    ensures i == IndexOf(items, key)
  {
    i := 0;
    while i < |items|
      invariant 0 <= i <= |items|
      invariant forall j :: 0 <= j < i ==> items[j].product != key
    {
      if items[i].product == key {
        return;
      }
      i := i + 1;
    }
    i := -1;
  }

  /** How many units of the product `key` the lines hold. */
  function QuantityOf(items: seq<CartItem>, key: string): int
  {
    if items == [] then 0
    else QuantityOf(items[..|items| - 1], key)
         + (if items[|items| - 1].product == key then items[|items| - 1].quantity else 0)
  }

  lemma {:induction false} QuantityAppend(a: seq<CartItem>, b: seq<CartItem>, key: string)
    ensures QuantityOf(a + b, key) == QuantityOf(a, key) + QuantityOf(b, key)
    decreases |b|
  {
    if b == [] {
      assert a + b == a;
    } else {
      var b' := b[..|b| - 1];
      assert (a + b)[..|a + b| - 1] == a + b';
      QuantityAppend(a, b', key);
    }
  }

  /** No line for `key`, no units of it. */
  lemma {:induction false} QuantityAbsent(items: seq<CartItem>, key: string)
    requires forall j :: 0 <= j < |items| ==> items[j].product != key
    ensures QuantityOf(items, key) == 0
  {
    if items != [] {
      QuantityAbsent(items[..|items| - 1], key);
    }
  }

  /** With one line per product, the units of a product are its line's quantity. */
  lemma QuantityOfLine(items: seq<CartItem>, i: nat)
    requires UniqueProducts(items) && i < |items|
    ensures QuantityOf(items, items[i].product) == items[i].quantity
  {
    var key := items[i].product;
    assert items == items[..i] + [items[i]] + items[i + 1..];
    QuantityAppend(items[..i] + [items[i]], items[i + 1..], key);
    QuantityAppend(items[..i], [items[i]], key);
    QuantityAbsent(items[..i], key);
    QuantityAbsent(items[i + 1..], key);
    assert QuantityOf([items[i]], key) == QuantityOf([], key) + items[i].quantity;
  }

  /** Replacing one line moves only the units of the two products involved. */
  lemma QuantityUpdate(items: seq<CartItem>, i: nat, x: CartItem, key: string)
    requires i < |items|
    ensures QuantityOf(items[i := x], key)
         == QuantityOf(items, key) - (if items[i].product == key then items[i].quantity else 0)
            + (if x.product == key then x.quantity else 0)
  {
    assert items == items[..i] + [items[i]] + items[i + 1..];
    assert items[i := x] == items[..i] + [x] + items[i + 1..];
    QuantityAppend(items[..i] + [items[i]], items[i + 1..], key);
    QuantityAppend(items[..i], [items[i]], key);
    QuantityAppend(items[..i] + [x], items[i + 1..], key);
    QuantityAppend(items[..i], [x], key);
    assert QuantityOf([items[i]], key) == QuantityOf([], key) + (if items[i].product == key then items[i].quantity else 0);
    assert QuantityOf([x], key) == QuantityOf([], key) + (if x.product == key then x.quantity else 0);
  }

  /** `quantity = 1`: the default applies only when the argument is `undefined`. */
  function AddQuantity(quantity: Value): Value
  {
    if quantity.Undefined? then Num(1) else quantity
  }

  /** `Number.isInteger(quantity) && quantity >= 1` */
  predicate IsCount(q: Value)
  {
    q.Num? && q.n >= 1
  }

  /** Lines 42-51 once the checks before them passed: merge into the line that
      `findKey` finds, re-checking the stock against the combined quantity, or
      append a new line priced at the product's unit price. */
  function Merge(items: seq<CartItem>, findKey: string, key: string, q: int, p: Product): Result<seq<CartItem>>
  {
    var i := IndexOf(items, findKey);
    if i < 0 then Ok(items + [CartItem(key, q, UnitPrice(p))])
    else if p.stock < items[i].quantity + q then Err(OutOfStock(p))
    else Ok(items[i := items[i].(quantity := items[i].quantity + q)])
  }

  /** Lines 21-51 with the line lookup comparing against `findKey`: the new lines
      of the cart, or the first failing check. A missing cart is an empty one. */
  function AddOutcome(products: map<string, Product>, ids: Ids, items: seq<CartItem>,
                      productId: Value, quantity: Value, findKey: string): Result<seq<CartItem>>
  {
    var q := AddQuantity(quantity);
    if !ids.isValid(productId) then Err(Plain(InvalidProductId))
    else if !IsCount(q) then Err(Plain(BadQuantity))
    else if ids.canon(productId) !in products then Err(Plain(ProductNotFound))
    else
      var p := products[ids.canon(productId)];
      if p.stock < q.n then Err(OutOfStock(p))
      else Merge(items, findKey, ids.canon(productId), q.n, p)
  }

  /** `addItem` as written: the lookup compares the stored ids with `productId.toString()`. */
  function AddedAsWritten(products: map<string, Product>, ids: Ids, items: seq<CartItem>,
                          productId: Value, quantity: Value): Result<seq<CartItem>>
  {
    AddOutcome(products, ids, items, productId, quantity, ToStr(productId))
  }

  /** `addItem` with the lookup comparing against the id as stored. */
  function Added(products: map<string, Product>, ids: Ids, items: seq<CartItem>,
                 productId: Value, quantity: Value): Result<seq<CartItem>>
  {
    AddOutcome(products, ids, items, productId, quantity, ids.canon(productId))
  }

  predicate ValidCatalog(products: map<string, Product>)
  {
    forall id :: id in products ==> ValidProduct(products[id])
  }

  /** The checks before the merge, in the source's order. */
  predicate AddChecksPass(products: map<string, Product>, ids: Ids, productId: Value, quantity: Value)
  {
    ids.isValid(productId) && IsCount(AddQuantity(quantity)) && ids.canon(productId) in products
    && AddQuantity(quantity).n <= products[ids.canon(productId)].stock
  }

  /** Past the checks, adding is merging under the stored id. */
  lemma AddedIsMerge(products: map<string, Product>, ids: Ids, items: seq<CartItem>,
                     productId: Value, quantity: Value)
    requires AddChecksPass(products, ids, productId, quantity)
    ensures Added(products, ids, items, productId, quantity)
         == Merge(items, ids.canon(productId), ids.canon(productId), AddQuantity(quantity).n,
                  products[ids.canon(productId)])
  {
  }

  /** Merging succeeds exactly when the units already held plus the new ones fit in
      the stock. */
  lemma MergeSucceedsIff(items: seq<CartItem>, key: string, q: int, p: Product)
    requires ValidItems(items) && UniqueProducts(items) && q <= p.stock
    ensures Merge(items, key, key, q, p).Ok? <==> QuantityOf(items, key) + q <= p.stock
  {
    var i := IndexOf(items, key);
    if i >= 0 {
      QuantityOfLine(items, i);
    } else {
      QuantityAbsent(items, key);
    }
  }

  /** Adding succeeds exactly when the id is valid, the quantity is a whole number of
      at least one, the product exists, and the units already in the cart plus the
      new ones fit in its stock. */
  lemma AddedSucceedsIff(products: map<string, Product>, ids: Ids, items: seq<CartItem>,
                         productId: Value, quantity: Value)
    requires ValidItems(items) && UniqueProducts(items)
    ensures Added(products, ids, items, productId, quantity).Ok?
        <==> ids.isValid(productId) && IsCount(AddQuantity(quantity)) && ids.canon(productId) in products
             && QuantityOf(items, ids.canon(productId)) + AddQuantity(quantity).n
                <= products[ids.canon(productId)].stock
  {
    if AddChecksPass(products, ids, productId, quantity) {
      AddedIsMerge(products, ids, items, productId, quantity);
      MergeSucceedsIff(items, ids.canon(productId), AddQuantity(quantity).n, products[ids.canon(productId)]);
    } else if ids.isValid(productId) && IsCount(AddQuantity(quantity)) && ids.canon(productId) in products {
      var key := ids.canon(productId);
      if IndexOf(items, key) >= 0 {
        QuantityOfLine(items, IndexOf(items, key));
        assert ValidItem(items[IndexOf(items, key)]);
      } else {
        QuantityAbsent(items, key);
      }
    }
  }

  /** A successful merge puts exactly `q` more units of the product in the lines,
      never more than its stock, leaves every other product's units alone, keeps one
      line per product, and adds a line only when the product had none. Every line
      of another product stays as it was and where it was; a new line goes last at
      the current unit price, and a merged line keeps its price snapshot. */
  lemma MergeAddsUnits(items: seq<CartItem>, key: string, q: int, p: Product)
    requires ValidItems(items) && UniqueProducts(items) && ValidProduct(p) && 1 <= q <= p.stock
    requires Merge(items, key, key, q, p).Ok?
    ensures var items' := Merge(items, key, key, q, p).value;
            && QuantityOf(items', key) == QuantityOf(items, key) + q <= p.stock
            && (forall k :: k != key ==> QuantityOf(items', k) == QuantityOf(items, k))
            && ValidItems(items') && UniqueProducts(items')
            && |items'| == |items| + (if QuantityOf(items, key) == 0 then 1 else 0)
            && (forall j :: 0 <= j < |items| && items[j].product != key ==> items'[j] == items[j])
            && (QuantityOf(items, key) == 0 ==> items'[|items|] == CartItem(key, q, UnitPrice(p)))
            && (QuantityOf(items, key) > 0 ==>
                  var i := IndexOf(items, key);
                  items'[i].product == key && items'[i].priceSnapshot == items[i].priceSnapshot)
  {
    var items' := Merge(items, key, key, q, p).value;
    var i := IndexOf(items, key);
    if i < 0 {
      var x := CartItem(key, q, UnitPrice(p));
      QuantityAbsent(items, key);
      forall k ensures QuantityOf(items', k) == QuantityOf(items, k) + (if k == key then q else 0) {
        QuantityAppend(items, [x], k);
        assert QuantityOf([x], k) == QuantityOf([], k) + (if k == key then q else 0);
      }
      assert ValidItem(x);
    } else {
      QuantityOfLine(items, i);
      var x := items[i].(quantity := items[i].quantity + q);
      forall k ensures QuantityOf(items', k) == QuantityOf(items, k) + (if k == key then q else 0) {
        QuantityUpdate(items, i, x, k);
      }
      assert ValidItem(x);
    }
  }

  /** A successful add puts exactly `quantity` more units of the product in the cart,
      never more than its stock, and keeps one line per product. Every line of
      another product is left as it was, at its place; the product's new line goes
      last at the current unit price, and an existing line keeps its price snapshot. */
  lemma AddedMerges(products: map<string, Product>, ids: Ids, items: seq<CartItem>,
                    productId: Value, quantity: Value)
    requires ValidItems(items) && UniqueProducts(items) && ValidCatalog(products)
    requires Added(products, ids, items, productId, quantity).Ok?
    ensures var items' := Added(products, ids, items, productId, quantity).value;
            var key := ids.canon(productId);
            && QuantityOf(items', key) == QuantityOf(items, key) + AddQuantity(quantity).n <= products[key].stock
            && (forall k :: k != key ==> QuantityOf(items', k) == QuantityOf(items, k))
            && ValidItems(items') && UniqueProducts(items')
            && |items'| == |items| + (if QuantityOf(items, key) == 0 then 1 else 0)
            && (forall j :: 0 <= j < |items| && items[j].product != key ==> items'[j] == items[j])
            && (QuantityOf(items, key) == 0 ==> items'[|items|] == CartItem(key, AddQuantity(quantity).n, UnitPrice(products[key])))
            && (QuantityOf(items, key) > 0 ==>
                  var i := IndexOf(items, key);
                  items'[i].product == key && items'[i].priceSnapshot == items[i].priceSnapshot)
  {
    AddedIsMerge(products, ids, items, productId, quantity);
    MergeAddsUnits(items, ids.canon(productId), AddQuantity(quantity).n, products[ids.canon(productId)]);
  }

  /** Distributivity, for the units added to a line. */
  lemma MoreUnits(price: int, n: int, q: int)
    ensures price * (n + q) == price * n + q * price
  {
  }

  /** A successful merge raises the total by the new units at the price of the
      product's line: the current unit price for a new line, and the snapshot taken
      when the line was created for a merged one. */
  lemma MergeTotal(items: seq<CartItem>, key: string, q: int, p: Product)
    requires Merge(items, key, key, q, p).Ok?
    ensures var i := IndexOf(items, key);
            Total(Merge(items, key, key, q, p).value)
              == Total(items) + q * (if i < 0 then UnitPrice(p) else items[i].priceSnapshot)
  {
    var i := IndexOf(items, key);
    if i < 0 {
      var x := CartItem(key, q, UnitPrice(p));
      assert Merge(items, key, key, q, p).value == items + [x];
      TotalAppend(items, [x]);
      assert Subtotal(x) == q * UnitPrice(p);
      assert Total([x]) == Total([]) + Subtotal(x);
    } else {
      var x := items[i].(quantity := items[i].quantity + q);
      assert Merge(items, key, key, q, p).value == items[i := x];
      MoreUnits(items[i].priceSnapshot, items[i].quantity, q);
      TotalUpdate(items, i, x);
    }
  }

  /** Lines 61-84 with the line lookup comparing against `findKey`: the new lines
      after `updateItem`, or the first failing check. `cart` is `None` when the user
      has no cart. */
  function UpdateOutcome(products: map<string, Product>, ids: Ids, cart: Option<seq<CartItem>>,
                         productId: Value, quantity: Value, findKey: string): Result<seq<CartItem>>
  {
    if !ids.isValid(productId) then Err(Plain(InvalidProductId))
    else if !IsCount(quantity) then Err(Plain(BadQuantity))
    else if cart.None? then Err(Plain(CartNotFound))
    else
      var items := cart.value;
      var key := ids.canon(productId);
      var i := IndexOf(items, findKey);
      if i < 0 then Err(Plain(NotInCart))
      else if key !in products then Err(Plain(ProductNotFound))
      else
        var p := products[key];
        if p.stock < quantity.n then Err(OutOfStock(p))
        else Ok(items[i := CartItem(items[i].product, quantity.n, UnitPrice(p))])
  }

  /** `updateItem` as written: the lookup compares the stored ids with `productId.toString()`. */
  function UpdatedAsWritten(products: map<string, Product>, ids: Ids, cart: Option<seq<CartItem>>,
                            productId: Value, quantity: Value): Result<seq<CartItem>>
  {
    UpdateOutcome(products, ids, cart, productId, quantity, ToStr(productId))
  }

  /** `updateItem` with the lookup comparing against the id as stored. */
  function Updated(products: map<string, Product>, ids: Ids, cart: Option<seq<CartItem>>,
                   productId: Value, quantity: Value): Result<seq<CartItem>>
  {
    UpdateOutcome(products, ids, cart, productId, quantity, ids.canon(productId))
  }

  /** Updating succeeds exactly when the id is valid, the quantity is a whole number
      of at least one (no default here), the cart holds the product, the product
      exists, and the new quantity alone fits in its stock. */
  lemma UpdatedSucceedsIff(products: map<string, Product>, ids: Ids, cart: Option<seq<CartItem>>,
                           productId: Value, quantity: Value)
    requires cart.Some? ==> ValidItems(cart.value) && UniqueProducts(cart.value)
    ensures Updated(products, ids, cart, productId, quantity).Ok?
        <==> ids.isValid(productId) && IsCount(quantity) && cart.Some?
             && QuantityOf(cart.value, ids.canon(productId)) > 0
             && ids.canon(productId) in products && quantity.n <= products[ids.canon(productId)].stock
  {
    if ids.isValid(productId) && IsCount(quantity) && cart.Some? {
      var key := ids.canon(productId);
      var i := IndexOf(cart.value, key);
      if i >= 0 {
        QuantityOfLine(cart.value, i);
        assert ValidItem(cart.value[i]);
      } else {
        QuantityAbsent(cart.value, key);
      }
    }
  }

  /** A successful update SETS the product's units to `quantity` (it does not add),
      re-prices its line at the current unit price, and changes nothing else. */
  lemma UpdatedSetsQuantity(products: map<string, Product>, ids: Ids, items: seq<CartItem>,
                            productId: Value, quantity: Value)
    requires ValidItems(items) && UniqueProducts(items) && ValidCatalog(products)
    requires Updated(products, ids, Some(items), productId, quantity).Ok?
    ensures var items' := Updated(products, ids, Some(items), productId, quantity).value;
            var key := ids.canon(productId);
            var i := IndexOf(items, key);
            && QuantityOf(items', key) == quantity.n <= products[key].stock
            && items'[i].priceSnapshot == UnitPrice(products[key])
            && (forall k :: k != key ==> QuantityOf(items', k) == QuantityOf(items, k))
            && (forall j :: 0 <= j < |items| && j != i ==> items'[j] == items[j])
            && |items'| == |items| && ValidItems(items') && UniqueProducts(items')
  {
    var items' := Updated(products, ids, Some(items), productId, quantity).value;
    var key := ids.canon(productId);
    var i := IndexOf(items, key);
    var x := CartItem(items[i].product, quantity.n, UnitPrice(products[key]));
    forall k ensures QuantityOf(items', k) == QuantityOf(items, k) - (if k == key then items[i].quantity else 0)
                                              + (if k == key then quantity.n else 0) {
      QuantityUpdate(items, i, x, k);
    }
    QuantityOfLine(items, i);
    assert ValidItem(x);
  }

  /** `items.filter((item) => item.product.toString() !== key)` */
  function Without(items: seq<CartItem>, key: string): seq<CartItem>
  {
    if items == [] then []
    else Without(items[..|items| - 1], key)
         + (if items[|items| - 1].product == key then [] else [items[|items| - 1]])
  }

  /** The filter keeps the surviving lines in their order: it distributes over
      concatenation. */
  lemma {:induction false} WithoutAppend(a: seq<CartItem>, b: seq<CartItem>, key: string)
    ensures Without(a + b, key) == Without(a, key) + Without(b, key)
    decreases |b|
  {
    if b == [] {
      assert a + b == a;
    } else {
      var b' := b[..|b| - 1];
      assert (a + b)[..|a + b| - 1] == a + b';
      WithoutAppend(a, b', key);
    }
  }

  /** The filter keeps exactly the lines of other products. */
  lemma {:induction false} WithoutMembers(items: seq<CartItem>, key: string)
    ensures forall x :: x in Without(items, key) <==> x in items && x.product != key
  {
    if items != [] {
      WithoutMembers(items[..|items| - 1], key);
      assert items == items[..|items| - 1] + [items[|items| - 1]];
    }
  }

  /** Dropping a product's lines leaves every other product's units, the schema
      bounds and the one-line-per-product rule in place. */
  lemma {:induction false} WithoutKeepsOthers(items: seq<CartItem>, key: string)
    requires ValidItems(items) && UniqueProducts(items)
    ensures QuantityOf(Without(items, key), key) == 0
    ensures forall k :: k != key ==> QuantityOf(Without(items, key), k) == QuantityOf(items, k)
    ensures ValidItems(Without(items, key)) && UniqueProducts(Without(items, key))
  {
    if items != [] {
      var init := items[..|items| - 1];
      var last := items[|items| - 1];
      assert ValidItems(init) && UniqueProducts(init);
      WithoutKeepsOthers(init, key);
      WithoutMembers(init, key);
      var w := Without(init, key);
      var tail := if last.product == key then [] else [last];
      forall k ensures QuantityOf(w + tail, k) == QuantityOf(w, k) + QuantityOf(tail, k) {
        QuantityAppend(w, tail, k);
      }
      if last.product != key {
        assert QuantityOf(tail, key) == QuantityOf([], key);
        forall k | k != key ensures QuantityOf(tail, k) == (if last.product == k then last.quantity else 0) {
          assert QuantityOf(tail, k) == QuantityOf([], k) + (if last.product == k then last.quantity else 0);
        }
        forall j | 0 <= j < |w| ensures w[j].product != last.product {
          assert w[j] in w;
        }
        assert ValidItem(last);
      }
    }
  }

  /** Lines 89-103 with the lookup and the filter comparing against `findKey`: the
      lines left after `removeItem`, or the first failing check. */
  function RemoveOutcome(ids: Ids, cart: Option<seq<CartItem>>, productId: Value, findKey: string)
    : Result<seq<CartItem>>
  {
    if !ids.isValid(productId) then Err(Plain(InvalidProductId))
    else if cart.None? then Err(Plain(CartNotFound))
    else if IndexOf(cart.value, findKey) < 0 then Err(Plain(NotInCart))
    else Ok(Without(cart.value, findKey))
  }

  /** `removeItem` as written: lookup and filter compare with `productId.toString()`. */
  function RemovedAsWritten(ids: Ids, cart: Option<seq<CartItem>>, productId: Value): Result<seq<CartItem>>
  {
    RemoveOutcome(ids, cart, productId, ToStr(productId))
  }

  /** `removeItem` with lookup and filter comparing against the id as stored. */
  function Removed(ids: Ids, cart: Option<seq<CartItem>>, productId: Value): Result<seq<CartItem>>
  {
    RemoveOutcome(ids, cart, productId, ids.canon(productId))
  }

  /** Dropping the one line of a product cuts exactly that line out. */
  lemma {:induction false} WithoutCut(items: seq<CartItem>, i: nat, key: string)
    requires i < |items| && items[i].product == key
    requires forall j :: 0 <= j < |items| && j != i ==> items[j].product != key
    ensures Without(items, key) == items[..i] + items[i + 1..]
  {
    var init, last := items[..|items| - 1], items[|items| - 1];
    if i == |items| - 1 {
      WithoutUntouched(init, key);
      assert items[i + 1..] == [];
    } else {
      WithoutCut(init, i, key);
      assert init[..i] == items[..i];
      assert init[i + 1..] + [last] == items[i + 1..];
    }
  }

  /** With one line per product, that cut is the product's line. */
  lemma WithoutOneLine(items: seq<CartItem>, i: nat)
    requires UniqueProducts(items) && i < |items|
    ensures Without(items, items[i].product) == items[..i] + items[i + 1..]
  {
    WithoutCut(items, i, items[i].product);
  }

  /** What filtering out the product of line `i` leaves, for one line per product. */
  lemma RemovedLine(items: seq<CartItem>, i: nat)
    requires ValidItems(items) && UniqueProducts(items) && i < |items|
    ensures var key := items[i].product;
      var items' := Without(items, key);
      && QuantityOf(items', key) == 0
      && (forall k :: k != key ==> QuantityOf(items', k) == QuantityOf(items, k))
      && (forall x :: x in items' <==> x in items && x.product != key)
      && items' == items[..i] + items[i + 1..]
      && ValidItems(items') && UniqueProducts(items')
  {
    WithoutKeepsOthers(items, items[i].product);
    WithoutMembers(items, items[i].product);
    WithoutOneLine(items, i);
  }

  /** Removing succeeds exactly when the id is valid and the cart holds the product. */
  lemma RemovedSucceedsIff(ids: Ids, cart: Option<seq<CartItem>>, productId: Value)
    requires cart.Some? ==> ValidItems(cart.value) && UniqueProducts(cart.value)
    ensures Removed(ids, cart, productId).Ok?
        <==> ids.isValid(productId) && cart.Some? && QuantityOf(cart.value, ids.canon(productId)) > 0
  {
    if ids.isValid(productId) && cart.Some? {
      var items := cart.value;
      var key := ids.canon(productId);
      var i := IndexOf(items, key);
      if i >= 0 {
        QuantityOfLine(items, i);
        assert ValidItem(items[i]);
      } else {
        QuantityAbsent(items, key);
      }
    }
  }

  /** After a successful removal no units of the product remain, and the lines are
      the old ones with the product's line cut out, the others in their order. */
  lemma RemovedDropsProduct(ids: Ids, cart: Option<seq<CartItem>>, productId: Value)
    requires cart.Some? ==> ValidItems(cart.value) && UniqueProducts(cart.value)
    requires Removed(ids, cart, productId).Ok?
    ensures var items' := Removed(ids, cart, productId).value;
      var key := ids.canon(productId);
      && QuantityOf(items', key) == 0
      && (forall k :: k != key ==> QuantityOf(items', k) == QuantityOf(cart.value, k))
      && (forall x :: x in items' <==> x in cart.value && x.product != key)
      && items' == cart.value[..IndexOf(cart.value, key)] + cart.value[IndexOf(cart.value, key) + 1..]
      && |items'| == |cart.value| - 1
      && ValidItems(items') && UniqueProducts(items')
  {
    RemovedLine(cart.value, IndexOf(cart.value, ids.canon(productId)));
  }

  /** A filter that matches nothing keeps everything. */
  lemma {:induction false} WithoutUntouched(items: seq<CartItem>, key: string)
    requires forall j :: 0 <= j < |items| ==> items[j].product != key
    ensures Without(items, key) == items
  {
    if items != [] {
      WithoutUntouched(items[..|items| - 1], key);
    }
  }

  /** Lines 42-53 on a stored cart: merge the units in place and save. */
  method MergeInto(cart: CartDoc, key: string, q: int, p: Product) returns (r: Result<CartView>)
    requires cart.Valid() && ValidProduct(p) && 1 <= q <= p.stock
    modifies cart
    ensures match Merge(old(cart.items), key, key, q, p)
            case Err(e) => r == Err(e) && unchanged(cart)
            case Ok(items) => cart.items == items && cart.Valid() && r == Ok(CartView(items, Total(items)))
  {
    var i := FindIndex(cart.items, key);
    if i >= 0 {
      var newQty := cart.items[i].quantity + q;
      if p.stock < newQty {
        return Err(OutOfStock(p));
      }
      MergeAddsUnits(cart.items, key, q, p);
      cart.items := cart.items[i := cart.items[i].(quantity := newQty)];
    } else {
      MergeAddsUnits(cart.items, key, q, p);
      cart.items := cart.items + [CartItem(key, q, UnitPrice(p))];
    }
    cart.Save();
    r := Ok(CartView(cart.items, cart.totalPrice));
  }

  /** Lines 79-83 on a stored cart: set the line's quantity, refresh its snapshot
      when the unit price moved, and save. */
  method SetLine(cart: CartDoc, i: nat, q: int, unitPrice: int) returns (r: Result<CartView>)
    requires cart.Valid() && i < |cart.items|
    requires ValidItems(cart.items[i := CartItem(cart.items[i].product, q, unitPrice)])
    modifies cart
    ensures cart.items == old(cart.items)[i := CartItem(old(cart.items)[i].product, q, unitPrice)]
    ensures cart.Valid() && r == Ok(CartView(cart.items, Total(cart.items)))
  {
    ghost var target := cart.items[i := CartItem(cart.items[i].product, q, unitPrice)];
    cart.items := cart.items[i := cart.items[i].(quantity := q)];
    if cart.items[i].priceSnapshot != unitPrice {
      cart.items := cart.items[i := cart.items[i].(priceSnapshot := unitPrice)];
    }
    assert cart.items == target;
    assert UniqueProducts(cart.items) by {
      forall a, b | 0 <= a < b < |cart.items| ensures cart.items[a].product != cart.items[b].product {
        assert cart.items[a].product == old(cart.items)[a].product;
        assert cart.items[b].product == old(cart.items)[b].product;
      }
    }
    cart.Save();
    r := Ok(CartView(cart.items, cart.totalPrice));
  }

  /** The service's carts, one per user id. */
  class CartService {
    var carts: map<string, CartDoc>

    /** Every cart is filed under its own user (so no two users share one) and
        is in its saved state. */
    ghost predicate Valid()
      reads this, carts.Values
    {
      forall u :: u in carts ==> carts[u].user == u && carts[u].Valid()
    }

    constructor ()
      ensures carts == map[] && Valid()
    {
      carts := map[];
    }

    function CartOf(u: string): set<CartDoc>
      reads this
    {
      if u in carts then {carts[u]} else {}
    }

    /** The user's lines, `None` without a cart. */
    function Lines(u: string): Option<seq<CartItem>>
      reads this, carts.Values
    {
      if u in carts then Some(carts[u].items) else None
    }

    function LinesOrEmpty(u: string): seq<CartItem>
      reads this, carts.Values
    {
      if u in carts then carts[u].items else []
    }

    /** Lines 5-18: a user without a cart reads as an empty cart with a zero total,
        and a stored cart's total is always the sum over its lines. */
    function GetCart(userId: string): (r: CartView)
      reads this, carts.Values
      requires Valid()
      ensures userId !in carts ==> r == CartView([], 0)
      ensures r.items == LinesOrEmpty(userId) && r.totalPrice == Total(r.items)
    {
      if userId in carts then CartView(carts[userId].items, carts[userId].totalPrice)
      else CartView([], 0)
    }

    /** Lines 20-58. */
    method AddItem(products: Products, ids: Ids, userId: string, productId: Value, quantity: Value)
      returns (r: Result<CartView>)
      requires Valid() && products.Valid()
      modifies this, CartOf(userId)
      ensures Valid()
      ensures match Added(products.byId, ids, old(LinesOrEmpty(userId)), productId, quantity)
              case Err(e) => r == Err(e) && carts == old(carts)
                             && (userId in carts ==> unchanged(carts[userId]))
              case Ok(items) => userId in carts && carts[userId].items == items
                                && r == Ok(CartView(items, Total(items)))
      ensures forall u :: u != userId ==> (u in carts <==> u in old(carts))
      ensures forall u :: u in old(carts) ==> u in carts && carts[u] == old(carts[u])
      ensures userId in carts && userId !in old(carts) ==> fresh(carts[userId])
    {
      ghost var before := LinesOrEmpty(userId);
      var q := AddQuantity(quantity);
      if !ids.isValid(productId) {
        return Err(Plain(InvalidProductId));
      }
      if !IsCount(q) {
        return Err(Plain(BadQuantity));
      }
      var key := ids.canon(productId);
      if key !in products.byId {
        return Err(Plain(ProductNotFound));
      }
      var p := products.byId[key];
      if p.stock < q.n {
        return Err(OutOfStock(p));
      }
      AddedIsMerge(products.byId, ids, LinesOrEmpty(userId), productId, quantity);
      if userId !in carts {
        var cart := new CartDoc(userId, [CartItem(key, q.n, UnitPrice(p))]);
        assert cart.items == [] + [CartItem(key, q.n, UnitPrice(p))];
        MergeAddsUnits([], key, q.n, p);
        cart.Save();
        carts := carts[userId := cart];
        r := Ok(CartView(cart.items, cart.totalPrice));
      } else {
        r := MergeInto(carts[userId], key, q.n, p);
      }
    }

    /** Lines 60-88. */
    method UpdateItem(products: Products, ids: Ids, userId: string, productId: Value, quantity: Value)
      returns (r: Result<CartView>)
      requires Valid() && products.Valid()
      modifies CartOf(userId)
      ensures Valid()
      ensures match Updated(products.byId, ids, old(Lines(userId)), productId, quantity)
              case Err(e) => r == Err(e) && (userId in carts ==> unchanged(carts[userId]))
              case Ok(items) => carts[userId].items == items && r == Ok(CartView(items, Total(items)))
    {
      if !ids.isValid(productId) {
        return Err(Plain(InvalidProductId));
      }
      if !IsCount(quantity) {
        return Err(Plain(BadQuantity));
      }
      if userId !in carts {
        return Err(Plain(CartNotFound));
      }
      var cart := carts[userId];
      var key := ids.canon(productId);
      var i := FindIndex(cart.items, key);
      if i < 0 {
        return Err(Plain(NotInCart));
      }
      if key !in products.byId {
        return Err(Plain(ProductNotFound));
      }
      var p := products.byId[key];
      if p.stock < quantity.n {
        return Err(OutOfStock(p));
      }
      UpdatedSetsQuantity(products.byId, ids, cart.items, productId, quantity);
      r := SetLine(cart, i, quantity.n, UnitPrice(p));
    }

    /** Lines 90-110. */
    method RemoveItem(ids: Ids, userId: string, productId: Value) returns (r: Result<CartView>)
      requires Valid()
      modifies CartOf(userId)
      ensures Valid()
      ensures match Removed(ids, old(Lines(userId)), productId)
              case Err(e) => r == Err(e) && (userId in carts ==> unchanged(carts[userId]))
              case Ok(items) => carts[userId].items == items && r == Ok(CartView(items, Total(items)))
    {
      if !ids.isValid(productId) {
        return Err(Plain(InvalidProductId));
      }
      if userId !in carts {
        return Err(Plain(CartNotFound));
      }
      var cart := carts[userId];
      var key := ids.canon(productId);
      var i := FindIndex(cart.items, key);
      if i < 0 {
        return Err(Plain(NotInCart));
      }
      RemovedDropsProduct(ids, Some(cart.items), productId);
      cart.items := Without(cart.items, key);
      cart.Save();
      r := Ok(CartView(cart.items, cart.totalPrice));
    }

    /** Lines 112-120: the cart, if any, is emptied; the answer is always an empty
        cart with a zero total. */
    method ClearCart(userId: string) returns (r: CartView)
      requires Valid()
      modifies CartOf(userId)
      ensures Valid()
      ensures r == CartView([], 0)
      ensures userId in carts ==> carts[userId].items == [] && carts[userId].totalPrice == 0
    {
      if userId !in carts {
        return CartView([], 0);
      }
      var cart := carts[userId];
      cart.items := [];
      cart.Save();
      r := CartView([], 0);
    }
  }
}
