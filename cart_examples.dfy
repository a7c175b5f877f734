/** The line lookups of `addItem`, `updateItem` and `removeItem` compare the ids
    stored on the lines, which print as lower-case hex, with the raw text of the
    requested id; and what the duplicate lines this makes do to an order. */
module CartExamples {
  import opened Wrappers
  import opened Js
  import opened CartModel
  import opened Store
  import opened CartService
  import opened OrderService

  /** As written, a valid id whose text differs from its stored form misses its own
      line, and `addItem` appends a second line for the same product. */
  lemma AsWrittenDuplicatesLine(products: map<string, Product>, ids: Ids, items: seq<CartItem>,
                                productId: Value, quantity: Value, i: nat)
    requires AddChecksPass(products, ids, productId, quantity)
    requires i < |items| && items[i].product == ids.canon(productId)
    requires forall j :: 0 <= j < |items| ==> items[j].product != ToStr(productId)
    ensures AddedAsWritten(products, ids, items, productId, quantity)
         == Ok(items + [CartItem(ids.canon(productId), AddQuantity(quantity).n, UnitPrice(products[ids.canon(productId)]))])
    ensures !UniqueProducts(AddedAsWritten(products, ids, items, productId, quantity).value)
  {
    var key := ids.canon(productId);
    var items' := items + [CartItem(key, AddQuantity(quantity).n, UnitPrice(products[key]))];
    assert items'[i].product == items'[|items|].product;
  }

  /** ObjectId text for a 24-digit hex id: the same digits in lower case. */
  const HexIds := Ids(v => true, v => Lower(ToStr(v)))

  const UpperId := "507F1F77BCF86CD799439011"

  /** A cart holding one unit of a product, and a second request for it spelled in
      upper case: as written the cart ends with two lines for that product; with
      the lookup on the stored id it holds one line of two units. */
  lemma UpperCaseIdSplitsLine()
    ensures var key := Lower(UpperId);
            var products := map[key := Product("Phone", 100, None, 10)];
            var items := [CartItem(key, 1, 100)];
            && !UniqueProducts(AddedAsWritten(products, HexIds, items, Str(UpperId), Num(1)).value)
            && Added(products, HexIds, items, Str(UpperId), Num(1)) == Ok([CartItem(key, 2, 100)])
  {
    var key := Lower(UpperId);
    var products := map[key := Product("Phone", 100, None, 10)];
    var items := [CartItem(key, 1, 100)];
    assert key[3] != UpperId[3];
    assert HexIds.canon(Str(UpperId)) == key;
    AsWrittenDuplicatesLine(products, HexIds, items, Str(UpperId), Num(1), 0);
    AddedIsMerge(products, HexIds, items, Str(UpperId), Num(1));
    assert IndexOf(items, key) == 0;
    assert AddQuantity(Num(1)).n == 1;
    assert items[0 := items[0].(quantity := items[0].quantity + 1)] == [CartItem(key, 2, 100)];
    assert Added(products, HexIds, items, Str(UpperId), Num(1)) == Ok([CartItem(key, 2, 100)]);
    assert !UniqueProducts(AddedAsWritten(products, HexIds, items, Str(UpperId), Num(1)).value);
  }

  /** As written, `updateItem` and `removeItem` miss the line of a valid id whose
      text differs from its stored form, and answer "Product not in cart". */
  lemma AsWrittenMissesLine(products: map<string, Product>, ids: Ids, items: seq<CartItem>,
                            productId: Value, quantity: Value)
    requires ids.isValid(productId) && IsCount(quantity)
    requires forall j :: 0 <= j < |items| ==> items[j].product != ToStr(productId)
    ensures UpdatedAsWritten(products, ids, Some(items), productId, quantity) == Err(Plain(NotInCart))
    ensures RemovedAsWritten(ids, Some(items), productId) == Err(Plain(NotInCart))
  {
  }

  const Phone := Product("Phone", 100, None, 10)

  /** The upper-case spelling of an id in the cart: as written, updating or removing
      it answers "Product not in cart"; with the lookup on the stored id the line is
      set to three units, or removed. */
  lemma UpperCaseIdNotInCart()
    ensures var key := Lower(UpperId);
            var products := map[key := Phone];
            var items := [CartItem(key, 1, 100)];
            && UpdatedAsWritten(products, HexIds, Some(items), Str(UpperId), Num(3)) == Err(Plain(NotInCart))
            && Updated(products, HexIds, Some(items), Str(UpperId), Num(3)) == Ok([CartItem(key, 3, 100)])
            && RemovedAsWritten(HexIds, Some(items), Str(UpperId)) == Err(Plain(NotInCart))
            && Removed(HexIds, Some(items), Str(UpperId)) == Ok([])
  {
    var key := Lower(UpperId);
    var products := map[key := Phone];
    var items := [CartItem(key, 1, 100)];
    assert key[3] != UpperId[3];
    assert HexIds.canon(Str(UpperId)) == key;
    AsWrittenMissesLine(products, HexIds, items, Str(UpperId), Num(3));
    assert IndexOf(items, key) == 0;
    assert items[0 := CartItem(key, 3, UnitPrice(Phone))] == [CartItem(key, 3, 100)];
    assert Without(items, key) == Without([], key) + [];
  }

  /** The duplicate lines reach the order: with one unit in stock and one in the
      cart, adding the upper-case spelling passes the stock check as written (the
      lookup misses, so only the new unit is checked), the order's per-line checks
      pass, and placing it leaves the stock at -1. With the lookup on the stored id
      the add is refused. */
  lemma UpperCaseIdOverdrawsStock()
    ensures var key := Lower(UpperId);
            var products := map[key := Phone.(stock := 1)];
            var items := [CartItem(key, 1, 100)];
            var items' := AddedAsWritten(products, HexIds, items, Str(UpperId), Num(1));
            && items' == Ok([CartItem(key, 1, 100), CartItem(key, 1, 100)])
            && OrderLines(items'.value, products).Ok?
            && key in TakeAll(products, OrderLines(items'.value, products).value)
            && TakeAll(products, OrderLines(items'.value, products).value)[key].stock == -1
            && Added(products, HexIds, items, Str(UpperId), Num(1)).Err?
  {
    var key := Lower(UpperId);
    var p := Phone.(stock := 1);
    var products := map[key := p];
    var items := [CartItem(key, 1, 100)];
    var twice := [CartItem(key, 1, 100), CartItem(key, 1, 100)];
    assert key[3] != UpperId[3];
    assert HexIds.canon(Str(UpperId)) == key;
    AsWrittenDuplicatesLine(products, HexIds, items, Str(UpperId), Num(1), 0);
    assert UnitPrice(products[key]) == 100 && AddQuantity(Num(1)).n == 1;
    assert items + [CartItem(key, 1, 100)] == twice;
    forall k | 0 <= k < |twice| ensures LineError(twice[k], products).None? {
      assert twice[k] == CartItem(key, 1, 100);
    }
    assert FirstLineError(twice, products).None?;
    var lines := OrderLines(twice, products).value;
    TakeAllStock(products, lines);
    LineUnitsMatchCart(twice, products, key);
    assert QuantityOf(twice, key) == QuantityOf([twice[0]], key) + 1 == 2;
    AddedIsMerge(products, HexIds, items, Str(UpperId), Num(1));
    assert IndexOf(items, key) == 0;
  }
}
