/** The cart document (src/models/Cart.js): a user's list of items, each with a
    quantity of at least one and a non-negative price snapshot, and a total that the
    save hook recomputes from the items. Money is in integer paise. */
module CartModel {

  /** One cart line; `product` is the product id as the stored ObjectId prints it. */
  datatype CartItem = CartItem(product: string, quantity: int, priceSnapshot: int)

  /** Lines 9-19: the item schema's bounds. */
  predicate ValidItem(it: CartItem)
  {
    it.quantity >= 1 && it.priceSnapshot >= 0
  }

  predicate ValidItems(items: seq<CartItem>)
  {
    forall k :: 0 <= k < |items| ==> ValidItem(items[k])
  }

  /** At most one line per product. */
  predicate UniqueProducts(items: seq<CartItem>)
  {
    forall i, j :: 0 <= i < j < |items| ==> items[i].product != items[j].product
  }

  function Subtotal(it: CartItem): int
  {
    it.priceSnapshot * it.quantity
  }

  /** `items.reduce((total, item) => total + item.priceSnapshot * item.quantity, 0)`,
      folded from the left as `reduce` does. */
  function Total(items: seq<CartItem>): int
  {
    if items == [] then 0 else Total(items[..|items| - 1]) + Subtotal(items[|items| - 1])
  }

  /** The total splits over concatenation. */
  lemma {:induction false} TotalAppend(a: seq<CartItem>, b: seq<CartItem>)
    ensures Total(a + b) == Total(a) + Total(b)
    decreases |b|
  {
    if b == [] {
      assert a + b == a;
    } else {
      var b' := b[..|b| - 1];
      assert (a + b)[..|a + b| - 1] == a + b';
      TotalAppend(a, b');
    }
  }

  /** Lines 9-19 and 33-37: valid items never give a negative total. */
  lemma {:induction false} TotalNonNegative(items: seq<CartItem>)
    requires ValidItems(items)
    ensures Total(items) >= 0
  {
    if items != [] {
      var init := items[..|items| - 1];
      assert ValidItems(init) by {
        forall k | 0 <= k < |init| ensures ValidItem(init[k]) { assert init[k] == items[k]; }
      }
      TotalNonNegative(init);
      assert ValidItem(items[|items| - 1]);
    }
  }

  /** Replacing one line changes the total by the difference of the two subtotals. */
  lemma TotalUpdate(items: seq<CartItem>, i: nat, x: CartItem)
    requires i < |items|
    ensures Total(items[i := x]) == Total(items) - Subtotal(items[i]) + Subtotal(x)
  {
    assert items == items[..i] + [items[i]] + items[i + 1..];
    assert items[i := x] == items[..i] + [x] + items[i + 1..];
    TotalAppend(items[..i] + [items[i]], items[i + 1..]);
    TotalAppend(items[..i], [items[i]]);
    TotalAppend(items[..i] + [x], items[i + 1..]);
    TotalAppend(items[..i], [x]);
  }

  /** The cart document. `user` is unique across carts (lines 23-28); the
      service's store keeps one cart per user id. */
  class CartDoc {
    const user: string
    var items: seq<CartItem>
    var totalPrice: int

    /** Saved state: schema bounds, one line per product, and the hook's total. */
    ghost predicate Valid()
      reads this
    {
      ValidItems(items) && UniqueProducts(items) && totalPrice == Total(items)
    }

    /** `new Cart({ user, items })`: the total keeps its default 0 until saved. */
    constructor (user: string, items: seq<CartItem>)
      ensures this.user == user && this.items == items && totalPrice == 0
    {
      this.user := user;
      this.items := items;
      totalPrice := 0;
    }

    /** Lines 46-55: the `pre('save')` hook recomputes the total from the items,
        whatever its previous value, so saving again changes nothing. */
    method Save()
      modifies this
      ensures items == old(items)
      ensures totalPrice == Total(items)
      ensures ValidItems(items) && UniqueProducts(items) ==> Valid()
    {
      if |items| > 0 {
        totalPrice := Total(items);
      } else {
        totalPrice := 0;
      }
    }
  }
}
