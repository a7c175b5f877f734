/** The parts of the product collection (src/models/Product.js) the cart and order
    services read and write, and the ObjectId rules they rely on. Documents are
    kept in maps keyed by the id as its ObjectId prints. */
module Store {
  import opened Js
  import opened Wrappers

  /** A product as the services see it; `discountPrice` is `None` when the field
      is `null` or absent. Money is in integer paise. */
  datatype Product = Product(name: string, price: int, discountPrice: Option<int>, stock: int)

  /** Product.js lines 20-45: price, discount price and stock are never negative. */
  predicate ValidProduct(p: Product)
  {
    p.price >= 0 && p.stock >= 0 && (p.discountPrice.Some? ==> p.discountPrice.value >= 0)
  }

  /** `product.discountPrice != null ? product.discountPrice : product.price` */
  function UnitPrice(p: Product): (u: int)
    ensures p.discountPrice.Some? ==> u == p.discountPrice.value
    ensures p.discountPrice.None? ==> u == p.price
    ensures ValidProduct(p) ==> u >= 0
  {
    match p.discountPrice
    case Some(d) => d
    case None => p.price
  }

  /** `mongoose.Types.ObjectId.isValid(v)` and the text the ObjectId cast from a
      valid `v` prints (`String(new ObjectId(v))`); both belong to the driver. */
  datatype Ids = Ids(isValid: Value -> bool, canon: Value -> string)

  /** The product collection. */
  class Products {
    var byId: map<string, Product>

    ghost predicate Valid()
      reads this
    {
      forall id :: id in byId ==> ValidProduct(byId[id])
    }

    constructor (byId: map<string, Product>)
      ensures this.byId == byId
    {
      this.byId := byId;
    }

    /** `Product.findByIdAndUpdate(id, { $inc: { stock: -quantity } })`: a missing
        product is left alone. */
    method TakeStock(id: string, quantity: int)
      modifies this
      ensures id in old(byId) ==> byId == old(byId)[id := old(byId)[id].(stock := old(byId)[id].stock - quantity)]
      ensures id !in old(byId) ==> byId == old(byId)
    {
      if id in byId {
        byId := byId[id := byId[id].(stock := byId[id].stock - quantity)];
      }
    }
  }
}
