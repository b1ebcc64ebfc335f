/** The shopping cart as the pages see it. Its own merge and clamp rules are
    not part of this model, so the cart only records the calls it receives. */
module Cart {
  import opened Seqs
  import opened Catalog

  /** The object handed to `addItem`; `quantity` is absent when the caller
      relies on the cart's default. */
  datatype CartItem = CartItem(
    id: string, name: string, price: int, image: Option<string>,
    vendor: Vendor, maxQuantity: int, quantity: Option<int>)

  datatype CartCall = AddItem(item: CartItem) | ClearCart

  /** `product.images[0]`, which is `undefined` for a product without images. */
  function FirstImage(images: seq<string>): (r: Option<string>)
    ensures r.Some? <==> |images| > 0
    ensures r.Some? ==> r.value == images[0]
  {
    if |images| > 0 then Some(images[0]) else None
  }

  class CartRecorder {
    var calls: seq<CartCall>

    constructor ()
      ensures calls == []
    {
      calls := [];
    }

    method AddItem(item: CartItem)
      modifies this
      ensures calls == old(calls) + [CartCall.AddItem(item)]
    {
      calls := calls + [CartCall.AddItem(item)];
    }

    method ClearCart()
      modifies this
      ensures calls == old(calls) + [CartCall.ClearCart]
    {
      calls := calls + [CartCall.ClearCart];
    }
  }
}
