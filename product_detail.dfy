/** The product page: the quantity stepper, the image carousel, the related
    products strip and the add-to-cart call. */
module ProductDetail {
  import opened Seqs
  import opened Catalog
  import opened ProductsContext
  import opened Cart

  /** The "-" button: `Math.max(1, quantity - 1)`. */
  function Decrement(quantity: int): (r: int)
    ensures r >= 1
    ensures quantity >= 2 ==> r == quantity - 1
    ensures quantity <= 1 ==> r == 1
  {
    if quantity - 1 >= 1 then quantity - 1 else 1
  }

  /** The "+" button: `Math.min(stockQuantity, quantity + 1)`. */
  function Increment(quantity: int, stock: int): (r: int)
    ensures r <= stock && r <= quantity + 1
    ensures quantity < stock ==> r == quantity + 1
    ensures quantity >= stock ==> r == stock
  {
    if stock <= quantity + 1 then stock else quantity + 1
  }

  /** Starting from 1, with some stock, the stepper keeps the quantity in `[1, stock]`. */
  lemma StepperStaysInRange(quantity: int, stock: int)
    requires 1 <= quantity <= stock
    ensures 1 <= Decrement(quantity) <= stock
    ensures 1 <= Increment(quantity, stock) <= stock
  {
  }

  /** "+" then "-" gives back the quantity whenever "+" was not capped. */
  lemma IncrementThenDecrement(quantity: int, stock: int)
    requires 1 <= quantity < stock
    ensures Decrement(Increment(quantity, stock)) == quantity
  {
  }

  /** With a stock of 0 the "+" button sets the quantity to 0, below the
      minimum the "-" button keeps. */
  lemma IncrementWithoutStock(quantity: int)
    requires quantity >= 0
    ensures Increment(quantity, 0) == 0
  {
  }

  /** `nextImage`: the last image wraps to the first. */
  function NextImage(index: int, count: int): (r: int)
    ensures 0 <= index < count ==> 0 <= r < count && r == (index + 1) % count
  {
    if index == count - 1 then 0 else index + 1
  }

  /** `previousImage`: the first image wraps to the last. */
  function PreviousImage(index: int, count: int): (r: int)
    ensures 0 <= index < count ==> 0 <= r < count && r == (index + count - 1) % count
  {
    if index == 0 then count - 1 else index - 1
  }

  /** After a switch to a product with fewer images, the index can lie past
      the last image. The right arrow then only moves it further out, and the
      left arrow needs one click per missing image to come back. */
  lemma StaleIndexNeverWraps(index: int, count: int)
    requires 1 <= count <= index
    ensures NextImage(index, count) == index + 1
    ensures PreviousImage(index, count) == index - 1
  {
  }

  /** The two arrows undo each other. */
  lemma ArrowsInverse(index: int, count: int)
    requires 0 <= index < count
    ensures PreviousImage(NextImage(index, count), count) == index
    ensures NextImage(PreviousImage(index, count), count) == index
  {
  }

  /** `k` clicks on the right arrow. */
  function Iterate(index: int, count: int, k: nat): (r: int)
    requires 0 <= index < count
    ensures 0 <= r < count
  {
    if k == 0 then index else NextImage(Iterate(index, count, k - 1), count)
  }

  /** Up to `count` clicks on the right arrow move `k` images on, wrapping once. */
  lemma {:induction false} ArrowClicks(index: int, count: int, k: nat)
    requires 0 <= index < count && k <= count
    ensures Iterate(index, count, k) == if index + k < count then index + k else index + k - count
  {
    if k > 0 {
      ArrowClicks(index, count, k - 1);
    }
  }

  /** `count` clicks on the right arrow come back to the same image. */
  lemma FullCycle(index: int, count: int)
    requires 0 <= index < count
    ensures Iterate(index, count, count) == index
  {
    ArrowClicks(index, count, count);
  }

  /** The products shown under "More from this vendor": up to four others
      from the same vendor, in catalogue order. */
  function RelatedProducts(products: seq<Product>, product: Product): (r: seq<Product>)
    ensures |r| <= 4
    ensures forall i :: 0 <= i < |r| ==> r[i] in products && r[i].vendor.id == product.vendor.id
                                         && r[i].id != product.id
    ensures r == Take(Filter(products, (p: Product) => p.vendor.id == product.vendor.id && p.id != product.id), 4)
  {
    var vendorId := product.vendor.id;
    var sameVendor := (p: Product) => p.vendor.id == vendorId;
    var other := (p: Product) => p.id != product.id;
    var both := (p: Product) => p.vendor.id == product.vendor.id && p.id != product.id;
    FilterFilter(products, sameVendor, other, both);
    var r := Take(Filter(GetVendorProducts(products, vendorId), other), 4);
    assert forall i :: 0 <= i < |r| ==> r[i] in Filter(products, both);
    r
  }

  /** The object `handleAddToCart` passes to `addItem`: the chosen quantity,
      with the stock as the cap. */
  function DetailCartItem(p: Product, quantity: int): (r: CartItem)
    ensures r.id == p.id && r.name == p.name && r.price == p.price && r.vendor == p.vendor
    ensures r.image == FirstImage(p.images) && r.maxQuantity == p.stockQuantity
    ensures r.quantity == Some(quantity)
  {
    CartItem(p.id, p.name, p.price, FirstImage(p.images), p.vendor, p.stockQuantity, Some(quantity))
  }

  /** The page's state. `product` is what the route's id resolves to; a link
      to another product keeps the page mounted, so `quantity` and
      `imageIndex` carry over to the new product. */
  class DetailPage {
    var product: Product
    var quantity: int
    var imageIndex: int

    /** The image shown exists, or the product has none and the index is 0.
        This holds from mount and under the arrows and thumbnails, but not
        necessarily after `ShowProduct`. */
    ghost predicate Valid()
      reads this
    {
      (|product.images| == 0 && imageIndex == 0) || 0 <= imageIndex < |product.images|
    }

    constructor (product: Product)
      ensures this.product == product && quantity == 1 && imageIndex == 0
      ensures Valid()
    {
      this.product := product;
      quantity := 1;
      imageIndex := 0;
    }

    /** Following a link to another product (`/products/:id` with a new
        id): the same component renders the new product, and nothing resets
        the quantity or the image index. */
    method ShowProduct(p: Product)
      modifies this
      ensures product == p && quantity == old(quantity) && imageIndex == old(imageIndex)
    {
      product := p;
    }

    method DecreaseQuantity()
      modifies this
      ensures quantity == Decrement(old(quantity)) && imageIndex == old(imageIndex)
      ensures product == old(product)
    {
      quantity := Decrement(quantity);
    }

    method IncreaseQuantity()
      modifies this
      ensures quantity == Increment(old(quantity), product.stockQuantity) && imageIndex == old(imageIndex)
      ensures product == old(product)
    {
      quantity := Increment(quantity, product.stockQuantity);
    }

    /** The right arrow, shown only for a product with more than one image. */
    method ShowNextImage()
      requires |product.images| > 1
      modifies this
      ensures imageIndex == NextImage(old(imageIndex), |product.images|) && quantity == old(quantity)
      ensures product == old(product)
      ensures old(Valid()) ==> Valid()
    {
      imageIndex := NextImage(imageIndex, |product.images|);
    }

    /** The left arrow, shown only for a product with more than one image. */
    method ShowPreviousImage()
      requires |product.images| > 1
      modifies this
      ensures imageIndex == PreviousImage(old(imageIndex), |product.images|) && quantity == old(quantity)
      ensures product == old(product)
      ensures old(Valid()) ==> Valid()
    {
      imageIndex := PreviousImage(imageIndex, |product.images|);
    }

    /** A thumbnail, one per image. */
    method SelectImage(index: int)
      requires 0 <= index < |product.images|
      modifies this
      ensures imageIndex == index && quantity == old(quantity) && product == old(product)
      ensures Valid()
    {
      imageIndex := index;
    }

    /** The Add to Cart button, disabled for a product out of stock. */
    method AddToCart(cart: CartRecorder)
      requires product.inStock
      modifies cart
      ensures cart.calls == old(cart.calls) + [CartCall.AddItem(DetailCartItem(product, quantity))]
    {
      cart.AddItem(DetailCartItem(product, quantity));
    }
  }
}
