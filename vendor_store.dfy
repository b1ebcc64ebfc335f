/** A vendor's store page: its own filter and sort pipeline over the vendor's
    products, the category list, and the guarded add-to-cart. */
module VendorStore {
  import opened Seqs
  import opened Strings
  import opened Catalog
  import opened ProductsContext
  import opened Cart

  /** A price box: empty, a number (in cents), or text `parseFloat` reads as NaN. */
  datatype PriceInput = Blank | Number(cents: int) | NotANumber

  datatype StoreFilters = StoreFilters(
    searchTerm: string, selectedCategory: string, minPrice: PriceInput,
    maxPrice: PriceInput, inStockOnly: bool)

  const StoreCleared := StoreFilters("", "", Blank, Blank, false)

  /** `vendor ? getVendorProducts(vendor.id) : []` for the vendor named in the URL. */
  function AllProducts(products: seq<Product>, vendors: seq<Vendor>, id: string): (r: seq<Product>)
    ensures forall p :: p in r ==> p in products && p.vendor.id == id
    ensures (forall i :: 0 <= i < |vendors| ==> vendors[i].id != id) ==> r == []
    ensures (exists i :: 0 <= i < |vendors| && vendors[i].id == id) ==>
              forall p :: p in r <==> p in products && p.vendor.id == id
    ensures (exists i :: 0 <= i < |vendors| && vendors[i].id == id) ==>
              forall p :: multiset(r)[p] == if p.vendor.id == id then multiset(products)[p] else 0
    ensures IsSubseq(r, products)
  {
    match GetVendorById(vendors, id)
    case None =>
      SubseqRefl(products);
      []
    case Some(v) => GetVendorProducts(products, v.id)
  }

  /** Name, description or category (not the tags) includes the search, ignoring case. */
  predicate StoreSearchHit(p: Product, term: string)
  {
    Contains(Lower(p.name), Lower(term)) || Contains(Lower(p.description), Lower(term))
    || Contains(Lower(p.category), Lower(term))
  }

  predicate AtLeastMin(p: Product, bound: PriceInput)
  {
    match bound
    case Blank => true
    case Number(m) => p.price >= m
    case NotANumber => false
  }

  predicate AtMostMax(p: Product, bound: PriceInput)
  {
    match bound
    case Blank => true
    case Number(m) => p.price <= m
    case NotANumber => false
  }

  /** What a product must satisfy to be shown: every check whose input is set. */
  predicate StoreMatches(p: Product, f: StoreFilters)
  {
    && (f.searchTerm == "" || StoreSearchHit(p, f.searchTerm))
    && (f.selectedCategory == "" || f.selectedCategory == "all" || p.category == f.selectedCategory)
    && AtLeastMin(p, f.minPrice)
    && AtMostMax(p, f.maxPrice)
    && (!f.inStockOnly || p.inStock)
  }

  /** The first `k` checks of `StoreMatches`, in the effect's order. */
  predicate Stages(p: Product, f: StoreFilters, k: nat)
  {
    && (k < 1 || f.searchTerm == "" || StoreSearchHit(p, f.searchTerm))
    && (k < 2 || f.selectedCategory == "" || f.selectedCategory == "all" || p.category == f.selectedCategory)
    && (k < 3 || AtLeastMin(p, f.minPrice))
    && (k < 4 || AtMostMax(p, f.maxPrice))
    && (k < 5 || !f.inStockOnly || p.inStock)
  }

  function UpTo(f: StoreFilters, k: nat): Product -> bool
  {
    (p: Product) => Stages(p, f, k)
  }

  function SearchStep(term: string): Product -> bool
  {
    (p: Product) => StoreSearchHit(p, term)
  }

  function CategoryStep(category: string): Product -> bool
  {
    (p: Product) => p.category == category
  }

  function MinStep(bound: PriceInput): Product -> bool
  {
    (p: Product) => AtLeastMin(p, bound)
  }

  function MaxStep(bound: PriceInput): Product -> bool
  {
    (p: Product) => AtMostMax(p, bound)
  }

  function StockStep(): Product -> bool
  {
    (p: Product) => p.inStock
  }

  /** One stage of the effect: applying stage `k`'s filter when its input is
      set, and nothing otherwise, turns the first `k - 1` checks into the first `k`. */
  lemma StageStep(all: seq<Product>, f: StoreFilters, k: nat, applied: bool, step: Product -> bool)
    requires 1 <= k
    requires applied ==> forall p :: Stages(p, f, k) == (Stages(p, f, k - 1) && step(p))
    requires !applied ==> forall p :: Stages(p, f, k) == Stages(p, f, k - 1)
    ensures (if applied then Filter(Filter(all, UpTo(f, k - 1)), step) else Filter(all, UpTo(f, k - 1)))
            == Filter(all, UpTo(f, k))
  {
    if applied {
      FilterFilter(all, UpTo(f, k - 1), step, UpTo(f, k));
    } else {
      FilterExt(all, UpTo(f, k - 1), UpTo(f, k));
    }
  }

  lemma SearchStage(all: seq<Product>, f: StoreFilters)
    ensures (if f.searchTerm != "" then Filter(Filter(all, UpTo(f, 0)), SearchStep(f.searchTerm))
             else Filter(all, UpTo(f, 0))) == Filter(all, UpTo(f, 1))
  {
    StageStep(all, f, 1, f.searchTerm != "", SearchStep(f.searchTerm));
  }

  lemma CategoryStage(all: seq<Product>, f: StoreFilters)
    ensures (if f.selectedCategory != "" && f.selectedCategory != "all"
             then Filter(Filter(all, UpTo(f, 1)), CategoryStep(f.selectedCategory))
             else Filter(all, UpTo(f, 1))) == Filter(all, UpTo(f, 2))
  {
    StageStep(all, f, 2, f.selectedCategory != "" && f.selectedCategory != "all", CategoryStep(f.selectedCategory));
  }

  lemma MinStage(all: seq<Product>, f: StoreFilters)
    ensures (if !f.minPrice.Blank? then Filter(Filter(all, UpTo(f, 2)), MinStep(f.minPrice))
             else Filter(all, UpTo(f, 2))) == Filter(all, UpTo(f, 3))
  {
    StageStep(all, f, 3, !f.minPrice.Blank?, MinStep(f.minPrice));
  }

  lemma MaxStage(all: seq<Product>, f: StoreFilters)
    ensures (if !f.maxPrice.Blank? then Filter(Filter(all, UpTo(f, 3)), MaxStep(f.maxPrice))
             else Filter(all, UpTo(f, 3))) == Filter(all, UpTo(f, 4))
  {
    StageStep(all, f, 4, !f.maxPrice.Blank?, MaxStep(f.maxPrice));
  }

  lemma StockStage(all: seq<Product>, f: StoreFilters)
    ensures (if f.inStockOnly then Filter(Filter(all, UpTo(f, 4)), StockStep())
             else Filter(all, UpTo(f, 4))) == Filter(all, UpTo(f, 5))
  {
    StageStep(all, f, 5, f.inStockOnly, StockStep());
  }

  /** The sorted result lists exactly the vendor's products that pass every check. */
  lemma StoreListingMembers(all: seq<Product>, f: StoreFilters, key: SortKey, p: Product)
    ensures p in SortProducts(Filter(all, UpTo(f, 5)), key) <==> p in all && StoreMatches(p, f)
  {
    SortedMembers(Filter(all, UpTo(f, 5)), key, p);
    assert StoreMatches(p, f) == UpTo(f, 5)(p);
  }

  /** The effect: narrow a local list stage by stage, then sort it. */
  method ApplyFilters(allProducts: seq<Product>, f: StoreFilters, sortBy: string)
    returns (filtered: seq<Product>)
    ensures filtered == SortProducts(Filter(allProducts, UpTo(f, 5)), ParseSortKey(sortBy))
    ensures forall p :: p in filtered <==> p in allProducts && StoreMatches(p, f)
  {
    filtered := allProducts;
    FilterAll(allProducts, UpTo(f, 0));

    if f.searchTerm != "" {
      filtered := Filter(filtered, SearchStep(f.searchTerm));
    }
    SearchStage(allProducts, f);
    assert filtered == Filter(allProducts, UpTo(f, 1));

    if f.selectedCategory != "" && f.selectedCategory != "all" {
      filtered := Filter(filtered, CategoryStep(f.selectedCategory));
    }
    CategoryStage(allProducts, f);
    assert filtered == Filter(allProducts, UpTo(f, 2));

    if !f.minPrice.Blank? {
      filtered := Filter(filtered, MinStep(f.minPrice));
    }
    MinStage(allProducts, f);
    assert filtered == Filter(allProducts, UpTo(f, 3));

    if !f.maxPrice.Blank? {
      filtered := Filter(filtered, MaxStep(f.maxPrice));
    }
    MaxStage(allProducts, f);
    assert filtered == Filter(allProducts, UpTo(f, 4));

    if f.inStockOnly {
      filtered := Filter(filtered, StockStep());
    }
    StockStage(allProducts, f);
    assert filtered == Filter(allProducts, UpTo(f, 5));

    filtered := SortProducts(filtered, ParseSortKey(sortBy));
    forall p ensures p in filtered <==> p in allProducts && StoreMatches(p, f) {
      StoreListingMembers(allProducts, f, ParseSortKey(sortBy), p);
    }
  }

  /** The store's price boxes against the catalogue's price bounds: a typed
      bound is applied whatever its value, while the catalogue ignores a 0
      bound. A typed maximum of "0" therefore hides every priced product, where
      a 0 maximum in the catalogue filter hides nothing. */
  lemma TypedZeroMaxApplies(p: Product, m: int)
    ensures StoreMatches(p, StoreCleared.(maxPrice := Number(m))) <==> p.price <= m
    ensures MeetsFilters(p, NoFilters.(maxPrice := Some(m))) <==> m == 0 || p.price <= m
    ensures StoreMatches(p, StoreCleared.(minPrice := Number(m))) <==> m <= p.price
    ensures MeetsFilters(p, NoFilters.(minPrice := Some(m))) <==> m == 0 || m <= p.price
  {
  }

  /** Text in a price box that is not a number hides every product. */
  lemma NotANumberHidesAll(p: Product, f: StoreFilters)
    requires f.minPrice == NotANumber || f.maxPrice == NotANumber
    ensures !StoreMatches(p, f)
  {
  }

  /** `Array.from(new Set(allProducts.map(p => p.category))).sort()`. */
  function VendorCategories(allProducts: seq<Product>): (r: seq<string>)
    ensures forall c :: c in r <==> exists i :: 0 <= i < |allProducts| && allProducts[i].category == c
    ensures forall i, j :: 0 <= i < j < |r| ==> r[i] != r[j]
    ensures Sorted(r, StrLe)
  {
    var all := seq(|allProducts|, (i: int) requires 0 <= i < |allProducts| => allProducts[i].category);
    forall c | c in all ensures exists i :: 0 <= i < |allProducts| && allProducts[i].category == c {
      var k :| 0 <= k < |all| && all[k] == c;
      assert allProducts[k].category == c;
    }
    forall i | 0 <= i < |allProducts| ensures allProducts[i].category in all {
      assert all[i] == allProducts[i].category;
    }
    DistinctSorted(all)
  }

  /** The object `handleAddToCart` passes to `addItem`: no quantity, so the
      cart's default applies. */
  function StoreCartItem(p: Product): (r: CartItem)
    ensures r.id == p.id && r.name == p.name && r.price == p.price && r.vendor == p.vendor
    ensures r.image == FirstImage(p.images) && r.maxQuantity == p.stockQuantity
    ensures r.quantity.None?
  {
    CartItem(p.id, p.name, p.price, FirstImage(p.images), p.vendor, p.stockQuantity, None)
  }

  /** `handleAddToCart`: an out-of-stock product never reaches the cart. */
  method HandleAddToCart(cart: CartRecorder, p: Product)
    modifies cart
    ensures !p.inStock ==> cart.calls == old(cart.calls)
    ensures p.inStock ==> cart.calls == old(cart.calls) + [CartCall.AddItem(StoreCartItem(p))]
  {
    if !p.inStock {
      return;
    }
    cart.AddItem(StoreCartItem(p));
  }

  /** The page's state; each setter re-runs the effect. */
  class StorePage {
    const allProducts: seq<Product>
    var filters: StoreFilters
    var sortBy: string
    var filteredProducts: seq<Product>

    ghost predicate Valid()
      reads this
    {
      filteredProducts == SortProducts(Filter(allProducts, UpTo(filters, 5)), ParseSortKey(sortBy))
    }

    /** Mount: nothing is filtered and 'newest' keeps the vendor's product order. */
    constructor (allProducts: seq<Product>)
      ensures this.allProducts == allProducts && filters == StoreCleared && sortBy == "newest"
      ensures filteredProducts == allProducts
      ensures Valid()
    {
      this.allProducts := allProducts;
      filters := StoreCleared;
      sortBy := "newest";
      new;
      filteredProducts := ApplyFilters(allProducts, StoreCleared, "newest");
      ClearedKeepsAll(allProducts);
    }

    /** With every input cleared the page lists all of the vendor's products. */
    static lemma ClearedKeepsAll(allProducts: seq<Product>)
      ensures SortProducts(Filter(allProducts, UpTo(StoreCleared, 5)), ParseSortKey("newest")) == allProducts
    {
      FilterAll(allProducts, UpTo(StoreCleared, 5));
    }

    method SetFilters(f: StoreFilters)
      modifies this
      ensures filters == f && sortBy == old(sortBy)
      ensures Valid()
    {
      filters := f;
      filteredProducts := ApplyFilters(allProducts, filters, sortBy);
    }

    method SetSortBy(key: string)
      modifies this
      ensures sortBy == key && filters == old(filters)
      ensures Valid()
    {
      sortBy := key;
      filteredProducts := ApplyFilters(allProducts, filters, sortBy);
    }

    /** `clearFilters`: every input emptied and the sort back to 'newest'. */
    method ClearFilters()
      modifies this
      ensures filters == StoreCleared && sortBy == "newest"
      ensures filteredProducts == allProducts
      ensures Valid()
    {
      filters := StoreCleared;
      sortBy := "newest";
      filteredProducts := ApplyFilters(allProducts, filters, sortBy);
      ClearedKeepsAll(allProducts);
    }
  }
}
