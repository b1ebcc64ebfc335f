/** The products context: filter, search and sort state, the visible list
    derived from them, and linear-scan lookups over the catalogue. */
module ProductsContext {
  import opened Seqs
  import opened Strings
  import opened Catalog

  /** One key of a partial filter object given to `setFilters`: absent from the
      object, or present with a value (`Assign(None)` is an explicit `undefined`). */
  datatype Update<T> = Unchanged | Assign(value: Option<T>)

  datatype FiltersPatch = FiltersPatch(
    category: Update<string>, subcategory: Update<string>, vendor: Update<string>,
    location: Update<string>, minPrice: Update<int>, maxPrice: Update<int>,
    inStock: Update<bool>, search: Update<string>)

  function Overwrite<T>(u: Update<T>, prev: Option<T>): Option<T>
  {
    match u
    case Unchanged => prev
    case Assign(v) => v
  }

  /** `{ ...prev, ...patch }`: the keys present in the patch replace the old
      values, every other key keeps its old value. */
  function MergeFilters(prev: ProductFilters, patch: FiltersPatch): (r: ProductFilters)
    ensures patch.category.Assign? ==> r.category == patch.category.value
    ensures patch.category.Unchanged? ==> r.category == prev.category
    ensures patch.subcategory.Assign? ==> r.subcategory == patch.subcategory.value
    ensures patch.subcategory.Unchanged? ==> r.subcategory == prev.subcategory
    ensures patch.vendor.Assign? ==> r.vendor == patch.vendor.value
    ensures patch.vendor.Unchanged? ==> r.vendor == prev.vendor
    ensures patch.location.Assign? ==> r.location == patch.location.value
    ensures patch.location.Unchanged? ==> r.location == prev.location
    ensures patch.minPrice.Assign? ==> r.minPrice == patch.minPrice.value
    ensures patch.minPrice.Unchanged? ==> r.minPrice == prev.minPrice
    ensures patch.maxPrice.Assign? ==> r.maxPrice == patch.maxPrice.value
    ensures patch.maxPrice.Unchanged? ==> r.maxPrice == prev.maxPrice
    ensures patch.inStock.Assign? ==> r.inStock == patch.inStock.value
    ensures patch.inStock.Unchanged? ==> r.inStock == prev.inStock
    ensures patch.search.Assign? ==> r.search == patch.search.value
    ensures patch.search.Unchanged? ==> r.search == prev.search
  {
    ProductFilters(
      Overwrite(patch.category, prev.category), Overwrite(patch.subcategory, prev.subcategory),
      Overwrite(patch.vendor, prev.vendor), Overwrite(patch.location, prev.location),
      Overwrite(patch.minPrice, prev.minPrice), Overwrite(patch.maxPrice, prev.maxPrice),
      Overwrite(patch.inStock, prev.inStock), Overwrite(patch.search, prev.search))
  }

  /** An empty patch leaves the filters as they were. */
  lemma EmptyPatchKeepsFilters(prev: ProductFilters)
    ensures MergeFilters(prev, FiltersPatch(Unchanged, Unchanged, Unchanged, Unchanged,
                                            Unchanged, Unchanged, Unchanged, Unchanged)) == prev
  {
  }

  /** The derived `filteredProducts`: `sortProducts(filterProducts(products,
      { ...filters, search: searchTerm }), sortBy)`. The search term always
      replaces whatever `filters.search` holds. */
  function VisibleProducts(products: seq<Product>, filters: ProductFilters, searchTerm: string,
                           sortBy: SortKey): (r: seq<Product>)
    ensures forall p :: p in r <==> p in products && MeetsFilters(p, filters.(search := Some(searchTerm)))
    ensures forall p :: multiset(r)[p] ==
              if MeetsFilters(p, filters.(search := Some(searchTerm))) then multiset(products)[p] else 0
    ensures sortBy == PriceLow ==> forall i, j :: 0 <= i < j < |r| ==> r[i].price <= r[j].price
    ensures sortBy == PriceHigh ==> forall i, j :: 0 <= i < j < |r| ==> r[i].price >= r[j].price
    ensures sortBy == ByRating ==> forall i, j :: 0 <= i < j < |r| ==> r[i].rating >= r[j].rating
    ensures sortBy == ByName ==> forall i, j :: 0 <= i < j < |r| ==> StrLe(r[i].name, r[j].name)
    ensures sortBy == Newest ==> IsSubseq(r, products)
  {
    var filtered := FilterProducts(products, filters.(search := Some(searchTerm)));
    var r := SortProducts(filtered, sortBy);
    SubseqMembers(filtered, products);
    forall p ensures p in r <==> p in filtered {
      SortedMembers(filtered, sortBy, p);
    }
    r
  }

  /** The initial state (no filters, empty search, 'newest') shows every product
      in catalogue order, which is also what `filteredProducts` starts as. */
  lemma InitialViewIsCatalogue(products: seq<Product>)
    ensures VisibleProducts(products, NoFilters, "", Newest) == products
  {
    NoFiltersKeepAll(products, NoFilters.(search := Some("")));
  }

  /** `getProductById`: the first product with that id, if there is one. */
  function GetProductById(products: seq<Product>, id: string): (r: Option<Product>)
    ensures r.None? <==> forall i :: 0 <= i < |products| ==> products[i].id != id
    ensures r.Some? ==> exists i :: 0 <= i < |products| && products[i] == r.value && r.value.id == id
                                    && forall j :: 0 <= j < i ==> products[j].id != id
  {
    match FindIndex(products, (p: Product) => p.id == id)
    case None => None
    case Some(k) => Some(products[k])
  }

  /** `getVendorById`: the first vendor with that id, if there is one. */
  function GetVendorById(vendors: seq<Vendor>, id: string): (r: Option<Vendor>)
    ensures r.None? <==> forall i :: 0 <= i < |vendors| ==> vendors[i].id != id
    ensures r.Some? ==> exists i :: 0 <= i < |vendors| && vendors[i] == r.value && r.value.id == id
                                    && forall j :: 0 <= j < i ==> vendors[j].id != id
  {
    match FindIndex(vendors, (v: Vendor) => v.id == id)
    case None => None
    case Some(k) => Some(vendors[k])
  }

  /** `getVendorProducts`: exactly the products whose vendor has that id, in order. */
  function GetVendorProducts(products: seq<Product>, vendorId: string): (r: seq<Product>)
    ensures forall p :: p in r <==> p in products && p.vendor.id == vendorId
    ensures forall p :: multiset(r)[p] == if p.vendor.id == vendorId then multiset(products)[p] else 0
    ensures IsSubseq(r, products)
  {
    var keep := (p: Product) => p.vendor.id == vendorId;
    forall p ensures multiset(Filter(products, keep))[p] == if keep(p) then multiset(products)[p] else 0 {
      FilterMultiset(products, keep, p);
    }
    Filter(products, keep)
  }

  /** `getFeaturedProducts`: exactly the products whose `featured` is truthy, in order. */
  function GetFeaturedProducts(products: seq<Product>): (r: seq<Product>)
    ensures forall p :: p in r <==> p in products && p.featured == Some(true)
    ensures forall p :: multiset(r)[p] == if p.featured == Some(true) then multiset(products)[p] else 0
    ensures IsSubseq(r, products)
  {
    var keep := (p: Product) => p.featured == Some(true);
    forall p ensures multiset(Filter(products, keep))[p] == if keep(p) then multiset(products)[p] else 0 {
      FilterMultiset(products, keep, p);
    }
    Filter(products, keep)
  }

  /** The provider's state. The catalogue never changes; `vendors` is an array
      because pages may reorder it in place. Each setter recomputes the visible
      list at once (the model collapses the effect that follows a render). */
  class ProductsStore {
    const products: seq<Product>
    const vendors: array<Vendor>
    const categories: seq<Category>
    var searchTerm: string
    var filters: ProductFilters
    var sortBy: SortKey
    var filteredProducts: seq<Product>

    ghost predicate Valid()
      reads this
    {
      filteredProducts == VisibleProducts(products, filters, searchTerm, sortBy)
    }

    constructor (products: seq<Product>, vendors: array<Vendor>, categories: seq<Category>)
      ensures this.products == products && this.vendors == vendors && this.categories == categories
      ensures searchTerm == "" && filters == NoFilters && sortBy == Newest
      ensures filteredProducts == products
      ensures Valid()
    {
      this.products := products;
      this.vendors := vendors;
      this.categories := categories;
      searchTerm := "";
      filters := NoFilters;
      sortBy := Newest;
      filteredProducts := products;
      InitialViewIsCatalogue(products);
    }

    method SetSearchTerm(term: string)
      modifies this
      ensures searchTerm == term && filters == old(filters) && sortBy == old(sortBy)
      ensures Valid()
    {
      searchTerm := term;
      filteredProducts := VisibleProducts(products, filters, searchTerm, sortBy);
    }

    /** `handleSetFilters`: a shallow merge into the current filters. */
    method SetFilters(patch: FiltersPatch)
      modifies this
      ensures filters == MergeFilters(old(filters), patch)
      ensures searchTerm == old(searchTerm) && sortBy == old(sortBy)
      ensures Valid()
    {
      filters := MergeFilters(filters, patch);
      filteredProducts := VisibleProducts(products, filters, searchTerm, sortBy);
    }

    method SetSortBy(key: SortKey)
      modifies this
      ensures sortBy == key && filters == old(filters) && searchTerm == old(searchTerm)
      ensures Valid()
    {
      sortBy := key;
      filteredProducts := VisibleProducts(products, filters, searchTerm, sortBy);
    }

    /** `clearFilters`: back to the initial state, which lists the whole catalogue. */
    method ClearFilters()
      modifies this
      ensures filters == NoFilters && searchTerm == "" && sortBy == Newest
      ensures filteredProducts == products
      ensures Valid()
    {
      filters := NoFilters;
      searchTerm := "";
      sortBy := Newest;
      filteredProducts := VisibleProducts(products, filters, searchTerm, sortBy);
      InitialViewIsCatalogue(products);
    }
  }
}
