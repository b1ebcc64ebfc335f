/** The catalogue's record shapes and its query engine: `filterProducts`, a
    conjunction of optional constraints with JavaScript truthiness, and
    `sortProducts`, a keyed sort over a copy of the list. */
module Catalog {
  import opened Seqs
  import opened Strings

  datatype BusinessHours = BusinessHours(
    monday: string, tuesday: string, wednesday: string, thursday: string,
    friday: string, saturday: string, sunday: string)

  datatype Policies = Policies(returnsPolicy: string, shipping: string, warranty: string)

  datatype Vendor = Vendor(
    id: string, name: string, logo: string, description: string,
    rating: real, totalReviews: int, location: string, address: string,
    phone: string, email: string, categories: seq<string>, verified: bool,
    businessHours: BusinessHours, policies: Policies)

  /** Prices are in cents. */
  datatype Product = Product(
    id: string, name: string, description: string, price: int,
    comparePrice: Option<int>, images: seq<string>, category: string,
    subcategory: string, vendor: Vendor, rating: real, reviewCount: int,
    location: string, inStock: bool, stockQuantity: int,
    specifications: map<string, string>, tags: seq<string>, featured: Option<bool>)

  datatype Category = Category(id: string, name: string, icon: string, subcategories: seq<string>)

  /** Every field is optional; `None` is an absent key (or `undefined`). */
  datatype ProductFilters = ProductFilters(
    category: Option<string>, subcategory: Option<string>, vendor: Option<string>,
    location: Option<string>, minPrice: Option<int>, maxPrice: Option<int>,
    inStock: Option<bool>, search: Option<string>)

  const NoFilters := ProductFilters(None, None, None, None, None, None, None, None)

  /** JavaScript truthiness of an optional string, number and boolean. */
  predicate TextSet(o: Option<string>) { o.Some? && o.value != "" }
  predicate AmountSet(o: Option<int>) { o.Some? && o.value != 0 }
  predicate FlagSet(o: Option<bool>) { o == Some(true) }

  /** `${name} ${description} ${tags.join(' ')}`. */
  function SearchableText(p: Product): string
  {
    p.name + " " + p.description + " " + Join(p.tags, " ")
  }

  predicate SearchHit(p: Product, term: string)
  {
    Contains(Lower(SearchableText(p)), Lower(term))
  }

  /** The filter callback of `filterProducts`, with its early returns in source order. */
  predicate Keep(p: Product, f: ProductFilters)
  {
    if TextSet(f.category) && p.category != f.category.value then false
    else if TextSet(f.subcategory) && p.subcategory != f.subcategory.value then false
    else if TextSet(f.vendor) && p.vendor.id != f.vendor.value then false
    else if TextSet(f.location) && p.location != f.location.value then false
    else if AmountSet(f.minPrice) && p.price < f.minPrice.value then false
    else if AmountSet(f.maxPrice) && p.price > f.maxPrice.value then false
    else if FlagSet(f.inStock) && !p.inStock then false
    else if TextSet(f.search) && !SearchHit(p, f.search.value) then false
    else true
  }

  /** What a product must satisfy to be listed: each truthy filter is a constraint,
      all of them at once; a falsy one (absent, empty, 0 or false) constrains nothing. */
  ghost predicate MeetsFilters(p: Product, f: ProductFilters)
  {
    && (TextSet(f.category) ==> p.category == f.category.value)
    && (TextSet(f.subcategory) ==> p.subcategory == f.subcategory.value)
    && (TextSet(f.vendor) ==> p.vendor.id == f.vendor.value)
    && (TextSet(f.location) ==> p.location == f.location.value)
    && (AmountSet(f.minPrice) ==> f.minPrice.value <= p.price)
    && (AmountSet(f.maxPrice) ==> p.price <= f.maxPrice.value)
    && (FlagSet(f.inStock) ==> p.inStock)
    && (TextSet(f.search) ==> SearchHit(p, f.search.value))
  }

  /** `filterProducts`: the products meeting every filter, in catalogue order. */
  function FilterProducts(products: seq<Product>, f: ProductFilters): (r: seq<Product>)
    ensures IsSubseq(r, products)
    ensures forall i :: 0 <= i < |r| ==> r[i] in products && MeetsFilters(r[i], f)
    ensures forall i :: 0 <= i < |products| && MeetsFilters(products[i], f) ==> products[i] in r
    ensures forall p :: multiset(r)[p] == if MeetsFilters(p, f) then multiset(products)[p] else 0
  {
    var keep := (p: Product) => Keep(p, f);
    forall p ensures multiset(Filter(products, keep))[p] == if MeetsFilters(p, f) then multiset(products)[p] else 0 {
      FilterMultiset(products, keep, p);
    }
    Filter(products, keep)
  }

  /** With no filter set, `filterProducts` returns the whole list unchanged. */
  lemma {:induction false} NoFiltersKeepAll(products: seq<Product>, f: ProductFilters)
    requires !TextSet(f.category) && !TextSet(f.subcategory) && !TextSet(f.vendor)
    requires !TextSet(f.location) && !AmountSet(f.minPrice) && !AmountSet(f.maxPrice)
    requires !FlagSet(f.inStock) && !TextSet(f.search)
    ensures FilterProducts(products, f) == products
  {
    FilterAll(products, p => Keep(p, f));
  }

  /** A price bound of 0 is falsy: it filters exactly as an absent bound. */
  lemma ZeroPriceBoundsIgnored(products: seq<Product>, f: ProductFilters)
    requires f.minPrice == Some(0) || f.maxPrice == Some(0)
    ensures FilterProducts(products, f)
         == FilterProducts(products, f.(minPrice := if f.minPrice == Some(0) then None else f.minPrice,
                                        maxPrice := if f.maxPrice == Some(0) then None else f.maxPrice))
  {
    var g := f.(minPrice := if f.minPrice == Some(0) then None else f.minPrice,
                maxPrice := if f.maxPrice == Some(0) then None else f.maxPrice);
    FilterExt(products, p => Keep(p, f), p => Keep(p, g));
  }

  /** A product whose lowercased name includes the lowercased search term passes
      the search check, whatever its description and tags. */
  lemma NameHitIsSearchHit(p: Product, term: string)
    requires Contains(Lower(p.name), Lower(term))
    ensures SearchHit(p, term)
  {
    var rest := " " + p.description + " " + Join(p.tags, " ");
    assert SearchableText(p) == p.name + rest;
    LowerAppend(p.name, rest);
    ContainsPrefix(Lower(p.name), Lower(rest), Lower(term));
  }

  /** The keys of `sortProducts`. */
  datatype SortKey = PriceLow | PriceHigh | ByRating | ByName | Newest

  /** The sort-key string of a select box; anything unknown falls to the `default`
      branch, which, like 'newest', keeps the order. */
  function ParseSortKey(s: string): SortKey
  {
    if s == "price-low" then PriceLow
    else if s == "price-high" then PriceHigh
    else if s == "rating" then ByRating
    else if s == "name" then ByName
    else Newest
  }

  /** The comparators, as "may stay before" relations: `(a, b) => a.price - b.price`
      and so on; `a` stays before `b` when the comparator is not positive. */
  predicate PriceAsc(a: Product, b: Product) { a.price <= b.price }
  predicate PriceDesc(a: Product, b: Product) { b.price <= a.price }
  predicate RatingDesc(a: Product, b: Product) { b.rating <= a.rating }
  predicate NameAsc(a: Product, b: Product) { StrLe(a.name, b.name) }

  /** `sortProducts`: a sorted copy; the input list is a value and is not changed. */
  function SortProducts(products: seq<Product>, key: SortKey): (r: seq<Product>)
    ensures multiset(r) == multiset(products)
    ensures key == PriceLow ==> forall i, j :: 0 <= i < j < |r| ==> r[i].price <= r[j].price
    ensures key == PriceHigh ==> forall i, j :: 0 <= i < j < |r| ==> r[i].price >= r[j].price
    ensures key == ByRating ==> forall i, j :: 0 <= i < j < |r| ==> r[i].rating >= r[j].rating
    ensures key == ByName ==> forall i, j :: 0 <= i < j < |r| ==> StrLe(r[i].name, r[j].name)
    ensures key == Newest ==> r == products
  {
    match key
    case PriceLow =>
      SortBySorted(products, PriceAsc);
      SortBy(products, PriceAsc)
    case PriceHigh =>
      SortBySorted(products, PriceDesc);
      SortBy(products, PriceDesc)
    case ByRating =>
      SortBySorted(products, RatingDesc);
      SortBy(products, RatingDesc)
    case ByName =>
      StrLeTotalPreorder();
      SortBySorted(products, NameAsc);
      SortBy(products, NameAsc)
    case Newest =>
      products
  }

  /** Sorting changes neither which products are listed nor how often. */
  lemma SortedMembers(products: seq<Product>, key: SortKey, p: Product)
    ensures p in SortProducts(products, key) <==> p in products
  {
    assert p in SortProducts(products, key) <==> p in multiset(SortProducts(products, key));
  }

  /** `vendors.sort((a, b) => b.rating - a.rating)`, as a "may stay before" relation. */
  predicate VendorRatingDesc(a: Vendor, b: Vendor) { b.rating <= a.rating }
}
