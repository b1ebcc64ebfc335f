/** The vendor directory page: a five-part vendor filter, a sort selector,
    pagination at twelve vendors a page with a five-button page window, and
    the category checkboxes. */
module VendorDirectory {
  import opened Seqs
  import opened Strings
  import opened Catalog

  const VendorsPerPage: nat := 12

  /** The rating select: `''`, `'any-rating'`, or a threshold such as `'4.5'`. */
  datatype RatingChoice = NoRating | AnyRating | AtLeast(threshold: real)

  datatype DirectoryFilters = DirectoryFilters(
    searchTerm: string, selectedCategories: seq<string>, selectedLocation: string,
    selectedRating: RatingChoice, verifiedOnly: bool)

  /** The state `clearFilters` returns to, which is also the initial state. */
  const Cleared := DirectoryFilters("", [], "", NoRating, false)

  predicate MatchesSearch(v: Vendor, term: string)
  {
    Contains(Lower(v.name), Lower(term)) || Contains(Lower(v.description), Lower(term))
  }

  predicate MatchesCategories(v: Vendor, selected: seq<string>)
  {
    |selected| == 0 || exists i | 0 <= i < |selected| :: selected[i] in v.categories
  }

  predicate MatchesLocation(v: Vendor, selected: string)
  {
    selected == "" || selected == "all-locations" || v.location == selected
  }

  predicate MatchesRating(v: Vendor, choice: RatingChoice)
  {
    match choice
    case NoRating => true
    case AnyRating => true
    case AtLeast(t) => v.rating >= t
  }

  /** The directory's filter callback: all five checks at once. */
  predicate VendorMatches(v: Vendor, f: DirectoryFilters)
  {
    && MatchesSearch(v, f.searchTerm)
    && MatchesCategories(v, f.selectedCategories)
    && MatchesLocation(v, f.selectedLocation)
    && (!f.verifiedOnly || v.verified)
    && MatchesRating(v, f.selectedRating)
  }

  function FilterVendors(vendors: seq<Vendor>, f: DirectoryFilters): (r: seq<Vendor>)
    ensures IsSubseq(r, vendors)
    ensures forall i :: 0 <= i < |r| ==> r[i] in vendors && VendorMatches(r[i], f)
    ensures forall i :: 0 <= i < |vendors| && VendorMatches(vendors[i], f) ==> vendors[i] in r
    ensures forall v :: multiset(r)[v] == if VendorMatches(v, f) then multiset(vendors)[v] else 0
  {
    var keep := (v: Vendor) => VendorMatches(v, f);
    forall v ensures multiset(Filter(vendors, keep))[v] == if VendorMatches(v, f) then multiset(vendors)[v] else 0 {
      FilterMultiset(vendors, keep, v);
    }
    Filter(vendors, keep)
  }

  /** With the filters cleared (or not yet touched) every vendor is listed, in order. */
  lemma ClearedFiltersKeepAll(vendors: seq<Vendor>)
    ensures FilterVendors(vendors, Cleared) == vendors
  {
    forall i | 0 <= i < |vendors| ensures VendorMatches(vendors[i], Cleared) {
      ContainsEmpty(Lower(vendors[i].name));
    }
    FilterAll(vendors, (v: Vendor) => VendorMatches(v, Cleared));
  }

  /** Selecting a category that no vendor lists hides every vendor. */
  lemma UnlistedCategoryHidesAll(vendors: seq<Vendor>, f: DirectoryFilters)
    requires |f.selectedCategories| > 0
    requires forall v, c :: v in vendors && c in f.selectedCategories ==> c !in v.categories
    ensures FilterVendors(vendors, f) == []
  {
    forall v | v in vendors ensures !MatchesCategories(v, f.selectedCategories) {
      forall i | 0 <= i < |f.selectedCategories| ensures f.selectedCategories[i] !in v.categories {
        assert f.selectedCategories[i] in f.selectedCategories;
      }
    }
  }

  datatype VendorSort = SortName | SortLocation | SortReviews | SortNewest | SortRating

  /** The sort select's value; `'rating'` and anything unknown sort by rating. */
  function ParseVendorSort(s: string): VendorSort
  {
    if s == "name" then SortName
    else if s == "location" then SortLocation
    else if s == "reviews" then SortReviews
    else if s == "newest" then SortNewest
    else SortRating
  }

  predicate VendorNameAsc(a: Vendor, b: Vendor) { StrLe(a.name, b.name) }
  predicate VendorLocationAsc(a: Vendor, b: Vendor) { StrLe(a.location, b.location) }
  predicate VendorReviewsDesc(a: Vendor, b: Vendor) { b.totalReviews <= a.totalReviews }
  /** `() => 0`: no pair is ever reordered. */
  predicate KeepOrder(a: Vendor, b: Vendor) { true }

  function SortVendors(vendors: seq<Vendor>, key: VendorSort): (r: seq<Vendor>)
    ensures multiset(r) == multiset(vendors)
    ensures key == SortName ==> forall i, j :: 0 <= i < j < |r| ==> StrLe(r[i].name, r[j].name)
    ensures key == SortLocation ==> forall i, j :: 0 <= i < j < |r| ==> StrLe(r[i].location, r[j].location)
    ensures key == SortReviews ==> forall i, j :: 0 <= i < j < |r| ==> r[i].totalReviews >= r[j].totalReviews
    ensures key == SortRating ==> forall i, j :: 0 <= i < j < |r| ==> r[i].rating >= r[j].rating
    ensures key == SortNewest ==> r == vendors
  {
    match key
    case SortName =>
      StrLeTotalPreorder();
      SortBySorted(vendors, VendorNameAsc);
      SortBy(vendors, VendorNameAsc)
    case SortLocation =>
      StrLeTotalPreorder();
      SortBySorted(vendors, VendorLocationAsc);
      SortBy(vendors, VendorLocationAsc)
    case SortReviews =>
      SortBySorted(vendors, VendorReviewsDesc);
      SortBy(vendors, VendorReviewsDesc)
    case SortNewest =>
      SortByKeepsOrder(vendors, KeepOrder);
      SortBy(vendors, KeepOrder)
    case SortRating =>
      SortBySorted(vendors, VendorRatingDesc);
      SortBy(vendors, VendorRatingDesc)
  }

  /** `filteredVendors`: every copy of each matching vendor, in the selected
      order; an unknown key sorts by rating. */
  function Listing(vendors: seq<Vendor>, f: DirectoryFilters, sortBy: string): (r: seq<Vendor>)
    ensures forall v :: v in r <==> v in vendors && VendorMatches(v, f)
    ensures forall v :: multiset(r)[v] == if VendorMatches(v, f) then multiset(vendors)[v] else 0
    ensures |r| <= |vendors|
    ensures sortBy == "name" ==> forall i, j :: 0 <= i < j < |r| ==> StrLe(r[i].name, r[j].name)
    ensures sortBy == "location" ==> forall i, j :: 0 <= i < j < |r| ==> StrLe(r[i].location, r[j].location)
    ensures sortBy == "reviews" ==> forall i, j :: 0 <= i < j < |r| ==> r[i].totalReviews >= r[j].totalReviews
    ensures sortBy !in ["name", "location", "reviews", "newest"] ==>
              forall i, j :: 0 <= i < j < |r| ==> r[i].rating >= r[j].rating
    ensures sortBy == "newest" ==> IsSubseq(r, vendors)
  {
    var filtered := FilterVendors(vendors, f);
    var r := SortVendors(filtered, ParseVendorSort(sortBy));
    SubseqMembers(filtered, vendors);
    assert forall v :: v in r <==> v in multiset(filtered);
    assert |r| == |multiset(r)|;
    r
  }

  /** `Math.ceil(n / 12)`: the fewest pages that hold `n` vendors. */
  function TotalPages(n: nat): (r: nat)
    ensures r * VendorsPerPage >= n
    ensures r == 0 || (r - 1) * VendorsPerPage < n
    ensures r == 0 <==> n == 0
  {
    (n + VendorsPerPage - 1) / VendorsPerPage
  }

  /** `slice((page - 1) * 12, (page - 1) * 12 + 12)`. */
  function Page<T>(items: seq<T>, page: nat): (r: seq<T>)
    requires page >= 1
    ensures |r| <= VendorsPerPage
    ensures forall i :: 0 <= i < |r| ==>
              (page - 1) * VendorsPerPage + i < |items| && r[i] == items[(page - 1) * VendorsPerPage + i]
    ensures page <= TotalPages(|items|) ==> |r| >= 1
    ensures page <= TotalPages(|items|) ==>
              |r| == Min(VendorsPerPage, |items| - (page - 1) * VendorsPerPage)
    ensures page < TotalPages(|items|) ==> |r| == VendorsPerPage
    ensures page > TotalPages(|items|) ==> r == []
  {
    var start := (page - 1) * VendorsPerPage;
    Slice(items, start, start + VendorsPerPage)
  }

  /** Every listed vendor is shown on exactly one reachable page: index `k`
      sits at position `k % 12` of page `k / 12 + 1`. */
  lemma EveryIndexOnItsPage<T>(items: seq<T>, k: nat)
    requires k < |items|
    ensures 1 <= k / VendorsPerPage + 1 <= TotalPages(|items|)
    ensures k % VendorsPerPage < |Page(items, k / VendorsPerPage + 1)|
    ensures Page(items, k / VendorsPerPage + 1)[k % VendorsPerPage] == items[k]
  {
    var p := k / VendorsPerPage + 1;
    assert (p - 1) * VendorsPerPage + k % VendorsPerPage == k;
    assert (p - 1) * VendorsPerPage <= k;
  }

  function Min(a: int, b: int): int { if a <= b then a else b }
  function Max(a: int, b: int): int { if a <= b then b else a }

  /** The number on the `i`-th page button. */
  function PageButton(current: int, total: nat, i: nat): int
  {
    if total <= 5 then i + 1
    else if current <= 3 then i + 1
    else if current >= total - 2 then total - 4 + i
    else current - 2 + i
  }

  /** The page buttons: `Math.min(5, totalPages)` consecutive page numbers
      starting at `current - 2`, moved into `[1, totalPages]`. */
  function PageWindow(current: int, total: nat): (r: seq<int>)
    ensures |r| == Min(5, total)
    ensures |r| > 0 ==> r[0] == Max(1, Min(current - 2, Max(1, total - 4)))
    ensures forall i :: 0 <= i < |r| - 1 ==> r[i + 1] == r[i] + 1
    ensures forall i :: 0 <= i < |r| ==> 1 <= r[i] <= total
    ensures current in r <==> 1 <= current <= total
    ensures 3 <= current <= total - 2 ==> r[2] == current
  {
    var r := seq(Min(5, total), (i: int) requires 0 <= i => PageButton(current, total, i));
    assert 1 <= current <= total ==> r[current - r[0]] == current;
    r
  }

  /** The update callback of `handleCategoryToggle`. */
  function ToggleCategory(selected: seq<string>, category: string): (r: seq<string>)
    ensures category in r <==> category !in selected
    ensures forall c :: c != category ==> (c in r <==> c in selected)
  {
    if category in selected then Filter(selected, (c: string) => c != category)
    else selected + [category]
  }

  /** Ticking a box twice restores the selection; starting from an unticked
      box, the very same list. */
  lemma ToggleCategoryTwice(selected: seq<string>, category: string)
    ensures forall c :: c in ToggleCategory(ToggleCategory(selected, category), category) <==> c in selected
    ensures category !in selected ==> ToggleCategory(ToggleCategory(selected, category), category) == selected
  {
    if category !in selected {
      var keep := (c: string) => c != category;
      FilterAppendLast(selected, category, keep);
      FilterAll(selected, keep);
    }
  }

  /** Toggling keeps the selection free of duplicates. */
  lemma ToggleCategoryDistinct(selected: seq<string>, category: string)
    requires forall i, j :: 0 <= i < j < |selected| ==> selected[i] != selected[j]
    ensures var r := ToggleCategory(selected, category);
            forall i, j :: 0 <= i < j < |r| ==> r[i] != r[j]
  {
    if category in selected {
      var keep := (c: string) => c != category;
      SubseqDistinct(Filter(selected, keep), selected);
    }
  }

  lemma {:induction false} SubseqDistinct(s: seq<string>, t: seq<string>)
    requires IsSubseq(s, t)
    requires forall i, j :: 0 <= i < j < |t| ==> t[i] != t[j]
    ensures forall i, j :: 0 <= i < j < |s| ==> s[i] != s[j]
    decreases |t|
  {
    if s != [] && t != [] {
      if s[0] == t[0] {
        SubseqDistinct(s[1..], t[1..]);
        SubseqMembers(s[1..], t[1..]);
        forall i, j | 0 <= i < j < |s| ensures s[i] != s[j] {
          assert s[j] == s[1..][j - 1] && s[1..][j - 1] in s[1..];
          if i == 0 {
            var k :| 0 <= k < |t[1..]| && t[1..][k] == s[j];
            assert t[k + 1] == s[j];
          } else {
            assert s[i] == s[1..][i - 1];
          }
        }
      } else {
        SubseqDistinct(s, t[1..]);
      }
    }
  }

  /** `Array.from(new Set(vendors.map(v => v.location))).sort()`. */
  function Locations(vendors: seq<Vendor>): (r: seq<string>)
    ensures forall l :: l in r <==> exists i :: 0 <= i < |vendors| && vendors[i].location == l
    ensures forall i, j :: 0 <= i < j < |r| ==> r[i] != r[j]
    ensures Sorted(r, StrLe)
  {
    var all := seq(|vendors|, (i: int) requires 0 <= i < |vendors| => vendors[i].location);
    forall l | l in all ensures exists i :: 0 <= i < |vendors| && vendors[i].location == l {
      var k :| 0 <= k < |all| && all[k] == l;
      assert vendors[k].location == l;
    }
    forall i | 0 <= i < |vendors| ensures vendors[i].location in all {
      assert all[i] == vendors[i].location;
    }
    DistinctSorted(all)
  }

  /** The page's own state. `vendors` is the context's list as the page reads it. */
  class DirectoryPage {
    const vendors: seq<Vendor>
    var searchTerm: string
    var sortBy: string
    var selectedCategories: seq<string>
    var selectedLocation: string
    var selectedRating: RatingChoice
    var verifiedOnly: bool
    var currentPage: int

    function Filters(): DirectoryFilters
      reads this
    {
      DirectoryFilters(searchTerm, selectedCategories, selectedLocation, selectedRating, verifiedOnly)
    }

    function PageCount(): nat
      reads this
    {
      TotalPages(|Listing(vendors, Filters(), sortBy)|)
    }

    /** The page shown is a real page, or page 1 of an empty listing. */
    ghost predicate Valid()
      reads this
    {
      1 <= currentPage && (currentPage == 1 || currentPage <= PageCount())
    }

    constructor (vendors: seq<Vendor>)
      ensures this.vendors == vendors && Filters() == Cleared && sortBy == "rating"
      ensures currentPage == 1
      ensures Valid()
    {
      this.vendors := vendors;
      searchTerm := "";
      sortBy := "rating";
      selectedCategories := [];
      selectedLocation := "";
      selectedRating := NoRating;
      verifiedOnly := false;
      currentPage := 1;
    }

    /** The vendors on the current page. */
    function PaginatedVendors(): (r: seq<Vendor>)
      requires Valid()
      reads this
      ensures |r| <= VendorsPerPage
      ensures forall v :: v in r ==> v in vendors && VendorMatches(v, Filters())
      ensures forall i :: 0 <= i < |r| ==>
                var k := (currentPage - 1) * VendorsPerPage + i;
                k < |Listing(vendors, Filters(), sortBy)| && r[i] == Listing(vendors, Filters(), sortBy)[k]
      ensures currentPage <= PageCount() ==> |r| >= 1
      ensures currentPage <= PageCount() ==>
                |r| == Min(VendorsPerPage, |Listing(vendors, Filters(), sortBy)| - (currentPage - 1) * VendorsPerPage)
    {
      Page(Listing(vendors, Filters(), sortBy), currentPage)
    }

    method HandleCategoryToggle(category: string)
      modifies this
      ensures selectedCategories == ToggleCategory(old(selectedCategories), category)
      ensures searchTerm == old(searchTerm) && sortBy == old(sortBy)
      ensures selectedLocation == old(selectedLocation) && selectedRating == old(selectedRating)
      ensures verifiedOnly == old(verifiedOnly)
      ensures currentPage == 1 && Valid()
    {
      selectedCategories := ToggleCategory(selectedCategories, category);
      currentPage := 1;
    }

    method ClearFilters()
      modifies this
      ensures Filters() == Cleared && sortBy == "rating" && currentPage == 1
      ensures Valid()
    {
      searchTerm := "";
      selectedCategories := [];
      selectedLocation := "";
      selectedRating := NoRating;
      verifiedOnly := false;
      sortBy := "rating";
      currentPage := 1;
    }

    /** `handleFilterChange(() => setSearchTerm(term))`; the other four inputs
      that go through `handleFilterChange` follow. */
    method SetSearchTerm(term: string)
      modifies this
      ensures Filters() == old(Filters()).(searchTerm := term) && sortBy == old(sortBy)
      ensures currentPage == 1 && Valid()
    {
      searchTerm := term;
      currentPage := 1;
    }

    method SetSortBy(key: string)
      modifies this
      ensures sortBy == key && Filters() == old(Filters())
      ensures currentPage == 1 && Valid()
    {
      sortBy := key;
      currentPage := 1;
    }

    method SetLocation(location: string)
      modifies this
      ensures Filters() == old(Filters()).(selectedLocation := location) && sortBy == old(sortBy)
      ensures currentPage == 1 && Valid()
    {
      selectedLocation := location;
      currentPage := 1;
    }

    method SetRating(choice: RatingChoice)
      modifies this
      ensures Filters() == old(Filters()).(selectedRating := choice) && sortBy == old(sortBy)
      ensures currentPage == 1 && Valid()
    {
      selectedRating := choice;
      currentPage := 1;
    }

    method SetVerifiedOnly(checked: bool)
      modifies this
      ensures Filters() == old(Filters()).(verifiedOnly := checked) && sortBy == old(sortBy)
      ensures currentPage == 1 && Valid()
    {
      verifiedOnly := checked;
      currentPage := 1;
    }

    /** The Previous button, disabled on page 1. */
    method PreviousPage()
      requires Valid() && currentPage != 1
      modifies this
      ensures currentPage == old(currentPage) - 1 && Filters() == old(Filters()) && sortBy == old(sortBy)
      ensures Valid()
    {
      currentPage := currentPage - 1;
    }

    /** The Next button, shown only with more than one page and disabled on the last. */
    method NextPage()
      requires Valid() && PageCount() > 1 && currentPage != PageCount()
      modifies this
      ensures currentPage == old(currentPage) + 1 && Filters() == old(Filters()) && sortBy == old(sortBy)
      ensures Valid()
    {
      currentPage := currentPage + 1;
    }

    /** A numbered page button. */
    method GoToPage(page: int)
      requires page in PageWindow(currentPage, PageCount())
      modifies this
      ensures currentPage == page && Filters() == old(Filters()) && sortBy == old(sortBy)
      ensures Valid()
    {
      currentPage := page;
    }
  }
}
