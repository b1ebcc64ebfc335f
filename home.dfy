/** The home page: the featured products and the four highest-rated vendors.
    Picking the vendors sorts the context's shared vendor array in place. */
module Home {
  import opened Seqs
  import opened Catalog
  import opened ProductsContext

  /** The card shape the top-vendors section receives. */
  datatype TopVendor = TopVendor(
    id: string, name: string, logo: string, rating: real, reviews: int,
    location: string, categories: seq<string>, verified: bool)

  function Summary(v: Vendor): (r: TopVendor)
    ensures r.id == v.id && r.name == v.name && r.logo == v.logo && r.rating == v.rating
    ensures r.reviews == v.totalReviews && r.location == v.location
    ensures r.categories == v.categories && r.verified == v.verified
  {
    TopVendor(v.id, v.name, v.logo, v.rating, v.totalReviews, v.location, v.categories, v.verified)
  }

  function Summaries(vs: seq<Vendor>): (r: seq<TopVendor>)
    ensures |r| == |vs|
    ensures forall i :: 0 <= i < |vs| ==> r[i] == Summary(vs[i])
  {
    seq(|vs|, (i: int) requires 0 <= i < |vs| => Summary(vs[i]))
  }

  /** `vendors.sort((a, b) => b.rating - a.rating)`. */
  function ByRating(vs: seq<Vendor>): (r: seq<Vendor>)
    ensures multiset(r) == multiset(vs)
    ensures forall i, j :: 0 <= i < j < |r| ==> r[i].rating >= r[j].rating
  {
    SortBySorted(vs, VendorRatingDesc);
    SortBy(vs, VendorRatingDesc)
  }

  /** `topVendors`: the first four of the rating order, as cards. */
  function TopVendors(vs: seq<Vendor>): (r: seq<TopVendor>)
    ensures |r| == if |vs| < 4 then |vs| else 4
    ensures forall i, j :: 0 <= i < j < |r| ==> r[i].rating >= r[j].rating
    ensures forall i :: 0 <= i < |r| ==> exists v :: v in vs && r[i] == Summary(v)
    ensures multiset(r) <= multiset(Summaries(vs))
  {
    var sorted := ByRating(vs);
    var r := Summaries(Take(sorted, 4));
    forall i | 0 <= i < |r| ensures exists v :: v in vs && r[i] == Summary(v) {
      assert sorted[i] in multiset(vs);
    }
    var all := Summaries(sorted);
    assert all == r + all[|r|..];
    SummariesPermute(sorted, vs);
    r
  }

  lemma SummariesAppend(x: seq<Vendor>, y: seq<Vendor>)
    ensures Summaries(x + y) == Summaries(x) + Summaries(y)
  {
    assert forall i :: 0 <= i < |x + y| ==> Summaries(x + y)[i] == (Summaries(x) + Summaries(y))[i];
  }

  /** Reordering the vendors reorders their cards: the same cards, as often. */
  lemma {:induction false} SummariesPermute(a: seq<Vendor>, b: seq<Vendor>)
    requires multiset(a) == multiset(b)
    ensures multiset(Summaries(a)) == multiset(Summaries(b))
    decreases |a|
  {
    if a != [] {
      var x := a[0];
      assert x in multiset(b);
      var k :| 0 <= k < |b| && b[k] == x;
      var rest := b[..k] + b[k + 1..];
      assert b == b[..k] + [x] + b[k + 1..];
      assert a == [x] + a[1..];
      assert multiset(b) == multiset(b[..k]) + multiset{x} + multiset(b[k + 1..]);
      assert multiset(a) == multiset{x} + multiset(a[1..]);
      assert multiset(rest) == multiset(b[..k]) + multiset(b[k + 1..]);
      assert multiset(a[1..]) == multiset(a) - multiset{x};
      assert multiset(rest) == multiset(b) - multiset{x};
      SummariesPermute(a[1..], rest);
      SummariesAppend([x], a[1..]);
      SummariesAppend(b[..k], b[k + 1..]);
      SummariesAppend(b[..k] + [x], b[k + 1..]);
      SummariesAppend(b[..k], [x]);
    }
  }

  /** No vendor left off the list is rated above any vendor on it. */
  lemma TopVendorsAreTop(vs: seq<Vendor>, v: Vendor)
    requires v in vs
    ensures Summary(v) in TopVendors(vs) || forall i :: 0 <= i < |TopVendors(vs)| ==> v.rating <= TopVendors(vs)[i].rating
  {
    var sorted := ByRating(vs);
    var top := TopVendors(vs);
    assert v in multiset(sorted);
    var k :| 0 <= k < |sorted| && sorted[k] == v;
    if k < 4 {
      assert top[k] == Summary(v);
    } else {
      forall i | 0 <= i < |top| ensures v.rating <= top[i].rating {
        assert top[i] == Summary(sorted[i]);
      }
    }
  }

  /** Rendering the home page: the featured list from the context, and the
      top four vendors, with the context's vendor array left sorted by rating. */
  method HomeView(store: ProductsStore) returns (featured: seq<Product>, top: seq<TopVendor>)
    modifies store.vendors
    ensures store.vendors[..] == ByRating(old(store.vendors[..]))
    ensures featured == GetFeaturedProducts(store.products)
    ensures top == TopVendors(old(store.vendors[..]))
  {
    featured := GetFeaturedProducts(store.products);
    var a := store.vendors;
    var sorted := ByRating(a[..]);
    assert |sorted| == a.Length by {
      assert |multiset(sorted)| == |multiset(a[..])|;
    }
    forall i | 0 <= i < a.Length {
      a[i] := sorted[i];
    }
    assert a[..] == sorted;
    top := Summaries(Take(a[..], 4));
  }
}
