/** The heart button: one click removes the product from the favourites when
    it is one, and adds it otherwise. */
module FavoriteButton {
  import opened Seqs
  import opened Favorites

  /** The favourites list after one click on `product`'s button. */
  function Toggle(favorites: seq<FavoriteItem>, product: FavoriteItem): (r: seq<FavoriteItem>)
    ensures product.id in Ids(r) <==> product.id !in Ids(favorites)
    ensures forall id :: id != product.id ==> (id in Ids(r) <==> id in Ids(favorites))
    ensures UniqueIds(favorites) ==> UniqueIds(r)
  {
    if product.id in Ids(favorites) then RemovedFrom(favorites, product.id)
    else AddedTo(favorites, product)
  }

  /** Two clicks restore which ids are favourites. */
  lemma ToggleTwice(favorites: seq<FavoriteItem>, product: FavoriteItem)
    ensures Ids(Toggle(Toggle(favorites, product), product)) == Ids(favorites)
  {
  }

  /** Clicking a product that is not yet a favourite, then clicking again,
      gives back the very same list. */
  lemma ToggleTwiceRestoresList(favorites: seq<FavoriteItem>, product: FavoriteItem)
    requires product.id !in Ids(favorites)
    ensures Toggle(Toggle(favorites, product), product) == favorites
  {
    var once := favorites + [product];
    assert Toggle(favorites, product) == once;
    var keep := (f: FavoriteItem) => f.id != product.id;
    FilterAppendLast(favorites, product, keep);
    FilterAll(favorites, keep);
  }

  /** `handleFavoriteClick`, composed with the context's mutators. */
  method HandleFavoriteClick(store: FavoritesStore, product: FavoriteItem)
    requires store.Valid()
    modifies store
    ensures store.favorites == Toggle(old(store.favorites), product)
    ensures store.Valid()
  {
    if store.IsFavorite(product.id) {
      store.RemoveFromFavorites(product.id);
    } else {
      store.AddToFavorites(product);
    }
  }
}
