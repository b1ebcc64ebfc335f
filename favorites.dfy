/** The favourites context: an ordered list with set semantics on ids, the id
    set derived from it, and a storage slot the list is loaded from and saved to. */
module Favorites {
  import opened Seqs

  datatype VendorRef = VendorRef(id: string, name: string)

  /** Prices are in cents. */
  datatype FavoriteItem = FavoriteItem(
    id: string, name: string, price: int, image: string, vendor: VendorRef,
    category: string, rating: real, reviewCount: int, location: string)

  /** `new Set(items.map(item => item.id))`. */
  function Ids(items: seq<FavoriteItem>): (r: set<string>)
    ensures forall i :: 0 <= i < |items| ==> items[i].id in r
    ensures forall id :: id in r ==> exists i :: 0 <= i < |items| && items[i].id == id
  {
    if items == [] then {}
    else
      var rest := Ids(items[1..]);
      assert forall id :: id in rest ==> exists i :: 1 <= i < |items| && items[i].id == id by {
        forall id | id in rest ensures exists i :: 1 <= i < |items| && items[i].id == id {
          var k :| 0 <= k < |items[1..]| && items[1..][k].id == id;
          assert items[k + 1].id == id;
        }
      }
      {items[0].id} + rest
  }

  /** No two favourites share an id. */
  predicate UniqueIds(items: seq<FavoriteItem>)
  {
    forall i, j :: 0 <= i < j < |items| ==> items[i].id != items[j].id
  }

  /** `prev.find(fav => fav.id === id)` found something. */
  predicate HasId(items: seq<FavoriteItem>, id: string)
  {
    FindIndex(items, (f: FavoriteItem) => f.id == id).Some?
  }

  lemma HasIdIsMember(items: seq<FavoriteItem>, id: string)
    ensures HasId(items, id) <==> id in Ids(items)
  {
    var found := FindIndex(items, (f: FavoriteItem) => f.id == id);
    if id in Ids(items) {
      var i :| 0 <= i < |items| && items[i].id == id;
      assert found.Some?;
    }
  }

  /** The update callback of `addToFavorites`: unchanged when the id is already
      listed, otherwise the item goes at the end. */
  function AddedTo(prev: seq<FavoriteItem>, item: FavoriteItem): (r: seq<FavoriteItem>)
    ensures Ids(r) == Ids(prev) + {item.id}
    ensures |prev| <= |r| && r[..|prev|] == prev
    ensures item.id in Ids(prev) ==> r == prev
    ensures item.id !in Ids(prev) ==> r == prev + [item]
    ensures UniqueIds(prev) ==> UniqueIds(r)
  {
    HasIdIsMember(prev, item.id);
    if HasId(prev, item.id) then prev
    else
      var r := prev + [item];
      assert forall i :: 0 <= i < |prev| ==> r[i] == prev[i];
      assert r[|prev|] == item;
      r
  }

  /** Adding an item twice is adding it once. */
  lemma AddIdempotent(prev: seq<FavoriteItem>, item: FavoriteItem)
    ensures AddedTo(AddedTo(prev, item), item) == AddedTo(prev, item)
  {
  }

  /** The update callback of `removeFromFavorites`: every item with that id
      goes, all others stay in order. */
  function RemovedFrom(prev: seq<FavoriteItem>, id: string): (r: seq<FavoriteItem>)
    ensures Ids(r) == Ids(prev) - {id}
    ensures IsSubseq(r, prev)
    ensures forall i :: 0 <= i < |prev| && prev[i].id != id ==> prev[i] in r
    ensures forall x :: multiset(r)[x] == if x.id != id then multiset(prev)[x] else 0
    ensures id !in Ids(prev) ==> r == prev
    ensures UniqueIds(prev) ==> UniqueIds(r)
  {
    var keep := (f: FavoriteItem) => f.id != id;
    var r := Filter(prev, keep);
    forall x | x in Ids(r) ensures x in Ids(prev) - {id} {
      var i :| 0 <= i < |r| && r[i].id == x;
      assert r[i] in prev && keep(r[i]);
    }
    forall x | x in Ids(prev) - {id} ensures x in Ids(r) {
      var i :| 0 <= i < |prev| && prev[i].id == x;
      assert prev[i] in r;
    }
    assert id !in Ids(prev) ==> r == prev by {
      if id !in Ids(prev) {
        FilterAll(prev, keep);
      }
    }
    assert UniqueIds(prev) ==> UniqueIds(r) by {
      if UniqueIds(prev) {
        SubseqUnique(r, prev);
      }
    }
    forall x ensures multiset(r)[x] == if keep(x) then multiset(prev)[x] else 0 {
      FilterMultiset(prev, keep, x);
    }
    r
  }

  lemma {:induction false} SubseqUnique(s: seq<FavoriteItem>, t: seq<FavoriteItem>)
    requires IsSubseq(s, t) && UniqueIds(t)
    ensures UniqueIds(s)
    decreases |t|
  {
    if s != [] && t != [] {
      if s[0] == t[0] {
        SubseqUnique(s[1..], t[1..]);
        SubseqMembers(s[1..], t[1..]);
        forall j | 0 < j < |s| ensures s[0].id != s[j].id {
          assert s[j] == s[1..][j - 1] && s[1..][j - 1] in s[1..];
          var k :| 0 <= k < |t[1..]| && t[1..][k] == s[j];
          assert t[k + 1] == s[j];
        }
        forall i, j | 0 <= i < j < |s| ensures s[i].id != s[j].id {
          if i > 0 {
            assert s[i] == s[1..][i - 1] && s[j] == s[1..][j - 1];
          }
        }
      } else {
        SubseqUnique(s, t[1..]);
      }
    }
  }

  /** The stored value: nothing (or an empty string), text `JSON.parse`
      rejects, or a saved list. */
  datatype Slot = NoValue | Unparseable | Saved(items: seq<FavoriteItem>)

  /** The list the mount effect loads: a saved list as it is; nothing otherwise
      (a parse failure is only logged). */
  function Load(slot: Slot): (r: seq<FavoriteItem>)
    ensures slot.Saved? ==> r == slot.items
    ensures !slot.Saved? ==> r == []
  {
    if slot.Saved? then slot.items else []
  }

  /** The provider's state. The save effect's work (write the list to storage,
      rebuild the id set) is done by each mutator as it changes the list. */
  class FavoritesStore {
    var favorites: seq<FavoriteItem>
    var favoriteIds: set<string>
    var storage: Slot

    ghost predicate Valid()
      reads this
    {
      favoriteIds == Ids(favorites) && storage == Saved(favorites)
    }

    /** Mount: load the slot, then the save effect writes the loaded list back. */
    constructor (saved: Slot)
      ensures favorites == Load(saved)
      ensures Valid()
    {
      favorites := Load(saved);
      favoriteIds := Ids(Load(saved));
      storage := Saved(Load(saved));
    }

    method AddToFavorites(item: FavoriteItem)
      modifies this
      ensures favorites == AddedTo(old(favorites), item)
      ensures Valid()
    {
      favorites := AddedTo(favorites, item);
      storage := Saved(favorites);
      favoriteIds := Ids(favorites);
    }

    method RemoveFromFavorites(id: string)
      modifies this
      ensures favorites == RemovedFrom(old(favorites), id)
      ensures Valid()
    {
      favorites := RemovedFrom(favorites, id);
      storage := Saved(favorites);
      favoriteIds := Ids(favorites);
    }

    method ClearFavorites()
      modifies this
      ensures favorites == [] && favoriteIds == {}
      ensures Valid()
    {
      favorites := [];
      storage := Saved(favorites);
      favoriteIds := Ids(favorites);
    }

    /** `favoriteIds.has(id)`: in a consistent state, some favourite has that id. */
    function IsFavorite(id: string): (r: bool)
      reads this
      ensures Valid() ==> (r <==> exists i :: 0 <= i < |favorites| && favorites[i].id == id)
    {
      id in favoriteIds
    }
  }
}
