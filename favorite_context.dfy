/**
 * The favorites store shared by every page through React context
 * (`FavoritesProvider`): one state cell holding the ordered list of
 * favorite records, replaced wholesale by `addFavorite` and
 * `removeFavorite`.
 */
module FavoriteContext {
  import opened JsStrings
  import opened JsValues
  import opened Records

  /** `fav.name`: the key by which favorites are removed. */
  function NameOf(item: Record): Value {
    Get(item, "name")
  }

  /** `favs.filter(fav => fav.name !== name)`. */
  function WithoutName(favs: seq<Record>, name: Value): (kept: seq<Record>)
    ensures |kept| <= |favs|
    ensures forall fav :: fav in kept ==> fav in favs && NameOf(fav) != name
    decreases |favs|
  {
    if |favs| == 0 then []
    else (if NameOf(favs[0]) != name then [favs[0]] else []) + WithoutName(favs[1..], name)
  }

  class FavoritesStore {
    /** The `favorites` state cell. */
    var favorites: seq<Record>

    /** `useState([])`: the store starts empty. */
    constructor ()
      ensures favorites == []
    {
      favorites := [];
    }

    /** `addFavorite`: append, with no duplicate check. */
    method AddFavorite(item: Record)
      modifies this
      ensures favorites == old(favorites) + [item]
    {
      favorites := favorites + [item];
    }

    /** `removeFavorite`: drop every favorite whose name is the item's name. */
    method RemoveFavorite(item: Record)
      modifies this
      ensures favorites == WithoutName(old(favorites), NameOf(item))
    {
      favorites := WithoutName(favorites, NameOf(item));
    }
  }

  /** After removal, a record is present exactly when it was present before and has a different name. */
  lemma {:induction false} WithoutNameMembers(favs: seq<Record>, name: Value)
    ensures forall f :: f in WithoutName(favs, name) <==> f in favs && NameOf(f) != name
    decreases |favs|
  {
    if |favs| > 0 {
      WithoutNameMembers(favs[1..], name);
      assert forall f :: f in favs <==> f == favs[0] || f in favs[1..];
    }
  }

  /** Removal keeps the survivors in their original relative order: it distributes over concatenation. */
  lemma {:induction false} WithoutNameConcat(a: seq<Record>, b: seq<Record>, name: Value)
    ensures WithoutName(a + b, name) == WithoutName(a, name) + WithoutName(b, name)
    decreases |a|
  {
    if |a| == 0 {
      assert a + b == b;
    } else {
      var head := if NameOf(a[0]) != name then [a[0]] else [];
      assert (a + b)[0] == a[0] && (a + b)[1..] == a[1..] + b;
      WithoutNameConcat(a[1..], b, name);
      assert WithoutName(a + b, name) == head + (WithoutName(a[1..], name) + WithoutName(b, name));
      assert WithoutName(a, name) == head + WithoutName(a[1..], name);
      ConcatAssoc(head, WithoutName(a[1..], name), WithoutName(b, name));
    }
  }

  /** Removing a name nobody has leaves the list as it was. */
  lemma {:induction false} WithoutAbsentName(favs: seq<Record>, name: Value)
    requires forall f :: f in favs ==> NameOf(f) != name
    ensures WithoutName(favs, name) == favs
    decreases |favs|
  {
    if |favs| > 0 {
      assert favs[0] in favs;
      assert forall f :: f in favs[1..] ==> f in favs;
      WithoutAbsentName(favs[1..], name);
      assert favs == [favs[0]] + favs[1..];
    }
  }

  /** Removing the same name twice is removing it once. */
  lemma WithoutNameIdempotent(favs: seq<Record>, name: Value)
    ensures WithoutName(WithoutName(favs, name), name) == WithoutName(favs, name)
  {
    WithoutNameMembers(favs, name);
    WithoutAbsentName(WithoutName(favs, name), name);
  }

  /** The list shrinks by the number of records carrying the name, and only then. */
  lemma {:induction false} WithoutNameLength(favs: seq<Record>, name: Value)
    ensures |WithoutName(favs, name)| <= |favs|
    ensures |WithoutName(favs, name)| == |favs| <==> forall f :: f in favs ==> NameOf(f) != name
    decreases |favs|
  {
    if |favs| > 0 {
      WithoutNameLength(favs[1..], name);
      assert forall f :: f in favs <==> f == favs[0] || f in favs[1..];
    }
  }

  /**
   * Adding an item and then removing it by name also removes every earlier
   * favorite of that name: the add is undone together with all duplicates.
   */
  lemma AddThenRemove(favs: seq<Record>, item: Record)
    ensures WithoutName(favs + [item], NameOf(item)) == WithoutName(favs, NameOf(item))
  {
    WithoutNameConcat(favs, [item], NameOf(item));
    assert WithoutName([item], NameOf(item)) == [];
  }

  /** Names are compared exactly: removing "leia" keeps "Leia". */
  lemma {:induction false} NamesAreCaseSensitive(favs: seq<Record>, leia: Record, item: Record)
    requires NameOf(leia) == Str("Leia") && NameOf(item) == Str("leia")
    requires leia in favs
    ensures leia in WithoutName(favs, NameOf(item))
  {
    WithoutNameMembers(favs, NameOf(item));
  }

  /** A store used as the pages use it: two adds and a remove. */
  method AddAddRemove(a: Record, b: Record) returns (favs: seq<Record>)
    requires NameOf(a) != NameOf(b)
    ensures favs == [a]
  {
    var store := new FavoritesStore();
    store.AddFavorite(a);
    store.AddFavorite(b);
    store.AddFavorite(b);
    store.RemoveFavorite(b);
    AddThenRemove([a, b], b);
    assert [a, b, b] == [a, b] + [b];
    AddThenRemove([a], b);
    assert [a, b] == [a] + [b];
    favs := store.favorites;
  }
}
