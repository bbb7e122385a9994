/** The scale preference store: the user's favourite scale ids and the
    most recently viewed scale ids, newest first and at most ten. */
module ScalesStore {

  /** How many recently viewed ids are kept (`slice(0, 10)`). */
  const RecentLimit: nat := 10

  /** No element occurs twice. */
  predicate NoDuplicates(s: seq<string>)
  {
    forall i, j :: 0 <= i < j < |s| ==> s[i] != s[j]
  }

  /** `[...new Set(s)]`: every element once, in the order of its first occurrence. */
  function Dedup(s: seq<string>): (r: seq<string>)
    ensures NoDuplicates(r)
    ensures forall x :: x in r <==> x in s
  {
    if s == [] then []
    else
      var d := Dedup(s[..|s| - 1]);
      var last := s[|s| - 1];
      assert forall x :: x in s <==> x in s[..|s| - 1] || x == last;
      if last in d then d else d + [last]
  }

  /** A list without duplicates is its own deduplication. */
  lemma {:induction false} DedupOfDistinct(s: seq<string>)
    requires NoDuplicates(s)
    ensures Dedup(s) == s
  {
    if s != [] {
      var init := s[..|s| - 1];
      assert NoDuplicates(init);
      DedupOfDistinct(init);
      assert s[|s| - 1] !in init;
      assert init + [s[|s| - 1]] == s;
    }
  }

  /** `s.filter(x => x !== id)` */
  function Without(s: seq<string>, id: string): (r: seq<string>)
    ensures id !in r
    ensures forall x :: x != id ==> (x in r <==> x in s)
    ensures |r| <= |s|
  {
    if s == [] then []
    else if s[0] == id then Without(s[1..], id)
    else [s[0]] + Without(s[1..], id)
  }

  /** Removing an absent id changes nothing. */
  lemma {:induction false} WithoutAbsent(s: seq<string>, id: string)
    requires id !in s
    ensures Without(s, id) == s
  {
    if s != [] {
      WithoutAbsent(s[1..], id);
    }
  }

  /** Filtering keeps a duplicate-free list duplicate-free. */
  lemma {:induction false} WithoutDistinct(s: seq<string>, id: string)
    requires NoDuplicates(s)
    ensures NoDuplicates(Without(s, id))
  {
    if s != [] {
      WithoutDistinct(s[1..], id);
      assert s[0] !in s[1..];
    }
  }

  /** Filtering drops exactly the occurrences of `id`: the other elements
      keep their relative order (concatenation commutes with the filter). */
  lemma {:induction false} WithoutAppend(s: seq<string>, t: seq<string>, id: string)
    ensures Without(s + t, id) == Without(s, id) + Without(t, id)
  {
    if s != [] {
      WithoutAppend(s[1..], t, id);
      assert (s + t)[1..] == s[1..] + t;
    } else {
      assert s + t == t;
    }
  }

  /** `s.slice(0, n)` */
  function Take(s: seq<string>, n: nat): (r: seq<string>)
  {
    if |s| <= n then s else s[..n]
  }

  /** `addFavorite`: the favourites with `id` added once. */
  function FavoritesAfterAdd(favorites: seq<string>, id: string): seq<string>
  {
    Dedup(favorites + [id])
  }

  /** `removeFavorite`: the favourites without `id`. */
  function FavoritesAfterRemove(favorites: seq<string>, id: string): seq<string>
  {
    Without(favorites, id)
  }

  /** `addRecentlyViewed`: `id` in front, its earlier occurrence dropped,
      and the list cut to its first ten entries. */
  function RecentAfterView(recent: seq<string>, id: string): seq<string>
  {
    Take([id] + Without(recent, id), RecentLimit)
  }

  /** After `addFavorite` the id is a favourite and there are no duplicates; a
      duplicate-free list that already held the id is unchanged, otherwise the
      id is appended at the end. */
  lemma AddFavoriteSpec(favorites: seq<string>, id: string)
    ensures id in FavoritesAfterAdd(favorites, id)
    ensures NoDuplicates(FavoritesAfterAdd(favorites, id))
    ensures forall x :: x in FavoritesAfterAdd(favorites, id) <==> x in favorites || x == id
    ensures NoDuplicates(favorites) ==>
      FavoritesAfterAdd(favorites, id) == if id in favorites then favorites else favorites + [id]
  {
    var s := favorites + [id];
    assert s[..|s| - 1] == favorites;
    if NoDuplicates(favorites) {
      DedupOfDistinct(favorites);
    }
  }

  /** Adding the same favourite twice is the same as adding it once. */
  lemma AddFavoriteIdempotent(favorites: seq<string>, id: string)
    ensures FavoritesAfterAdd(FavoritesAfterAdd(favorites, id), id) == FavoritesAfterAdd(favorites, id)
  {
    var once := FavoritesAfterAdd(favorites, id);
    AddFavoriteSpec(favorites, id);
    AddFavoriteSpec(once, id);
  }

  /** `removeFavorite` removes every occurrence of the id, keeps every other
      favourite, and is a no-op when the id is absent. */
  lemma RemoveFavoriteSpec(favorites: seq<string>, id: string)
    ensures id !in FavoritesAfterRemove(favorites, id)
    ensures forall x :: x != id ==> (x in FavoritesAfterRemove(favorites, id) <==> x in favorites)
    ensures id !in favorites ==> FavoritesAfterRemove(favorites, id) == favorites
    ensures NoDuplicates(favorites) ==> NoDuplicates(FavoritesAfterRemove(favorites, id))
  {
    if id !in favorites {
      WithoutAbsent(favorites, id);
    }
    if NoDuplicates(favorites) {
      WithoutDistinct(favorites, id);
    }
  }

  /** After `addRecentlyViewed` the id is first and occurs once, the list has at
      most ten entries, and the entries after the first are the earlier list
      without the id, in their order, cut short from the tail. */
  lemma AddRecentlyViewedSpec(recent: seq<string>, id: string)
    ensures |RecentAfterView(recent, id)| >= 1 && RecentAfterView(recent, id)[0] == id
    ensures id !in RecentAfterView(recent, id)[1..]
    ensures |RecentAfterView(recent, id)| <= RecentLimit
    ensures RecentAfterView(recent, id)[1..] ==
            Without(recent, id)[..|RecentAfterView(recent, id)| - 1]
    ensures |RecentAfterView(recent, id)| == if |Without(recent, id)| < RecentLimit then |Without(recent, id)| + 1 else RecentLimit
    ensures NoDuplicates(recent) ==> NoDuplicates(RecentAfterView(recent, id))
  {
    var w := Without(recent, id);
    var r := RecentAfterView(recent, id);
    assert r == ([id] + w)[..|r|];
    assert r[1..] == w[..|r| - 1];
    if NoDuplicates(recent) {
      WithoutDistinct(recent, id);
      assert NoDuplicates([id] + w);
    }
  }

  /** Viewing an id already in a duplicate-free list moves it to the front
      without growing the list. */
  lemma ReviewMovesToFront(recent: seq<string>, id: string)
    requires NoDuplicates(recent) && |recent| <= RecentLimit
    requires id in recent
    ensures |RecentAfterView(recent, id)| == |recent|
    ensures RecentAfterView(recent, id) == [id] + Without(recent, id)
  {
    var i :| 0 <= i < |recent| && recent[i] == id;
    assert recent == recent[..i] + [id] + recent[i + 1..];
    WithoutAppend(recent[..i] + [id], recent[i + 1..], id);
    WithoutAppend(recent[..i], [id], id);
    WithoutAbsent(recent[..i], id);
    WithoutAbsent(recent[i + 1..], id);
    assert Without([id], id) == [];
  }

  /** Viewing the same id twice in a row is the same as viewing it once. */
  lemma AddRecentlyViewedIdempotent(recent: seq<string>, id: string)
    ensures RecentAfterView(RecentAfterView(recent, id), id) == RecentAfterView(recent, id)
  {
    var once := RecentAfterView(recent, id);
    AddRecentlyViewedSpec(recent, id);
    var rest := once[1..];
    assert once == [id] + rest;
    WithoutAppend([id], rest, id);
    assert Without([id], id) == [];
    WithoutAbsent(rest, id);
    assert Without(once, id) == rest;
  }

  /** The preference store. */
  class Preferences {
    var favorites: seq<string>
    var recentlyViewed: seq<string>

    /** Neither list has duplicates and at most ten ids are recent. */
    predicate Valid()
      reads this
    {
      NoDuplicates(favorites) && NoDuplicates(recentlyViewed) && |recentlyViewed| <= RecentLimit
    }

    /** Both lists start empty. */
    constructor()
      ensures favorites == [] && recentlyViewed == []
      ensures Valid()
    {
      favorites := [];
      recentlyViewed := [];
    }

    method AddFavorite(id: string)
      requires Valid()
      modifies this
      ensures favorites == FavoritesAfterAdd(old(favorites), id)
      ensures recentlyViewed == old(recentlyViewed)
      ensures Valid()
    {
      favorites := Dedup(favorites + [id]);
    }

    method RemoveFavorite(id: string)
      requires Valid()
      modifies this
      ensures favorites == FavoritesAfterRemove(old(favorites), id)
      ensures recentlyViewed == old(recentlyViewed)
      ensures Valid()
    {
      favorites := Without(favorites, id);
      WithoutDistinct(old(favorites), id);
    }

    method AddRecentlyViewed(id: string)
      requires Valid()
      modifies this
      ensures recentlyViewed == RecentAfterView(old(recentlyViewed), id)
      ensures favorites == old(favorites)
      ensures Valid()
    {
      AddRecentlyViewedSpec(recentlyViewed, id);
      recentlyViewed := Take([id] + Without(recentlyViewed, id), RecentLimit);
    }
  }
}
