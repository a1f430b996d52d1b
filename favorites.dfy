/** FavoritesService: an in-memory list of tracks, mirrored into the store under
    one key and published to subscribers after every change. Ids are compared
    by their text (`String(id)`), so at most one entry per id text is added. */
module Favorites {
  import opened Common
  import opened Entities
  import opened Storage

  const StorageKey := "jamendo_favorites"

  /** `favs.some(t => String(t.id) === key)`. */
  function HasKey(favs: seq<Track>, key: string): (b: bool)
    ensures b <==> exists i :: 0 <= i < |favs| && IdKey(favs[i].id) == key
    decreases |favs|
  {
    if |favs| == 0 then false
    else if IdKey(favs[0].id) == key then true
    else
      var b := HasKey(favs[1..], key);
      assert forall i :: 1 <= i < |favs| ==> favs[i] == favs[1..][i - 1];
      b
  }

  /** `favs.filter(t => String(t.id) !== key)`. */
  function Without(favs: seq<Track>, key: string): (r: seq<Track>)
    ensures forall t :: t in r <==> t in favs && IdKey(t.id) != key
    ensures forall t :: multiset(r)[t] == if IdKey(t.id) != key then multiset(favs)[t] else 0
    ensures IsSubsequence(r, favs)
    decreases |favs|
  {
    if |favs| == 0 then []
    else
      var rest := Without(favs[1..], key);
      var r := if IdKey(favs[0].id) == key then rest else [favs[0]] + rest;
      WithoutCountStep(favs, key, rest, r);
      r
  }

  /** One step of `Without`'s multiplicity clause: keeping or dropping the head
      adjusts its count and no other. */
  lemma WithoutCountStep(favs: seq<Track>, key: string, rest: seq<Track>, r: seq<Track>)
    requires |favs| > 0
    requires forall t :: multiset(rest)[t] == if IdKey(t.id) != key then multiset(favs[1..])[t] else 0
    requires r == if IdKey(favs[0].id) == key then rest else [favs[0]] + rest
    ensures forall t :: multiset(r)[t] == if IdKey(t.id) != key then multiset(favs)[t] else 0
  {
    assert favs == [favs[0]] + favs[1..];
    assert multiset(favs) == multiset{favs[0]} + multiset(favs[1..]);
    if IdKey(favs[0].id) != key {
      assert multiset(r) == multiset{favs[0]} + multiset(rest);
    }
  }

  /** No two entries share an id text. */
  ghost predicate Distinct(favs: seq<Track>) {
    forall i, j :: 0 <= i < j < |favs| ==> IdKey(favs[i].id) != IdKey(favs[j].id)
  }

  /** The list `addFavorite` leaves behind. */
  function Add(favs: seq<Track>, t: Track): (r: seq<Track>)
    ensures HasKey(r, IdKey(t.id))
    ensures favs <= r && |r| <= |favs| + 1
    ensures r == favs <==> HasKey(favs, IdKey(t.id))
    ensures !HasKey(favs, IdKey(t.id)) ==> r == favs + [t]
  {
    if HasKey(favs, IdKey(t.id)) then favs
    else
      var r := favs + [t];
      assert IdKey(r[|favs|].id) == IdKey(t.id);
      r
  }

  /** The list `toggleFavorite` leaves behind. */
  function Toggle(favs: seq<Track>, t: Track): seq<Track> {
    if HasKey(favs, IdKey(t.id)) then Without(favs, IdKey(t.id)) else Add(favs, t)
  }

  /** What `loadLocalFavorites` takes from the stored value: the list, or [] when
      the key is absent. */
  function Loaded(stored: Option<Value>): (r: seq<Track>)
    ensures stored.None? ==> r == []
    ensures stored.Some? && stored.value.TrackList? ==> r == stored.value.tracks
  {
    if Truthy(stored) && stored.value.TrackList? then stored.value.tracks else []
  }

  /** After removing an id, it is no longer a favorite, and every other entry
      is still there. */
  lemma RemoveDropsOnlyThatId(favs: seq<Track>, key: string)
    ensures !HasKey(Without(favs, key), key)
    ensures forall t :: t in favs && IdKey(t.id) != key ==> t in Without(favs, key)
  {
  }

  /** Removing an id that is not present leaves the list as it was. */
  lemma {:induction false} RemoveAbsentIsIdentity(favs: seq<Track>, key: string)
    requires !HasKey(favs, key)
    ensures Without(favs, key) == favs
    decreases |favs|
  {
    if |favs| > 0 {
      assert IdKey(favs[0].id) != key && !HasKey(favs[1..], key);
      RemoveAbsentIsIdentity(favs[1..], key);
      WithoutHead(favs, key);
      HeadAndTail(favs, favs[0]);
    }
  }

  lemma TailOfAppend<T>(s: seq<T>, x: T)
    requires |s| > 0
    ensures (s + [x])[1..] == s[1..] + [x]
  {
  }

  /** `Without` unfolded once: the head is dropped exactly when it has the key. */
  lemma WithoutHead(favs: seq<Track>, key: string)
    requires |favs| > 0
    ensures Without(favs, key) == if IdKey(favs[0].id) == key then Without(favs[1..], key) else [favs[0]] + Without(favs[1..], key)
  {
  }

  /** Removing the id of an appended track from a list that lacked it undoes
      the append. */
  lemma {:induction false} RemoveUndoesAppend(favs: seq<Track>, t: Track)
    requires !HasKey(favs, IdKey(t.id))
    ensures Without(favs + [t], IdKey(t.id)) == favs
    decreases |favs|
  {
    var key := IdKey(t.id);
    if |favs| == 0 {
      WithoutHead([t], key);
      EmptyTail(t);
    } else {
      assert IdKey(favs[0].id) != key && !HasKey(favs[1..], key);
      RemoveUndoesAppend(favs[1..], t);
      WithoutHead(favs + [t], key);
      TailOfAppend(favs, t);
      HeadAndTail(favs, t);
    }
  }

  lemma EmptyTail<T>(x: T)
    ensures [] + [x] == [x] && [x][1..] == []
  {
  }

  lemma HeadAndTail<T>(s: seq<T>, x: T)
    requires |s| > 0
    ensures (s + [x])[0] == s[0] && [s[0]] + s[1..] == s
  {
  }

  /** Toggling flips whether the track's id is a favorite. */
  lemma ToggleFlips(favs: seq<Track>, t: Track)
    ensures HasKey(Toggle(favs, t), IdKey(t.id)) <==> !HasKey(favs, IdKey(t.id))
  {
  }

  /** Toggling twice, starting from a list without the track, restores the list. */
  lemma ToggleTwiceFromAbsent(favs: seq<Track>, t: Track)
    requires !HasKey(favs, IdKey(t.id))
    ensures Toggle(Toggle(favs, t), t) == favs
  {
    RemoveUndoesAppend(favs, t);
  }

  /** Toggling twice, starting from a list with the track's id, does not restore
      the list: every entry with that id is dropped and `t` goes to the end. */
  lemma ToggleTwiceFromPresent(favs: seq<Track>, t: Track)
    requires HasKey(favs, IdKey(t.id))
    ensures Toggle(Toggle(favs, t), t) == Without(favs, IdKey(t.id)) + [t]
  {
  }

  /** Adding, removing and toggling never create a second entry for an id. */
  lemma {:induction false} OperationsKeepDistinct(favs: seq<Track>, t: Track, key: string)
    requires Distinct(favs)
    ensures Distinct(Add(favs, t))
    ensures Distinct(Without(favs, key))
    ensures Distinct(Toggle(favs, t))
  {
    WithoutKeepsDistinct(favs, key);
    WithoutKeepsDistinct(favs, IdKey(t.id));
    var r := Add(favs, t);
    if !HasKey(favs, IdKey(t.id)) {
      forall i, j | 0 <= i < j < |r| ensures IdKey(r[i].id) != IdKey(r[j].id) {
        if j == |favs| {
          assert r[i] == favs[i];
        }
      }
    }
  }

  lemma {:induction false} WithoutKeepsDistinct(favs: seq<Track>, key: string)
    requires Distinct(favs)
    ensures Distinct(Without(favs, key))
    decreases |favs|
  {
    if |favs| > 0 {
      var tail := favs[1..];
      DistinctTail(favs);
      WithoutKeepsDistinct(tail, key);
      var rest := Without(tail, key);
      if IdKey(favs[0].id) != key {
        forall t | t in rest
          ensures IdKey(t.id) != IdKey(favs[0].id)
        {
          var k :| 0 <= k < |tail| && tail[k] == t;
          assert favs[k + 1] == t;
        }
        DistinctCons(favs[0], rest);
      }
    }
  }

  /** Dropping the first entry keeps the ids distinct. */
  lemma DistinctTail(favs: seq<Track>)
    requires |favs| > 0 && Distinct(favs)
    ensures Distinct(favs[1..])
  {
    var tail := favs[1..];
    forall i, j | 0 <= i < j < |tail| ensures IdKey(tail[i].id) != IdKey(tail[j].id) {
      assert tail[i] == favs[i + 1] && tail[j] == favs[j + 1];
    }
  }

  /** Putting a track with a fresh id in front keeps the ids distinct. */
  lemma DistinctCons(x: Track, rest: seq<Track>)
    requires Distinct(rest)
    requires forall t :: t in rest ==> IdKey(t.id) != IdKey(x.id)
    ensures Distinct([x] + rest)
  {
    var r := [x] + rest;
    forall i, j | 0 <= i < j < |r| ensures IdKey(r[i].id) != IdKey(r[j].id) {
      assert r[j] == rest[j - 1];
      if i > 0 {
        assert r[i] == rest[i - 1];
      }
    }
  }

  /** A numeric id and its decimal text name the same favorite. */
  lemma NumericAndTextIdsAgree(favs: seq<Track>, n: nat)
    ensures HasKey(favs, IdKey(Num(n))) <==> HasKey(favs, IdKey(Text(NatToString(n))))
    ensures Without(favs, IdKey(Num(n))) == Without(favs, IdKey(Text(NatToString(n))))
  {
  }

  class FavoritesService {
    /** The cached list. */
    var favorites: seq<Track>
    /** The last list published on `favorites$`. */
    var published: seq<Track>
    const storage: Store

    ghost predicate Valid()
      reads this, storage
    {
      storage.Valid()
    }

    /** Cache, stream and store agree. */
    ghost predicate Synced()
      reads this, storage
    {
      published == favorites && Loaded(storage.Lookup(StorageKey)) == favorites
    }

    /** The constructor runs `init`, which loads the stored list. */
    constructor (storage: Store)
      requires storage.Valid()
      modifies storage
      ensures this.storage == storage
      ensures Valid() && Synced()
      ensures favorites == Loaded(old(storage.Lookup(StorageKey)))
      ensures storage.data == old(storage.data)
    {
      this.storage := storage;
      var local := storage.Get(StorageKey);
      favorites := Loaded(local);
      published := favorites;
    }

    /** `loadLocalFavorites`, also reached through `init` and `refreshFavorites`. */
    method Load()
      requires Valid()
      modifies this, storage
      ensures Valid() && Synced()
      ensures favorites == Loaded(old(storage.Lookup(StorageKey)))
      ensures storage.data == old(storage.data)
    {
      var local := storage.Get(StorageKey);
      favorites := Loaded(local);
      published := favorites;
    }

    /** `isFavorite`: some cached entry has the same id text. */
    function IsFavorite(id: Id): (b: bool)
      reads this
      ensures b <==> exists i :: 0 <= i < |favorites| && IdKey(favorites[i].id) == IdKey(id)
    {
      HasKey(favorites, IdKey(id))
    }

    method AddFavorite(t: Track)
      requires Valid()
      modifies this, storage
      ensures Valid()
      ensures favorites == Add(old(favorites), t)
      ensures IsFavorite(t.id)
      ensures old(IsFavorite(t.id)) ==>
        published == old(published) && storage.data == old(storage.data)
      ensures !old(IsFavorite(t.id)) ==>
        Synced() && storage.data == old(storage.data)[StorageKey := TrackList(favorites)]
      ensures old(Synced()) ==> Synced()
    {
      if HasKey(favorites, IdKey(t.id)) {
        return;
      }
      favorites := favorites + [t];
      storage.Set(StorageKey, TrackList(favorites));
      published := favorites;
    }

    method RemoveFavorite(id: Id)
      requires Valid()
      modifies this, storage
      ensures Valid() && Synced()
      ensures favorites == Without(old(favorites), IdKey(id))
      ensures !IsFavorite(id)
      ensures storage.data == old(storage.data)[StorageKey := TrackList(favorites)]
    {
      var key := IdKey(id);
      favorites := Without(favorites, key);
      storage.Set(StorageKey, TrackList(favorites));
      published := favorites;
    }

    method ToggleFavorite(t: Track)
      requires Valid()
      modifies this, storage
      ensures Valid()
      ensures favorites == Toggle(old(favorites), t)
      ensures IsFavorite(t.id) <==> !old(IsFavorite(t.id))
      ensures Synced()
      ensures storage.data == old(storage.data)[StorageKey := TrackList(favorites)]
    {
      if IsFavorite(t.id) {
        RemoveFavorite(t.id);
      } else {
        AddFavorite(t);
      }
    }

    method ClearAllFavorites()
      requires Valid()
      modifies this, storage
      ensures Valid() && Synced()
      ensures favorites == []
      ensures storage.data == old(storage.data)[StorageKey := TrackList([])]
    {
      favorites := [];
      storage.Set(StorageKey, TrackList([]));
      published := [];
    }
  }

  /** Toggling a track twice from "not a favorite" restores the cached list. */
  method ToggleTwiceRestores(svc: FavoritesService, t: Track)
    requires svc.Valid() && !svc.IsFavorite(t.id)
    modifies svc, svc.storage
    ensures svc.favorites == old(svc.favorites)
    ensures svc.Synced()
  {
    ghost var before := svc.favorites;
    svc.ToggleFavorite(t);
    svc.ToggleFavorite(t);
    ToggleTwiceFromAbsent(before, t);
  }
}
