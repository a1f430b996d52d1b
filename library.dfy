/** LibraryPage: the favorites list with play buttons, album covers and artist
    names chosen through fallback chains. */
module Library {
  import opened Common
  import opened Entities
  import opened Storage
  import opened Favorites
  import opened PagePlayback

  const DefaultCover := "assets/default-album.png"
  const UnknownArtist := "Artista desconocido"

  datatype CoverSize = Small | Medium | Large

  /** The album field the size map names: small -> cover_small,
      medium -> cover_medium, large -> cover_big. */
  function SizeField(a: AlbumInfo, size: CoverSize): string {
    match size
    case Small => a.cover_small
    case Medium => a.cover_medium
    case Large => a.cover_big
  }

  /** `getAlbumCover(track, size)`. */
  function GetAlbumCover(t: Track, size: CoverSize): (r: string)
    ensures r != ""
  {
    var fromAlbum :=
      if t.album.Some? then
        if SizeField(t.album.value, size) != "" then SizeField(t.album.value, size)
        else if t.album.value.cover_medium != "" then t.album.value.cover_medium
        else t.album.value.cover
      else "";
    if fromAlbum != "" then fromAlbum
    else if t.image != "" then t.image
    else if t.cover_medium != "" then t.cover_medium
    else DefaultCover
  }

  /** The sources the cover is taken from, in the order they are tried. */
  function CoverCandidates(t: Track, size: CoverSize): seq<string> {
    (if t.album.Some? then [SizeField(t.album.value, size), t.album.value.cover_medium, t.album.value.cover] else [])
      + [t.image, t.cover_medium]
  }

  /** The first non-empty entry, or the fallback when all are empty. */
  function FirstNonEmpty(cands: seq<string>, fallback: string): (r: string)
    ensures (forall i :: 0 <= i < |cands| ==> cands[i] == "") ==> r == fallback
    ensures forall i :: 0 <= i < |cands| && cands[i] != "" && (forall k :: 0 <= k < i ==> cands[k] == "") ==> r == cands[i]
    decreases |cands|
  {
    if |cands| == 0 then fallback
    else if cands[0] != "" then cands[0]
    else
      var r := FirstNonEmpty(cands[1..], fallback);
      assert forall i :: 1 <= i < |cands| ==> cands[i] == cands[1..][i - 1];
      r
  }

  /** The cover is the first non-empty source in the documented order, else the default image. */
  lemma AlbumCoverIsFirstSource(t: Track, size: CoverSize)
    ensures GetAlbumCover(t, size) == FirstNonEmpty(CoverCandidates(t, size), DefaultCover)
  {
    var c := CoverCandidates(t, size);
    var r := FirstNonEmpty(c, DefaultCover);
    if t.album.Some? {
      var a := t.album.value;
      assert c == [SizeField(a, size), a.cover_medium, a.cover, t.image, t.cover_medium];
      if SizeField(a, size) != "" {
        assert r == c[0];
      } else if a.cover_medium != "" {
        assert r == c[1];
      } else if a.cover != "" {
        assert r == c[2];
      } else if t.image != "" {
        assert r == c[3];
      } else if t.cover_medium != "" {
        assert r == c[4];
      }
    } else {
      assert c == [t.image, t.cover_medium];
      if t.image != "" {
        assert r == c[0];
      } else if t.cover_medium != "" {
        assert r == c[1];
      }
    }
  }

  /** What `getArtistName` returns as written: the name, the `artist` value
      itself when it is truthy, or the fallback text. For an artist object
      whose `name` is empty that value is the object, not a string. */
  datatype Shown = ShownText(text: string) | ShownObject(artist: ArtistField)

  function GetArtistNameAsWritten(t: Track): Shown {
    match t.artist
    case ArtistObject(name) => if name != "" then ShownText(name) else ShownObject(t.artist)
    case ArtistText(s) => if s != "" then ShownText(s) else ShownText(UnknownArtist)
    case NoArtist => ShownText(UnknownArtist)
  }

  /** An artist object without a name makes the as-written function hand back
      the object instead of a name. */
  lemma NamelessArtistObjectLeaks(t: Track)
    requires t.artist == ArtistObject("")
    ensures GetArtistNameAsWritten(t) == ShownObject(ArtistObject(""))
  {
  }

  /** `getArtistName` as evidently intended: always a non-empty string. */
  function GetArtistName(t: Track): (r: string)
    ensures r != ""
    ensures GetArtistNameAsWritten(t).ShownText? ==> r == GetArtistNameAsWritten(t).text
    ensures GetArtistNameAsWritten(t).ShownObject? ==> r == UnknownArtist
    ensures t.artist.ArtistObject? && t.artist.name != "" ==> r == t.artist.name
    ensures t.artist.ArtistText? && t.artist.text != "" ==> r == t.artist.text
  {
    match t.artist
    case ArtistObject(name) => if name != "" then name else UnknownArtist
    case ArtistText(s) => if s != "" then s else UnknownArtist
    case NoArtist => UnknownArtist
  }

  class LibraryPage {
    /** The list last received from `favorites$`. */
    var favorites: seq<Track>
    var currentTrack: Option<Track>
    var isPlaying: bool
    var src: string
    var elementPlaying: bool
    var endedHook: bool
    const service: FavoritesService

    function Playback(): Deck
      reads this
    {
      Deck(currentTrack, isPlaying, src, elementPlaying, endedHook)
    }

    constructor (service: FavoritesService)
      ensures this.service == service
      ensures favorites == [] && Playback() == Idle
    {
      this.service := service;
      favorites := [];
      currentTrack, isPlaying, src, elementPlaying, endedHook := None, false, "", false, false;
    }

    /** The `favorites$` subscription set up in `ngOnInit`. */
    method OnFavorites(favs: seq<Track>)
      modifies this
      ensures favorites == favs && Playback() == old(Playback())
    {
      favorites := favs;
    }

    method TogglePlay(t: Track)
      modifies this
      ensures Playback() == PagePlayback.TogglePlay(old(Playback()), t)
      ensures favorites == old(favorites)
    {
      if currentTrack.Some? && currentTrack.value.id == t.id {
        if isPlaying {
          elementPlaying := false;
          isPlaying := false;
        } else {
          elementPlaying := true;
          isPlaying := true;
        }
        return;
      }
      elementPlaying := false;
      currentTrack := Some(t);
      src := t.preview;
      elementPlaying := true;
      isPlaying := true;
      endedHook := true;
    }

    method OnEnded()
      modifies this
      ensures Playback() == Ended(old(Playback()))
      ensures favorites == old(favorites)
    {
      elementPlaying := false;
      if endedHook {
        isPlaying := false;
      }
    }

    /** `removeFavorite`: removes by the track's id through the service; the
        page then receives the new list from the stream. */
    method RemoveFavorite(t: Track)
      requires service.Valid()
      modifies this, service, service.storage
      ensures service.Valid() && service.Synced()
      ensures service.favorites == Without(old(service.favorites), IdKey(t.id))
      ensures favorites == service.favorites
      ensures Playback() == old(Playback())
    {
      service.RemoveFavorite(t.id);
      favorites := service.published;
    }
  }
}
