/** SongsModalPage: the modal listing one artist's songs, with its own audio
    element, favorite toggles and two ways to close it. */
module SongsModal {
  import opened Common
  import opened Entities
  import opened Storage
  import opened Favorites
  import opened PagePlayback

  /** What the modal hands to the page that opened it when it closes: nothing,
      or `{ goToMusic: true }`. */
  datatype DismissData = NoData | GoToMusic(goToMusic: bool)

  class SongsModalPage {
    /** The `@Input()`s the opener passes. */
    var artistName: string
    var songs: seq<Track>
    var currentTrack: Option<Track>
    var isPlaying: bool
    var src: string
    var elementPlaying: bool
    var endedHook: bool
    /** The value the modal was dismissed with, once it has been. */
    var dismissed: Option<DismissData>
    const service: FavoritesService

    function Playback(): Deck
      reads this
    {
      Deck(currentTrack, isPlaying, src, elementPlaying, endedHook)
    }

    constructor (artistName: string, songs: seq<Track>, service: FavoritesService)
      ensures this.artistName == artistName && this.songs == songs && this.service == service
      ensures Playback() == Idle && dismissed == None
    {
      this.artistName, this.songs, this.service := artistName, songs, service;
      currentTrack, isPlaying, src, elementPlaying, endedHook := None, false, "", false, false;
      dismissed := None;
    }

    /** `dismiss()`: silences the element and closes without data. */
    method Dismiss()
      modifies this
      ensures Playback() == PauseElement(old(Playback()))
      ensures dismissed == Some(NoData)
      ensures artistName == old(artistName) && songs == old(songs)
    {
      elementPlaying := false;
      dismissed := Some(NoData);
    }

    /** `goToMusic()`: silences the element and closes asking the opener to go
        to the music page. */
    method GoToMusicPage()
      modifies this
      ensures Playback() == PauseElement(old(Playback()))
      ensures dismissed == Some(GoToMusic(true))
      ensures artistName == old(artistName) && songs == old(songs)
    {
      elementPlaying := false;
      dismissed := Some(GoToMusic(true));
    }

    method TogglePlay(t: Track)
      modifies this
      ensures Playback() == PagePlayback.TogglePlay(old(Playback()), t)
      ensures dismissed == old(dismissed) && artistName == old(artistName) && songs == old(songs)
    {
      if currentTrack.Some? && currentTrack.value.id == t.id {
        if isPlaying {
          elementPlaying := false;
          isPlaying := false;
        } else {
          elementPlaying := true;
          isPlaying := true;
        }
        return;
      }
      elementPlaying := false;
      currentTrack := Some(t);
      src := t.preview;
      elementPlaying := true;
      isPlaying := true;
      endedHook := true;
    }

    method OnEnded()
      modifies this
      ensures Playback() == Ended(old(Playback()))
      ensures dismissed == old(dismissed) && artistName == old(artistName) && songs == old(songs)
    {
      elementPlaying := false;
      if endedHook {
        isPlaying := false;
      }
    }

    /** `isFavorite(track)`, asked of the service by the track's id. */
    function IsFavorite(t: Track): (b: bool)
      reads this, service
      ensures b <==> HasKey(service.favorites, IdKey(t.id))
    {
      service.IsFavorite(t.id)
    }

    /** `toggleFavorite(event, track)`: the service toggles the track. */
    method ToggleFavorite(t: Track)
      requires service.Valid()
      modifies service, service.storage
      ensures service.Valid() && service.Synced()
      ensures service.favorites == Toggle(old(service.favorites), t)
    {
      service.ToggleFavorite(t);
    }
  }

  /** Closing the modal while a song plays silences the element but leaves
      `isPlaying` raised: the flag no longer describes the element. */
  method DismissWhilePlaying(m: SongsModalPage, t: Track)
    requires m.currentTrack == None
    modifies m
    ensures m.isPlaying && !m.elementPlaying && m.dismissed == Some(NoData)
  {
    m.TogglePlay(t);
    m.Dismiss();
  }
}
