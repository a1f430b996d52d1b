/** The play/pause logic that the music page, the library page and the songs
    modal each carry for their own `<audio>` element: the same track pauses or
    resumes, another track replaces it and starts. Tracks are matched with
    `===` on their ids, so a numeric id and its decimal text differ here. */
module PagePlayback {
  import opened Common
  import opened Entities

  /** A page's playback fields: `currentTrack`, `isPlaying`, and its audio
      element (source, playing, and whether the `onended` handler is set). */
  datatype Deck = Deck(current: Option<Track>, playing: bool, src: string, elementPlaying: bool, endedHook: bool)

  /** The state of a freshly created page. */
  const Idle := Deck(None, false, "", false, false)

  /** `this.currentTrack?.id === track.id`. */
  predicate IsCurrent(d: Deck, t: Track) {
    d.current.Some? && d.current.value.id == t.id
  }

  /** The page's `togglePlay(track)`. */
  function TogglePlay(d: Deck, t: Track): Deck {
    if IsCurrent(d, t) then
      if d.playing then d.(playing := false, elementPlaying := false)
      else d.(playing := true, elementPlaying := true)
    else
      Deck(Some(t), true, t.preview, true, true)
  }

  /** The element's `ended` event: the handler, once installed, lowers the flag. */
  function Ended(d: Deck): Deck {
    if d.endedHook then d.(playing := false, elementPlaying := false) else d.(elementPlaying := false)
  }

  /** `this.audio.pause()` alone, as the modal's dismiss does: the flag is not touched. */
  function PauseElement(d: Deck): Deck {
    d.(elementPlaying := false)
  }

  /** The handler is installed exactly when a track has been chosen, and the
      element never plays while the flag says paused. */
  ghost predicate Coherent(d: Deck) {
    (d.endedHook <==> d.current.Some?) && (d.elementPlaying ==> d.playing)
  }

  /** The page starts coherent and every transition keeps it so. */
  lemma TransitionsKeepCoherent(d: Deck, t: Track)
    ensures Coherent(Idle)
    ensures Coherent(d) ==> Coherent(TogglePlay(d, t)) && Coherent(Ended(d)) && Coherent(PauseElement(d))
  {
  }

  /** On the current track, `togglePlay` flips the flag and keeps the track and source. */
  lemma ToggleSameTrack(d: Deck, t: Track)
    requires IsCurrent(d, t)
    ensures TogglePlay(d, t).playing == !d.playing
    ensures TogglePlay(d, t).current == d.current && TogglePlay(d, t).src == d.src
  {
  }

  /** On any other track, `togglePlay` switches to it, loads its `preview` and plays. */
  lemma ToggleNewTrack(d: Deck, t: Track)
    requires !IsCurrent(d, t)
    ensures TogglePlay(d, t).current == Some(t)
    ensures TogglePlay(d, t).src == t.preview
    ensures TogglePlay(d, t).playing && TogglePlay(d, t).elementPlaying
  {
  }

  /** Whatever happened before, the toggled track is the current one afterwards. */
  lemma ToggledTrackIsCurrent(d: Deck, t: Track)
    ensures IsCurrent(TogglePlay(d, t), t)
  {
  }

  /** Toggling the current track twice restores a coherent page exactly. */
  lemma ToggleTwiceRestores(d: Deck, t: Track)
    requires Coherent(d) && IsCurrent(d, t) && d.elementPlaying == d.playing
    ensures TogglePlay(TogglePlay(d, t), t) == d
  {
  }

  /** The end of playback leaves the flag down once a track has been chosen. */
  lemma EndedStops(d: Deck)
    requires Coherent(d) && d.current.Some?
    ensures !Ended(d).playing && Ended(d).current == d.current
  {
  }

  /** Unlike the favorites list, the pages compare ids strictly: a track with
      numeric id 5 is not the current one when the current track's id is "5". */
  lemma StrictIdComparison(d: Deck, t: Track, u: Track)
    requires t.id == Num(5) && u.id == Text("5")
    requires d.current == Some(u)
    ensures !IsCurrent(d, t)
    ensures TogglePlay(d, t).current == Some(t)
  {
  }
}
