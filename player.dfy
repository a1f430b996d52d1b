/** PlayerService: the application-wide preview player. The `<audio>` element is
    reduced to its source, its paused/playing state and its current time; its
    events (`timeupdate`, `loadedmetadata`, `ended`, `play`, `pause`) are
    methods that the element calls. */
module Player {
  import opened Common
  import opened Entities

  /** The URL `playTrack` loads: `preview_url`, else `preview`; none when the
      track is null or has neither. */
  function PreviewOf(track: Option<Track>): (r: Option<string>)
    ensures r.Some? <==> track.Some? && (track.value.preview_url != "" || track.value.preview != "")
    ensures r.Some? ==> r.value != ""
    ensures r.Some? && track.value.preview_url != "" ==> r.value == track.value.preview_url
    ensures r.Some? && track.value.preview_url == "" ==> r.value == track.value.preview
  {
    if track.None? || (track.value.preview_url == "" && track.value.preview == "") then None
    else if track.value.preview_url != "" then Some(track.value.preview_url)
    else Some(track.value.preview)
  }

  /** Every field of the player service, as one value. */
  datatype Snapshot = Snapshot(currentTrack: Option<Track>, isPlaying: bool, progress: nat, duration: nat,
                               src: string, elementPlaying: bool, position: nat)

  class PlayerService {
    /** Last values of the `currentTrack$`, `isPlaying$`, `progress$` and `duration$` subjects. */
    var currentTrack: Option<Track>
    var isPlaying: bool
    var progress: nat
    var duration: nat
    /** The audio element: its source, whether it is playing, its current time. */
    var src: string
    var elementPlaying: bool
    var position: nat

    /** A track is loaded exactly when the element has a source. */
    ghost predicate Valid()
      reads this
    {
      currentTrack.None? <==> src == ""
    }

    /** The whole state of the service. */
    function State(): Snapshot
      reads this
    {
      Snapshot(currentTrack, isPlaying, progress, duration, src, elementPlaying, position)
    }

    constructor ()
      ensures Valid()
      ensures currentTrack == None && !isPlaying && progress == 0 && duration == 0
      ensures src == "" && !elementPlaying && position == 0
    {
      currentTrack, isPlaying, progress, duration := None, false, 0, 0;
      src, elementPlaying, position := "", false, 0;
    }

    /** `playTrack`: refuses a track without a preview and changes nothing;
        otherwise loads the preview and starts playing. */
    method PlayTrack(track: Option<Track>) returns (started: bool)
      requires Valid()
      modifies this
      ensures Valid()
      ensures started <==> PreviewOf(track).Some?
      ensures !started ==>
        currentTrack == old(currentTrack) && isPlaying == old(isPlaying) && src == old(src) &&
        elementPlaying == old(elementPlaying) && position == old(position)
      ensures started ==>
        currentTrack == track && isPlaying && src == PreviewOf(track).value &&
        elementPlaying && position == 0
      ensures progress == old(progress) && duration == old(duration)
    {
      var url := PreviewOf(track);
      if url.None? {
        return false;
      }
      currentTrack := track;
      src := url.value;
      position := 0;
      elementPlaying := true;
      isPlaying := true;
      return true;
    }

    /** `togglePlay`: flips the playing flag; it does not look at the track. */
    method TogglePlay()
      requires Valid()
      modifies this
      ensures Valid()
      ensures isPlaying == !old(isPlaying)
      ensures elementPlaying == (isPlaying && src != "")
      ensures currentTrack == old(currentTrack) && src == old(src)
      ensures progress == old(progress) && duration == old(duration) && position == old(position)
    {
      if isPlaying {
        elementPlaying := false;
        isPlaying := false;
      } else {
        elementPlaying := src != "";
        isPlaying := true;
      }
    }

    method Pause()
      requires Valid()
      modifies this
      ensures Valid()
      ensures !isPlaying && !elementPlaying
      ensures currentTrack == old(currentTrack) && src == old(src)
      ensures progress == old(progress) && duration == old(duration) && position == old(position)
    {
      elementPlaying := false;
      isPlaying := false;
    }

    method Stop()
      requires Valid()
      modifies this
      ensures Valid()
      ensures currentTrack == None && !isPlaying && progress == 0 && duration == 0
      ensures src == "" && !elementPlaying && position == old(position)
    {
      elementPlaying := false;
      src := "";
      currentTrack := None;
      isPlaying := false;
      progress := 0;
      duration := 0;
    }

    /** `seek`: moves the element's current time; `progress` follows at the next `timeupdate`. */
    method Seek(seconds: nat)
      requires Valid()
      modifies this
      ensures Valid()
      ensures position == seconds
      ensures currentTrack == old(currentTrack) && isPlaying == old(isPlaying) && src == old(src)
      ensures elementPlaying == old(elementPlaying) && progress == old(progress) && duration == old(duration)
    {
      position := seconds;
    }

    /** The `timeupdate` event publishes the element's current time. */
    method OnTimeUpdate(currentTime: nat)
      requires Valid()
      modifies this
      ensures Valid()
      ensures position == currentTime && progress == currentTime
      ensures currentTrack == old(currentTrack) && isPlaying == old(isPlaying) && src == old(src)
      ensures elementPlaying == old(elementPlaying) && duration == old(duration)
    {
      position := currentTime;
      progress := currentTime;
    }

    /** The `loadedmetadata` event publishes the media duration. */
    method OnLoadedMetadata(mediaDuration: nat)
      requires Valid()
      modifies this
      ensures Valid()
      ensures duration == mediaDuration
      ensures currentTrack == old(currentTrack) && isPlaying == old(isPlaying) && src == old(src)
      ensures elementPlaying == old(elementPlaying) && progress == old(progress) && position == old(position)
    {
      duration := mediaDuration;
    }

    method OnEnded()
      requires Valid()
      modifies this
      ensures Valid()
      ensures !isPlaying && !elementPlaying
      ensures currentTrack == old(currentTrack) && src == old(src)
      ensures progress == old(progress) && duration == old(duration) && position == old(position)
    {
      elementPlaying := false;
      isPlaying := false;
    }

    method OnPlay()
      requires Valid()
      modifies this
      ensures Valid()
      ensures isPlaying && elementPlaying
      ensures currentTrack == old(currentTrack) && src == old(src)
      ensures progress == old(progress) && duration == old(duration) && position == old(position)
    {
      elementPlaying := true;
      isPlaying := true;
    }

    method OnPause()
      requires Valid()
      modifies this
      ensures Valid()
      ensures !isPlaying && !elementPlaying
      ensures currentTrack == old(currentTrack) && src == old(src)
      ensures progress == old(progress) && duration == old(duration) && position == old(position)
    {
      elementPlaying := false;
      isPlaying := false;
    }
  }

  /** Two toggles restore the playing flag and leave the track alone. */
  method ToggleTwice(p: PlayerService)
    requires p.Valid()
    modifies p
    ensures p.Valid()
    ensures p.isPlaying == old(p.isPlaying) && p.currentTrack == old(p.currentTrack)
  {
    p.TogglePlay();
    p.TogglePlay();
  }

  /** Pausing twice leaves the same state as pausing once. */
  method PauseTwice(p: PlayerService) returns (ghost once: Snapshot)
    requires p.Valid()
    modifies p
    ensures p.Valid() && !p.isPlaying
    ensures p.currentTrack == old(p.currentTrack) && p.progress == old(p.progress)
    ensures once == Snapshot(old(p.currentTrack), false, old(p.progress), old(p.duration), old(p.src), false, old(p.position))
    ensures p.State() == once
  {
    p.Pause();
    once := p.State();
    p.Pause();
  }

  /** Stopping twice leaves the same state as stopping once. */
  method StopTwice(p: PlayerService) returns (ghost once: Snapshot)
    requires p.Valid()
    modifies p
    ensures p.Valid() && p.currentTrack == None && !p.isPlaying && p.progress == 0 && p.duration == 0
    ensures p.State() == once
  {
    p.Stop();
    once := p.State();
    p.Stop();
  }

  /** After `stop`, `togglePlay` raises the playing flag although no track is
      loaded and the element stays silent. */
  method ToggleAfterStop(p: PlayerService)
    requires p.Valid()
    modifies p
    ensures p.isPlaying && p.currentTrack == None && !p.elementPlaying
  {
    p.Stop();
    p.TogglePlay();
  }
}
