/** FloatingPlayerComponent: a mini player that mirrors the player service's
    subjects and forwards its buttons to the service. */
module FloatingPlayer {
  import opened Common
  import opened Entities
  import opened Player

  class FloatingPlayerComponent {
    /** The values last received from the four subscriptions. */
    var currentTrack: Option<Track>
    var isPlaying: bool
    var progress: nat
    var duration: nat
    const player: PlayerService

    /** The subscriptions deliver each new value at once, so the component
        shows what the service holds. */
    predicate Mirrors()
      reads this, player
    {
      currentTrack == player.currentTrack && isPlaying == player.isPlaying &&
      progress == player.progress && duration == player.duration
    }

    constructor (player: PlayerService)
      ensures this.player == player
      ensures currentTrack == None && !isPlaying && progress == 0 && duration == 0
    {
      this.player := player;
      currentTrack, isPlaying, progress, duration := None, false, 0, 0;
    }

    /** `ngOnInit`: subscribing replays the subjects' current values. */
    method OnInit()
      modifies this
      ensures Mirrors()
    {
      Sync();
    }

    method Sync()
      modifies this
      ensures Mirrors()
    {
      currentTrack, isPlaying := player.currentTrack, player.isPlaying;
      progress, duration := player.progress, player.duration;
    }

    /** `togglePlay`: the service's toggle; the track stays, the flag flips. */
    method TogglePlay()
      requires player.Valid() && Mirrors()
      modifies this, player
      ensures player.Valid() && Mirrors()
      ensures isPlaying == !old(isPlaying) && currentTrack == old(currentTrack)
      ensures progress == old(progress) && duration == old(duration)
      ensures player.src == old(player.src) && player.elementPlaying == (isPlaying && player.src != "")
    {
      player.TogglePlay();
      Sync();
    }

    /** `close`: the service's stop, which clears the track and the progress. */
    method Close()
      requires player.Valid()
      modifies this, player
      ensures player.Valid() && Mirrors()
      ensures currentTrack == None && !isPlaying && progress == 0 && duration == 0
      ensures player.src == ""
    {
      player.Stop();
      Sync();
    }
  }

  /** Closing and then pressing play shows "playing" with no track, as the
      service does after `stop`. */
  method CloseThenPlay(c: FloatingPlayerComponent)
    requires c.player.Valid()
    modifies c, c.player
    ensures c.isPlaying && c.currentTrack == None && !c.player.elementPlaying
  {
    c.Close();
    c.TogglePlay();
  }
}
