/** MusicPage: a Deezer search box and a list of results, each playable on the
    page's own audio element. */
module Music {
  import opened Common
  import opened Entities
  import opened Storage
  import opened Favorites
  import opened PagePlayback

  /** The search run when the page opens without a `q` query parameter. */
  const DefaultQuery := "Top Hits"

  /** `search` stops at once for an empty query or one whose JavaScript
      `length` (UTF-16 code units) is below two. */
  predicate SearchAccepted(query: string) {
    Utf16Length(query) >= 2
  }

  /** Queries of one character are refused, except one beyond U+FFFF, which
      JavaScript counts as two code units; two characters are always accepted. */
  lemma SearchAcceptedByLength(query: string)
    ensures |query| <= 1 && (forall i :: 0 <= i < |query| ==> query[i] as int < 0x1_0000) ==> !SearchAccepted(query)
    ensures |query| == 1 && query[0] as int >= 0x1_0000 ==> SearchAccepted(query)
    ensures |query| >= 2 ==> SearchAccepted(query)
  {
    if |query| == 1 {
      assert query[1..] == [];
    }
  }

  class MusicPage {
    var tracks: seq<Track>
    var searchTerm: string
    var isLoading: bool
    var currentTrack: Option<Track>
    var isPlaying: bool
    /** The page's audio element. */
    var src: string
    var elementPlaying: bool
    var endedHook: bool
    const service: FavoritesService

    /** The playback fields as one value. */
    function Playback(): Deck
      reads this
    {
      Deck(currentTrack, isPlaying, src, elementPlaying, endedHook)
    }

    constructor (service: FavoritesService)
      ensures this.service == service
      ensures tracks == [] && searchTerm == "" && !isLoading
      ensures Playback() == Idle
    {
      this.service := service;
      tracks, searchTerm, isLoading := [], "", false;
      currentTrack, isPlaying, src, elementPlaying, endedHook := None, false, "", false, false;
    }

    /** `search(query)`: sends the request (whose answer arrives through
        `OnSearchResult`) unless the query is too short, in which case nothing changes. */
    method Search(query: string) returns (sent: bool)
      modifies this
      ensures sent <==> SearchAccepted(query)
      ensures sent ==> isLoading && searchTerm == query
      ensures !sent ==> isLoading == old(isLoading) && searchTerm == old(searchTerm)
      ensures tracks == old(tracks) && Playback() == old(Playback())
    {
      if Utf16Length(query) < 2 {
        return false;
      }
      isLoading := true;
      searchTerm := query;
      return true;
    }

    /** The search request's answer: the tracks on success; on error only the
        loading flag changes. */
    method OnSearchResult(response: Result<seq<Track>, string>)
      modifies this
      ensures !isLoading
      ensures tracks == if response.Ok? then response.value else old(tracks)
      ensures searchTerm == old(searchTerm) && Playback() == old(Playback())
    {
      if response.Ok? {
        tracks := response.value;
      }
      isLoading := false;
    }

    /** `ngOnInit`: a `q` parameter (`""` when absent) is shown and searched;
        otherwise the default query is searched. */
    method OnInit(q: string) returns (sent: bool)
      modifies this
      ensures q != "" ==> searchTerm == q && sent == SearchAccepted(q)
      ensures !sent ==> isLoading == old(isLoading)
      ensures q == "" ==> searchTerm == DefaultQuery && sent && isLoading
      ensures tracks == old(tracks) && Playback() == old(Playback())
    {
      if q != "" {
        searchTerm := q;
        sent := Search(q);
      } else {
        sent := Search(DefaultQuery);
      }
    }

    method TogglePlay(t: Track)
      modifies this
      ensures Playback() == PagePlayback.TogglePlay(old(Playback()), t)
      ensures tracks == old(tracks) && searchTerm == old(searchTerm) && isLoading == old(isLoading)
    {
      if currentTrack.Some? && currentTrack.value.id == t.id {
        if isPlaying {
          elementPlaying := false;
          isPlaying := false;
        } else {
          elementPlaying := true;
          isPlaying := true;
        }
        return;
      }
      elementPlaying := false;
      currentTrack := Some(t);
      src := t.preview;
      elementPlaying := true;
      isPlaying := true;
      endedHook := true;
    }

    /** The element's `ended` event. */
    method OnEnded()
      modifies this
      ensures Playback() == Ended(old(Playback()))
      ensures tracks == old(tracks) && searchTerm == old(searchTerm) && isLoading == old(isLoading)
    {
      elementPlaying := false;
      if endedHook {
        isPlaying := false;
      }
    }

    /** `isFavorite(track)`, asked of the service by the track's id. */
    function IsFavorite(t: Track): (b: bool)
      reads this, service
      ensures b <==> HasKey(service.favorites, IdKey(t.id))
    {
      service.IsFavorite(t.id)
    }

    /** `toggleFavorite(event, track)`: the service toggles the track. */
    method ToggleFavorite(t: Track)
      requires service.Valid()
      modifies service, service.storage
      ensures service.Valid() && service.Synced()
      ensures service.favorites == Toggle(old(service.favorites), t)
    {
      service.ToggleFavorite(t);
    }
  }

  /** Opening the page with a one-letter `q` shows it but searches nothing. */
  method ShortQueryShownNotSearched(p: MusicPage)
    modifies p
    ensures p.searchTerm == "a" && p.tracks == old(p.tracks) && p.isLoading == old(p.isLoading)
  {
    var sent := p.OnInit("a");
    assert !sent;
  }
}
