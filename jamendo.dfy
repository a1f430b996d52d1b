/** JamendoService, from response to value: the record mapping, the
    conversion to the app's track shape, first-or-null selection and the
    error fallbacks. The HTTP requests themselves are parameters. */
module Jamendo {
  import opened Common

  /** A track as the API returns it. Text fields that may be missing are
      `""` when missing; `position` may be missing (`None`). */
  datatype RawTrack = RawTrack(
    id: string, name: string, artist_name: string, artist_id: string,
    album_name: string, album_id: string, album_image: string,
    duration: nat, audio: string, audiodownload: string, image: string,
    license_ccurl: string, position: Option<nat>, releasedate: string)

  /** `JamendoTrack`, the mapped record. */
  datatype JamendoTrack = JamendoTrack(
    id: string, name: string, artist_name: string, artist_id: string,
    album_name: string, album_id: string, album_image: string,
    duration: nat, audio: string, audiodownload: string, image: string,
    license_ccurl: string, position: nat, releasedate: string)

  /** `a || b` on strings. */
  function OrElse(a: string, b: string): (r: string)
    ensures a != "" ==> r == a
    ensures a == "" ==> r == b
  {
    if a != "" then a else b
  }

  /** One element of `mapTracks`. */
  function MapTrack(t: RawTrack): (j: JamendoTrack)
    ensures j.id == t.id && j.name == t.name && j.artist_name == t.artist_name && j.artist_id == t.artist_id
    ensures j.album_name == t.album_name && j.album_id == t.album_id && j.duration == t.duration
    ensures t.album_image != "" || t.image != "" ==> j.album_image != "" && j.image != ""
    ensures j.album_image == (if t.album_image != "" then t.album_image else t.image)
    ensures j.image == (if t.image != "" then t.image else t.album_image)
    ensures j.audio == t.audio && j.audiodownload == t.audiodownload
    ensures j.license_ccurl == t.license_ccurl && j.releasedate == t.releasedate
    ensures j.position == (if t.position.Some? then t.position.value else 0)
  {
    JamendoTrack(
      t.id, t.name, t.artist_name, t.artist_id, t.album_name, t.album_id,
      OrElse(t.album_image, t.image), t.duration,
      OrElse(t.audio, ""), OrElse(t.audiodownload, ""),
      OrElse(t.image, t.album_image), OrElse(t.license_ccurl, ""),
      if t.position.Some? && t.position.value != 0 then t.position.value else 0,
      OrElse(t.releasedate, ""))
  }

  /** `mapTracks`: one mapped record per raw record, in the same order. */
  function MapTracks(ts: seq<RawTrack>): (r: seq<JamendoTrack>)
    ensures |r| == |ts|
    ensures forall i :: 0 <= i < |ts| ==> r[i] == MapTrack(ts[i])
    decreases |ts|
  {
    if |ts| == 0 then []
    else
      var rest := MapTracks(ts[1..]);
      assert forall i :: 1 <= i < |ts| ==> ts[i] == ts[1..][i - 1];
      [MapTrack(ts[0])] + rest
  }

  /** Mapping distributes over concatenation. */
  lemma {:induction false} MapTracksAppend(a: seq<RawTrack>, b: seq<RawTrack>)
    ensures MapTracks(a + b) == MapTracks(a) + MapTracks(b)
  {
    var l := MapTracks(a + b);
    var r := MapTracks(a) + MapTracks(b);
    forall i | 0 <= i < |l|
      ensures l[i] == r[i]
    {
      if i < |a| {
        assert (a + b)[i] == a[i];
      } else {
        assert (a + b)[i] == b[i - |a|];
      }
    }
  }

  /** A response body: `results` may be missing. */
  datatype Response<T> = Response(results: Option<seq<T>>)

  /** `response.results || []`. */
  function ResultsOf<T>(body: Response<T>): seq<T> {
    if body.results.Some? then body.results.value else []
  }

  /** `list.length > 0 ? list[0] : null`. */
  function FirstOrNull<T>(xs: seq<T>): (r: Option<T>)
    ensures r.None? <==> |xs| == 0
    ensures r.Some? ==> r.value == xs[0]
  {
    if |xs| > 0 then Some(xs[0]) else None
  }

  /** The track lists of `searchTracks`, `getTracksByArtist`,
      `getPopularTracks`, `getTracksByTag` and `getRadioTracks`: a failed
      request gives the empty list. */
  function TrackList<E>(response: Result<Response<RawTrack>, E>): (r: seq<JamendoTrack>)
    ensures response.Err? ==> r == []
    ensures response.Ok? ==> r == MapTracks(ResultsOf(response.value))
    ensures response.Ok? && response.value.results.None? ==> r == []
  {
    match response
    case Err(_) => []
    case Ok(body) => MapTracks(ResultsOf(body))
  }

  /** `getTrack`: the first mapped track, or null when there is none or the request failed. */
  function GetTrack<E>(response: Result<Response<RawTrack>, E>): (r: Option<JamendoTrack>)
    ensures response.Err? ==> r.None?
    ensures response.Ok? ==> (r.None? <==> |ResultsOf(response.value)| == 0)
    ensures r.Some? ==> response.Ok? && r.value == MapTrack(ResultsOf(response.value)[0])
  {
    match response
    case Err(_) => None
    case Ok(body) => FirstOrNull(MapTracks(ResultsOf(body)))
  }

  /** The artist and album records are passed through as received. */
  datatype JamendoArtist = JamendoArtist(id: string, name: string, website: string, image: string, shorturl: string)
  datatype JamendoAlbum = JamendoAlbum(id: string, name: string, artist_id: string, artist_name: string, image: string, releasedate: string)

  /** `searchArtists` and `getArtistAlbums`: the results, or the empty list. */
  function ListOrEmpty<T, E>(response: Result<Response<T>, E>): (r: seq<T>)
    ensures response.Err? ==> r == []
    ensures response.Ok? && response.value.results.Some? ==> r == response.value.results.value
    ensures response.Ok? && response.value.results.None? ==> r == []
  {
    match response
    case Err(_) => []
    case Ok(body) => ResultsOf(body)
  }

  /** `getArtist`: the first artist, or null. */
  function GetArtist<E>(response: Result<Response<JamendoArtist>, E>): (r: Option<JamendoArtist>)
    ensures response.Err? ==> r.None?
    ensures r.Some? ==> response.Ok? && |ResultsOf(response.value)| > 0 && r.value == ResultsOf(response.value)[0]
    ensures response.Ok? && |ResultsOf(response.value)| > 0 ==> r.Some?
  {
    match response
    case Err(_) => None
    case Ok(body) => FirstOrNull(ResultsOf(body))
  }

  /** The app's track shape. */
  datatype ArtistRef = ArtistRef(name: string, id: string)
  datatype Image = Image(url: string)
  datatype AppAlbum = AppAlbum(name: string, images: seq<Image>)
  datatype AppTrack = AppTrack(
    id: string, name: string, artists: seq<ArtistRef>, album: AppAlbum,
    duration_ms: nat, preview: string, preview_url: string, jamendo: string)

  const TrackUrlBase := "https://www.jamendo.com/track/"

  /** `convertToAppFormat`. */
  function ConvertToAppFormat(t: JamendoTrack): (a: AppTrack)
    ensures a.id == t.id && a.name == t.name
    ensures a.artists == [ArtistRef(t.artist_name, t.artist_id)]
    ensures a.album.name == t.album_name && |a.album.images| == 1
    ensures a.duration_ms == t.duration * 1000
    ensures a.preview == t.audio && a.preview_url == t.audio
    ensures |a.jamendo| == |TrackUrlBase| + |t.id| && a.jamendo[..|TrackUrlBase|] == TrackUrlBase && a.jamendo[|TrackUrlBase|..] == t.id
  {
    AppTrack(
      t.id, t.name, [ArtistRef(t.artist_name, t.artist_id)],
      AppAlbum(t.album_name, [Image(OrElse(t.album_image, t.image))]),
      t.duration * 1000, t.audio, t.audio, TrackUrlBase + t.id)
  }

  /** After mapping, the converted cover is the raw album image, else the raw image. */
  lemma ConvertedCover(t: RawTrack)
    ensures ConvertToAppFormat(MapTrack(t)).album.images[0].url == OrElse(t.album_image, t.image)
    ensures t.album_image != "" || t.image != "" ==> ConvertToAppFormat(MapTrack(t)).album.images[0].url != ""
  {
  }

  /** Converted tracks with different ids have different Jamendo links. */
  lemma TrackUrlInjective(s: JamendoTrack, t: JamendoTrack)
    ensures ConvertToAppFormat(s).jamendo == ConvertToAppFormat(t).jamendo ==> s.id == t.id
  {
    var a := ConvertToAppFormat(s).jamendo;
    var b := ConvertToAppFormat(t).jamendo;
    assert a[|TrackUrlBase|..] == s.id && b[|TrackUrlBase|..] == t.id;
  }

  /** `getTags`: the fixed fifteen tags. */
  const Tags: seq<string> := [
    "pop", "rock", "electronic", "jazz", "classical",
    "hiphop", "metal", "folk", "country", "reggae",
    "blues", "ambient", "instrumental", "dance", "indie"]

  function GetTags(): (r: seq<string>)
    ensures |r| == 15
    ensures "rock" in r && "indie" in r
  {
    Tags
  }
}
