/** The records the application passes between its services and pages. The
    original code types most of them as `any`; these are the fields it reads. A
    string field that is missing or empty is "" here, because every fallback
    the code applies (`a || b`) treats the two alike. */
module Entities {
  import opened Common

  /** A track or user id: the APIs return numbers (Deezer) or strings (Jamendo). */
  datatype Id = Num(n: int) | Text(s: string)

  /** JavaScript's `String(id)`: the key under which ids are compared as text. */
  function IdKey(id: Id): string {
    match id
    case Num(n) => IntToString(n)
    case Text(s) => s
  }

  /** A numeric id and the decimal text of that number have the same key. */
  lemma NumericIdMatchesText(n: nat)
    ensures IdKey(Num(n)) == IdKey(Text(NatToString(n)))
  {
  }

  /** Two different non-negative numeric ids never share a key. */
  lemma NumericIdKeysDistinct(m: nat, n: nat)
    requires m != n
    ensures IdKey(Num(m)) != IdKey(Num(n))
  {
    if IdKey(Num(m)) == IdKey(Num(n)) {
      NatToStringInjective(m, n);
    }
  }

  /** The album object of a Deezer-style track (only the cover fields are read). */
  datatype AlbumInfo = AlbumInfo(cover_small: string, cover_medium: string, cover_big: string, cover: string)

  /** `track.artist`: absent, a plain string, or an object with a `name`. */
  datatype ArtistField = NoArtist | ArtistText(text: string) | ArtistObject(name: string)

  /** A playable track as the pages and the player service see it. */
  datatype Track = Track(
    id: Id,
    title: string,
    preview_url: string,
    preview: string,
    album: Option<AlbumInfo>,
    image: string,
    cover_medium: string,
    artist: ArtistField)

  /** The authenticated user of the auth backend; `id` is optional there. */
  datatype User = User(id: Option<Id>, email: string, name: string)

  /** The text a template literal produces for `user.id`, "undefined" when it is absent. */
  function UserIdText(u: User): string {
    match u.id
    case Some(id) => IdKey(id)
    case None => "undefined"
  }
}
