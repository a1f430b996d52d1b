/** ArtistsPage: the list of artists from the music service and a search box
    that filters it by name or genre, case-insensitively. */
module Artists {
  import opened Common

  /** An artist record; an absent `genres` list behaves like an empty one. */
  datatype Artist = Artist(name: string, genres: seq<string>)

  /** Some genre, lower-cased, includes the query. */
  function AnyGenreIncludes(genres: seq<string>, query: string): (b: bool)
    ensures b <==> exists i :: 0 <= i < |genres| && Includes(ToLower(genres[i]), query)
    decreases |genres|
  {
    if |genres| == 0 then false
    else
      assert forall i :: 1 <= i < |genres| ==> genres[i] == genres[1..][i - 1];
      Includes(ToLower(genres[0]), query) || AnyGenreIncludes(genres[1..], query)
  }

  /** The filter's test: the lower-cased name, or some lower-cased genre, includes the query. */
  predicate Matches(a: Artist, query: string) {
    Includes(ToLower(a.name), query) || AnyGenreIncludes(a.genres, query)
  }

  /** `artists.filter(...)`: the matching artists, in their original order. */
  function FilterArtists(xs: seq<Artist>, query: string): (r: seq<Artist>)
    ensures IsSubsequence(r, xs)
    ensures forall i :: 0 <= i < |r| ==> Matches(r[i], query)
    ensures forall i :: 0 <= i < |xs| && Matches(xs[i], query) ==> xs[i] in r
    ensures forall a :: multiset(r)[a] == if Matches(a, query) then multiset(xs)[a] else 0
    decreases |xs|
  {
    if |xs| == 0 then []
    else
      var rest := FilterArtists(xs[1..], query);
      var r := if Matches(xs[0], query) then [xs[0]] + rest else rest;
      FilterCountStep(xs, query, rest, r);
      if Matches(xs[0], query) then
        assert r[1..] == rest;
        r
      else
        SubsequenceExtend(rest, xs);
        r
  }

  /** One step of `FilterArtists`' count clauses: keeping or dropping the head
      adjusts its count and no other, so every matching artist stays. */
  lemma FilterCountStep(xs: seq<Artist>, query: string, rest: seq<Artist>, r: seq<Artist>)
    requires |xs| > 0
    requires forall a :: multiset(rest)[a] == if Matches(a, query) then multiset(xs[1..])[a] else 0
    requires r == if Matches(xs[0], query) then [xs[0]] + rest else rest
    ensures forall a :: multiset(r)[a] == if Matches(a, query) then multiset(xs)[a] else 0
    ensures forall i :: 0 <= i < |xs| && Matches(xs[i], query) ==> xs[i] in r
  {
    assert xs == [xs[0]] + xs[1..];
    assert multiset(xs) == multiset{xs[0]} + multiset(xs[1..]);
    if Matches(xs[0], query) {
      assert multiset(r) == multiset{xs[0]} + multiset(rest);
    }
    forall i | 0 <= i < |xs| && Matches(xs[i], query)
      ensures xs[i] in r
    {
      assert xs[i] in multiset(xs);
    }
  }

  /** The empty query would keep every artist; the page short-cuts it. */
  lemma {:induction false} EmptyQueryKeepsAll(xs: seq<Artist>)
    ensures FilterArtists(xs, "") == xs
    decreases |xs|
  {
    if |xs| > 0 {
      IncludesEmpty(ToLower(xs[0].name));
      EmptyQueryKeepsAll(xs[1..]);
    }
  }

  class ArtistsPage {
    var artists: seq<Artist>
    var filteredArtists: seq<Artist>
    var isLoading: bool
    var searchTerm: string

    constructor ()
      ensures artists == [] && filteredArtists == [] && isLoading && searchTerm == ""
    {
      artists, filteredArtists, isLoading, searchTerm := [], [], true, "";
    }

    /** `loadArtists` with the service's answer: on success both lists take
        the data; on error they are left as they were. */
    method LoadArtists(response: Result<seq<Artist>, string>)
      modifies this
      ensures !isLoading && searchTerm == old(searchTerm)
      ensures response.Ok? ==> artists == response.value && filteredArtists == response.value
      ensures response.Err? ==> artists == old(artists) && filteredArtists == old(filteredArtists)
    {
      isLoading := true;
      if response.Ok? {
        artists := response.value;
        filteredArtists := response.value;
      }
      isLoading := false;
    }

    /** `handleSearch`: stores the lower-cased query and filters by it; an
        empty query shows every artist. */
    method HandleSearch(value: string)
      modifies this
      ensures searchTerm == ToLower(value)
      ensures filteredArtists == FilterArtists(artists, ToLower(value))
      ensures value == "" ==> filteredArtists == artists
      ensures artists == old(artists) && isLoading == old(isLoading)
    {
      var query := ToLower(value);
      searchTerm := query;
      if query == "" {
        EmptyQueryKeepsAll(artists);
        filteredArtists := artists;
        return;
      }
      filteredArtists := FilterArtists(artists, query);
    }
  }
}
