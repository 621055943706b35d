/** `create_track_list_of_related_artists`: seed names to artist rows, to a sample of
    related artists per seed, to their top tracks, de-duplicated by `Track ID`. */
module Pipeline {
  import opened Wrappers
  import opened Python
  import opened Records
  import opened Service
  import opened Artists
  import opened Tracks
  import opened Dedup

  /** The related artists the pipeline samples for the names it resolves: always shuffled
      (`shuffle_artists` keeps its default), at most `numRelated` per seed. */
  function SampledArtists(catalog: Catalog, names: seq<string>, numRelated: int, shuffle: Shuffler): (related: seq<Record>)
    requires SearchWellFormed(catalog.search) && RelatedWellFormed(catalog.related)
    requires IsPermuting(shuffle)
    ensures forall a :: a in related ==> IsArtistRow(a)
  {
    var ids := ArtistIds(Resolved(catalog.search, names));
    RelatedAreArtistRows(catalog.related, ids, numRelated, true, shuffle);
    RelatedOf(catalog.related, ids, numRelated, true, shuffle)
  }

  /** The track list the pipeline returns, or the exception it raises. The seed artists
      are never added: `DataFrame.append` returns a new frame, which the code drops. */
  function TrackListOf(catalog: Catalog, names: seq<string>, numTopTracks: int, numRelated: int,
                       shuffle: Shuffler): Result<seq<Record>, PyError>
    requires SearchWellFormed(catalog.search) && RelatedWellFormed(catalog.related)
    requires IsPermuting(shuffle)
  {
    if Resolved(catalog.search, names) == [] then Failure(KeyError(ArtistIdKey))
    else
      var related := SampledArtists(catalog, names, numRelated, shuffle);
      Success(DropDuplicates(TopTracksOf(catalog.topTracks, related, numTopTracks)))
  }

  /** `create_track_list_of_related_artists` over a list of names (reading them from a
      file is not modelled). */
  method CreateTrackListOfRelatedArtists(catalog: Catalog, names: seq<string>, shuffle: Shuffler,
                                         includeSeedArtists: bool := true, numTopTracksPerArtist: int := 5,
                                         numRelatedArtists: int := 8)
    returns (r: Result<seq<Record>, PyError>)
    requires SearchWellFormed(catalog.search) && RelatedWellFormed(catalog.related)
    requires IsPermuting(shuffle)
    ensures r == TrackListOf(catalog, names, numTopTracksPerArtist, numRelatedArtists, shuffle)
  {
    var artists := ArtistDetails(catalog, NameList(names));
    // `num_related_artists` is passed positionally, so it is `num_artists` and
    // `shuffle_artists` keeps its default.
    var relatedArtists := FindRelatedArtists(catalog, artists, shuffle, numRelatedArtists);
    if relatedArtists.Failure? {
      return Failure(relatedArtists.error);
    }
    if includeSeedArtists {
      // `related_artists.append(artists)` builds a new frame that nothing keeps.
      var appended := relatedArtists.value + artists;
    }
    RelatedAreArtistRows(catalog.related, ArtistIds(artists), numRelatedArtists, true, shuffle);
    var trackList := FindTopTracks(catalog, relatedArtists.value, numTopTracksPerArtist);
    r := Success(DropDuplicates(trackList));
  }

  /** The pipeline raises `KeyError` exactly when none of the names is known; otherwise every
      track it returns has a `Track ID`, and no two share one. */
  lemma TrackListUnique(catalog: Catalog, names: seq<string>, numTopTracks: int, numRelated: int, shuffle: Shuffler)
    requires SearchWellFormed(catalog.search) && RelatedWellFormed(catalog.related)
    requires IsPermuting(shuffle)
    ensures TrackListOf(catalog, names, numTopTracks, numRelated, shuffle).Failure? <==>
      forall i :: 0 <= i < |names| ==> catalog.search(names[i]) == []
    ensures TrackListOf(catalog, names, numTopTracks, numRelated, shuffle).Success? ==>
      var tracks := TrackListOf(catalog, names, numTopTracks, numRelated, shuffle).value;
      UniqueKeys(tracks) && forall t: Record :: t in tracks ==> TrackIdKey in t && t[TrackIdKey].Text?
  {
    ResolvedNone(catalog.search, names);
    var seeds := Resolved(catalog.search, names);
    if seeds != [] {
      var ids := ArtistIds(seeds);
      RelatedAreArtistRows(catalog.related, ids, numRelated, true, shuffle);
      var related := RelatedOf(catalog.related, ids, numRelated, true, shuffle);
      TopTracksHaveTrackIds(catalog.topTracks, related, numTopTracks);
    }
  }

  /** Bounded output: at most `numRelated` related artists per known name and at most
      `numTopTracks` tracks per related artist, before de-duplication can only shrink it. */
  lemma TrackListBound(catalog: Catalog, names: seq<string>, numTopTracks: int, numRelated: int, shuffle: Shuffler)
    requires SearchWellFormed(catalog.search) && RelatedWellFormed(catalog.related)
    requires IsPermuting(shuffle)
    requires numTopTracks >= 0 && numRelated >= 0
    ensures TrackListOf(catalog, names, numTopTracks, numRelated, shuffle).Success? ==>
      |TrackListOf(catalog, names, numTopTracks, numRelated, shuffle).value| <= |names| * numRelated * numTopTracks
  {
    var seeds := Resolved(catalog.search, names);
    if seeds != [] {
      var ids := ArtistIds(seeds);
      RelatedAreArtistRows(catalog.related, ids, numRelated, true, shuffle);
      var related := RelatedOf(catalog.related, ids, numRelated, true, shuffle);
      RelatedBound(catalog.related, ids, numRelated, true, shuffle);
      TopTracksBound(catalog.topTracks, related, numTopTracks);
      MulMonotone(|related|, numRelated * |seeds|, numTopTracks);
      MulMonotone(|seeds|, |names|, numRelated);
      MulMonotone(numRelated * |seeds|, numRelated * |names|, numTopTracks);
    }
  }

  lemma MulMonotone(a: int, b: int, c: int)
    requires a <= b && c >= 0
    ensures a * c <= b * c && c * a <= c * b
  {
  }

  /** Every track in the list is a top track of one of the sampled related artists, tagged
      with that artist's row. A seed's tracks therefore appear only when the seed is itself
      among the related artists sampled for some seed: `include_seed_artists` adds nothing. */
  lemma TracksFromRelatedArtists(catalog: Catalog, names: seq<string>, numTopTracks: int, numRelated: int,
                                 shuffle: Shuffler)
    requires SearchWellFormed(catalog.search) && RelatedWellFormed(catalog.related)
    requires IsPermuting(shuffle)
    ensures TrackListOf(catalog, names, numTopTracks, numRelated, shuffle).Success? ==>
      forall r :: r in TrackListOf(catalog, names, numTopTracks, numRelated, shuffle).value ==>
        exists i, j :: TopTrackOf(catalog.topTracks, SampledArtists(catalog, names, numRelated, shuffle), r, i, j)
  {
    var related := SampledArtists(catalog, names, numRelated, shuffle);
    TopTracksProvenance(catalog.topTracks, related, numTopTracks);
  }
}
