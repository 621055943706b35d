/** `find_top_tracks` (the first tracks of each artist, tagged with the artist's row)
    and the chunked `audio_features` lookup. */
module Tracks {
  import opened Wrappers
  import opened Python
  import opened Records
  import opened Service
  import opened Chunking

  /** The artist's top tracks, extracted and tagged with the artist's row (artist fields win). */
  function Tagged(topTracks: string -> seq<RawTrack>, artist: Record): seq<Record>
    requires HasArtistId(artist)
  {
    var tracks := topTracks(ArtistIdOf(artist));
    seq(|tracks|, i requires 0 <= i < |tracks| => Overlay(TrackRow(tracks[i]), artist))
  }

  /** The rows `find_top_tracks` builds: the first `numTracks` tagged tracks of each
      artist, in artist order and, within an artist, in the service's order. */
  function TopTracksOf(topTracks: string -> seq<RawTrack>, artists: seq<Record>, numTracks: int): seq<Record>
    requires forall a :: a in artists ==> HasArtistId(a)
  {
    if artists == [] then []
    else
      TopTracksOf(topTracks, artists[..|artists| - 1], numTracks)
      + Head(Tagged(topTracks, artists[|artists| - 1]), numTracks)
  }

  /** `find_top_tracks`: per artist row, fetch, extract, tag with the row, truncate. */
  method FindTopTracks(catalog: Catalog, artists: seq<Record>, numTracks: int := 5) returns (trackIds: seq<Record>)
    requires forall a :: a in artists ==> HasArtistId(a)
    ensures trackIds == TopTracksOf(catalog.topTracks, artists, numTracks)
  {
    trackIds := [];
    for i := 0 to |artists|
      invariant trackIds == TopTracksOf(catalog.topTracks, artists[..i], numTracks)
    {
      var artist := artists[i];
      var tracks := catalog.topTracks(ArtistIdOf(artist));
      var trackList := seq(|tracks|, j requires 0 <= j < |tracks| => TrackRow(tracks[j]));
      trackList := ExpandDictsInList(trackList, artist);
      var topN := Head(trackList, numTracks);
      trackIds := trackIds + topN;
      assert trackList == Tagged(catalog.topTracks, artist);
      assert artists[..i + 1][..i] == artists[..i];
    }
    assert artists[..|artists|] == artists;
  }

  /** Track `j` of an artist's contribution is its `j`-th top track tagged with its row,
      and the artist contributes `min(len(tracks), numTracks)` of them. */
  lemma ContributionAt(topTracks: string -> seq<RawTrack>, artist: Record, numTracks: int, j: nat)
    requires HasArtistId(artist) && numTracks >= 0
    requires j < |Head(Tagged(topTracks, artist), numTracks)|
    ensures |Head(Tagged(topTracks, artist), numTracks)| == Min(|topTracks(ArtistIdOf(artist))|, numTracks)
    ensures j < |topTracks(ArtistIdOf(artist))|
    ensures Head(Tagged(topTracks, artist), numTracks)[j] == Overlay(TrackRow(topTracks(ArtistIdOf(artist))[j]), artist)
  {
    var t := Tagged(topTracks, artist);
    assert Head(t, numTracks)[j] == t[j];
  }

  /** Bounded top tracks: never more than `numTracks` tracks per artist. */
  lemma {:induction false} TopTracksBound(topTracks: string -> seq<RawTrack>, artists: seq<Record>, numTracks: int)
    requires forall a :: a in artists ==> HasArtistId(a)
    requires numTracks >= 0
    ensures |TopTracksOf(topTracks, artists, numTracks)| <= numTracks * |artists|
    decreases |artists|
  {
    if artists != [] {
      TopTracksBound(topTracks, artists[..|artists| - 1], numTracks);
      assert numTracks * (|artists| - 1) + numTracks == numTracks * |artists|;
    }
  }

  /** Row `r` is top track `j` of artist row `i`, tagged with that row. */
  ghost predicate TopTrackOf(topTracks: string -> seq<RawTrack>, artists: seq<Record>, r: Record, i: int, j: int)
    requires forall a :: a in artists ==> HasArtistId(a)
  {
    && 0 <= i < |artists|
    && 0 <= j < |topTracks(ArtistIdOf(artists[i]))|
    && r == Overlay(TrackRow(topTracks(ArtistIdOf(artists[i]))[j]), artists[i])
  }

  /** Nothing is invented: every row is a top track of one of the artists, tagged with
      that artist's row. */
  lemma {:induction false} TopTracksProvenance(topTracks: string -> seq<RawTrack>, artists: seq<Record>, numTracks: int)
    requires forall a :: a in artists ==> HasArtistId(a)
    ensures forall r :: r in TopTracksOf(topTracks, artists, numTracks) ==>
      exists i, j :: TopTrackOf(topTracks, artists, r, i, j)
    decreases |artists|
  {
    if artists != [] {
      var last := |artists| - 1;
      var init := artists[..last];
      TopTracksProvenance(topTracks, init, numTracks);
      var t := Tagged(topTracks, artists[last]);
      forall r | r in TopTracksOf(topTracks, artists, numTracks)
        ensures exists i, j :: TopTrackOf(topTracks, artists, r, i, j)
      {
        if r in TopTracksOf(topTracks, init, numTracks) {
          var i, j :| TopTrackOf(topTracks, init, r, i, j);
          assert init[i] == artists[i];
          assert TopTrackOf(topTracks, artists, r, i, j);
        } else {
          var h := Head(t, numTracks);
          assert r in h;
          var j :| 0 <= j < |h| && h[j] == r;
          assert h[j] == t[j];
          assert TopTrackOf(topTracks, artists, r, last, j);
        }
      }
    }
  }

  /** Every row of the artists' top tracks carries its track's own `Track ID` when the
      artist rows have no such field, as extracted artist rows do not. */
  lemma TopTracksHaveTrackIds(topTracks: string -> seq<RawTrack>, artists: seq<Record>, numTracks: int)
    requires forall a :: a in artists ==> HasArtistId(a) && TrackIdKey !in a
    ensures forall r: Record :: r in TopTracksOf(topTracks, artists, numTracks) ==>
      TrackIdKey in r && r[TrackIdKey].Text?
  {
    TopTracksProvenance(topTracks, artists, numTracks);
    forall r: Record | r in TopTracksOf(topTracks, artists, numTracks)
      ensures TrackIdKey in r && r[TrackIdKey].Text?
    {
      var i, j :| TopTrackOf(topTracks, artists, r, i, j);
      TaggedTrackRow(topTracks(ArtistIdOf(artists[i]))[j], artists[i]);
    }
  }

  /** The features the service returns for a list of track ids, one per id, in order. */
  function FeaturesOf<F>(features: string -> F, ids: seq<string>): seq<F>
  {
    seq(|ids|, i requires 0 <= i < |ids| => features(ids[i]))
  }

  /** `audio_features`: one request per chunk of the `Track ID` column; the features come
      back in track order whatever the chunk size, and the requests are the chunks. */
  method AudioFeatures<F>(trackIds: seq<string>, features: string -> F, chunkSize: int := 50)
    returns (r: Result<seq<F>, PyError>, requests: seq<seq<string>>)
    ensures Min(chunkSize, MaxChunkSize) == 0 ==> r.Failure? && requests == []
    ensures Min(chunkSize, MaxChunkSize) < 0 ==> r == Success([]) && requests == []
    ensures Min(chunkSize, MaxChunkSize) > 0 ==>
      r == Success(FeaturesOf(features, trackIds)) && requests == Chunks(trackIds, chunkSize).value
  {
    var plan := Chunks(trackIds, chunkSize);
    if plan.Failure? {
      return Failure(plan.error), [];
    }
    var chunks := plan.value;
    var found: seq<F> := [];
    requests := [];
    for i := 0 to |chunks|
      invariant requests == chunks[..i]
      invariant found == FeaturesOf(features, Flatten(chunks[..i]))
    {
      var chunk := chunks[i];
      requests := requests + [chunk];
      var result := FeaturesOf(features, chunk);
      found := found + result;
      assert chunks[..i + 1][..i] == chunks[..i];
      assert Flatten(chunks[..i + 1]) == Flatten(chunks[..i]) + chunk;
      assert FeaturesOf(features, Flatten(chunks[..i]) + chunk)
          == FeaturesOf(features, Flatten(chunks[..i])) + FeaturesOf(features, chunk);
    }
    assert chunks[..|chunks|] == chunks;
    r := Success(found);
  }
}
