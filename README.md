# playlist-thy-maker: the list logic of `PlaylistMaker`, modelled in Dafny

`PlaylistMaker` (main.py) builds playlists from seed artists through a music-streaming
web API. Names are resolved to artist records (`artist_details`). Each seed gets a bounded,
shuffled sample of its related artists (`find_related_artists`). Those artists' top tracks
are collected and tagged with the artist's fields (`find_top_tracks`, `expand_dicts_in_list`),
and the result is de-duplicated by `Track ID` (`create_track_list_of_related_artists`).
Playlists are looked up by exact name (`find_playlist`), created only when missing
(`create_playlist`) and filled in chunks of at most 100 tracks (`user_playlist_add_tracks`).
Audio features are fetched in the same chunks (`audio_features`).

The model keeps what the code does with the service's answers. The service is a
`Service.Catalog` value: one function per read request (artist search, related artists,
top tracks), plus a per-id feature function for `audio_features`. `random.shuffle` is a
`Service.Shuffler`: a function of the call number and the list, required to permute
(`Service.IsPermuting`). Dicts and DataFrame rows are `Records.Record`, a
`map<string, Value>`. `d.copy(); d.update(e)` is map union (`Records.Overlay`). The user's
playlists live in the class `Playlists.Account`: a listing that its methods update and a
log of the requests they send. The methods keep the source's default arguments
(`chunk_size=50`, `num_artists=1`, `shuffle_artists=True`, `num_tracks=5`,
`include_seed_artists=True`, `num_top_tracks_per_artist=5`, `num_related_artists=8`).

Python semantics the model writes out:
- `s[:min(len(s), k)]` with a negative `k` counts from the end (`Python.Head`).
- `range(0, n, 0)` raises `ValueError`, so a chunk size of 0 fails before any request.
- A negative chunk size gives an empty `range`: no request is sent and nothing is added.
- `pd.DataFrame([])['Artist ID']` raises `KeyError`. So the pipeline fails when no seed
  name is known (`Artists.FindRelatedArtists`, `Pipeline.TrackListOf`).

Where the documentation and the code disagree, the model follows the code:
- `related_artists.append(artists)` (main.py:256) returns a new DataFrame, and the code
  drops it. The seed artists are therefore never added, although the docstring says
  `include_seed_artists` (default `True`) adds them. `Pipeline.TracksFromRelatedArtists`
  proves that every track in the list is a top track of a sampled related artist, tagged
  with that artist's row. A seed's own tracks appear only when the seed is itself among the
  related artists sampled for some seed.
- The call at main.py:254 passes `num_related_artists` positionally, so `shuffle_artists`
  stays `True`: the pipeline always shuffles.
- So a list built from 2 names, 2 related artists each and 3 tracks each has at most
  2 × 2 × 3 rows (`Pipeline.TrackListBound` bounds the de-duplicated list), not
  (2 + 2 × 2) × 3.
- An empty resolution is not an empty result. It raises `KeyError`.

## Model

| member | source | states |
|---|---|---|
| Records.Overlay | main.py:50-51 | the copy has the keys of both dicts; keys of the added dict take its values; other keys keep the original's |
| Records.ExpandDictsInList | main.py:47-53 | same length and order as the input; element i is input i overlaid with `dict_to_add` |
| Records.ArtistRowIsArtistRow | main.py:55-61 | the artist extractor yields exactly the six artist fields, with the catalogue id under `Artist ID` |
| Records.TaggedTrackRow | main.py:63-66 | a track row tagged with a row lacking `Track ID` keeps the track's `Track ID` and every field of the tag row |
| Python.Head | main.py:179 | `s[:min(len(s), k)]` is a prefix of `s` of length `min(len, k)` for `k >= 0`, `max(0, len + k)` for negative `k` |
| Chunking.SplitFlatten | main.py:220 | the chunks, concatenated, equal the input list |
| Chunking.SplitShape | main.py:220 | every chunk but the last has exactly the chunk size; every chunk has 1 to size items |
| Chunking.SplitCount | main.py:220 | one chunk per start in `range(0, len, size)`: `(count-1)*size < len <= count*size` |
| Chunking.SplitAt | main.py:220 | chunk i is the slice `xs[i*size : i*size+size]` of the comprehension, and `i*size < len` |
| Chunking.Chunks | main.py:219-220 | size is `min(chunk_size, 100)`; size 0 raises `ValueError`; a negative size gives no chunk; otherwise chunks of 1..size items concatenating to the list |
| Chunking.HundredThirtyInFifties | main.py:219-222 | 130 ids with chunk size 50 give exactly three requests, of 50, 50 and 30 ids |
| Tracks.AudioFeatures | main.py:147-154 | chunk size 0 raises with no request; a negative chunk size sends no request and gives no features; a positive one sends one request per chunk, and the features come back one per track id, in track order |
| Artists.Resolved | main.py:161-168 | at most one row per name, and every row is an extracted artist row |
| Artists.ArtistDetails | main.py:156-169 | one search per name (a single string counts as a one-name list), giving the rows of `Resolved` |
| Artists.ResolvedAppend | main.py:162-167 | resolution is name by name: the rows of `a + b` are the rows of `a` followed by those of `b` |
| Artists.SkipUnresolvable | main.py:164-167 | a name whose search returns no items is skipped, and the other names' rows are all present |
| Artists.ResolvedOne | main.py:163-165 | a known name contributes exactly the row of its first search item; an unknown one contributes nothing |
| Artists.ResolvedAll | main.py:162-167 | one row per name exactly when every name is known |
| Artists.ResolvedNone | main.py:162-167 | no row at all exactly when no name is known |
| Artists.FindRelatedArtists | main.py:171-183 | `KeyError` on an empty seed frame; otherwise the seeds' samples concatenated in seed order, duplicates kept |
| Artists.SampleFromRelated | main.py:175-179 | a seed contributes `min(len(related), num_artists)` artists drawn from its own related list; unshuffled, they are its first ones |
| Artists.RelatedAreArtistRows | main.py:174-180 | every related-artist row is an extracted artist row |
| Artists.RelatedBound | main.py:174-180 | never more than `num_artists` related artists per seed |
| Tracks.FindTopTracks | main.py:185-194 | per artist row: fetch, extract, tag with the row, truncate; concatenated in artist order |
| Tracks.ContributionAt | main.py:189-192 | an artist contributes `min(len(tracks), num_tracks)` rows; row j is its j-th top track tagged with its row |
| Tracks.TopTracksBound | main.py:188-193 | never more than `num_tracks` tracks per artist |
| Tracks.TopTracksProvenance | main.py:188-193 | every row is a top track of one of the artists, tagged with that artist's row |
| Tracks.TopTracksHaveTrackIds | main.py:190-191 | when the artist rows lack `Track ID`, every collected row carries its track's `Track ID` |
| Dedup.DropDuplicates | main.py:259 | no more rows than the input; only input rows; the same set of track ids; no two rows share a track id |
| Dedup.KeptInOrder | main.py:259 | the kept rows are the input rows at strictly increasing positions |
| Dedup.KeepsFirstOccurrences | main.py:259 | a position is kept exactly when it is the first occurrence of its `Track ID` |
| Dedup.DropDuplicatesUnchanged | main.py:259 | de-duplication leaves a list unchanged exactly when its track ids are already unique |
| Dedup.DropDuplicatesIdempotent | main.py:259 | de-duplicating twice equals de-duplicating once |
| Pipeline.CreateTrackListOfRelatedArtists | main.py:234-260 | resolve, shuffled related artists, top tracks, de-duplicate; `include_seed_artists` has no effect |
| Pipeline.TrackListUnique | main.py:251-260 | fails exactly when no name is known; otherwise every track has a `Track ID` and no two share one |
| Pipeline.TrackListBound | main.py:253-259 | at most `len(names) * num_related_artists * num_top_tracks_per_artist` tracks |
| Pipeline.SampledArtists | main.py:253-254 | the related artists sampled for the resolved names, always shuffled, are all extracted artist rows |
| Pipeline.TracksFromRelatedArtists | main.py:254-258 | every track in the list is a top track of a sampled related artist, tagged with that artist's row; the dropped `append` adds no seed |
| Playlists.FirstNamed | main.py:204-210 | the position of the first playlist named exactly `name`; none exactly when no playlist has that name |
| Playlists.FindPlaylist | main.py:196-210 | the id of the first exact-name match, later duplicates ignored; `None` when there is none |
| Playlists.CreateIdempotent | main.py:29-32 | after creation the name exists; a playlist found before is still the one found; creating again changes nothing |
| Playlists.AfterAddTwice | main.py:221-222 | adding two chunks one after the other adds their concatenation |
| Playlists.AddTouchesOnePlaylist | main.py:221-222 | with distinct playlist ids, adding to an id changes at most one playlist |
| Playlists.Account.CreatePlaylist | main.py:29-32 | one listing request, then a creation request only when the name is missing; afterwards the name exists |
| Playlists.Account.AddTracks | main.py:212-222 | one add request per chunk, in order; the playlist ends with the whole track list appended; size 0 raises before any request |
| Playlists.Account.CreatePlaylistOfTracks | main.py:262-278 | the playlist called `playlist_name`, created if missing, ends with the track ids appended; the requests sent are a listing, a creation only when the name was missing, a second listing, then one add per chunk of 50 ids |

## Left out

- The service client, credentials and token (main.py:1-27) are left out. Every `self.spotify` call is a function of the catalogue, or a request in the account's log.
- Network, authentication and rate-limit failures of the service are not modelled. Neither is the service rejecting an unknown playlist id: the model's `AddTracks` then leaves the listing as it was.
- File input and output (`get_artist_names_from`, `playlist_from_file_of_tracks`, the `to_csv` exports) are left out. `create_track_list_of_related_artists` is modelled for a list of names, not for a file name.
- The `print` messages (main.py:27, main.py:167) are left out.
- `audio_feature_extractor` (main.py:74-86) is left out: its values are floats, and `Duration` is a float division. A track's features are an opaque value of the model's per-id feature function.
- `add_audio_features` (pandas `concat`), `get_artist_tracks` (`dicttoolz.merge`), `track_details`, `track_details_from_playlist`, `artist_name_from_id` and `track_extractor_plus` are left out. They only chain service calls and library functions.
- `track_from_pl_extractor` and the `get_recommendations` stub are left out, as is the `__main__` block, whose assertions need the live service.
- `random.shuffle` is a `Shuffler` argument: each call's outcome is any permutation, not a random one.
- Payloads lacking a field or an image are excluded by preconditions, not modelled as the `KeyError` or `IndexError` the extractors raise. `Service.SearchWellFormed` and `Service.RelatedWellFormed` ask this of every answer, not only of the ones the code reads.
- `FindPlaylist` and `Account.CreatePlaylist` read the whole listing. The client's `user_playlists` returns only its first page (50 playlists), so with more playlists the real lookup can miss a name and create a duplicate.
- `DataFrame.append` is modelled as pandas before 2.0 has it, returning a new frame. pandas 2.0 removed it, and there `include_seed_artists=True` raises `AttributeError`.
- `drop_duplicates` on the column-less empty frame is modelled as giving an empty list. Whether it raises depends on the pandas version.
- `artist_details` asserts that its argument is a string or a list (main.py:160), raising `AssertionError` otherwise. `Artists.ArtistQuery` admits only those two forms, so that error is not modelled.
- `create_playlist_of_tracks` is modelled for a list of track ids. A DataFrame argument gives the same list through its `Track ID` column. Any other argument raises `NameError`, which is not modelled.
- Artists.SampleFromRelated: states only that a shuffled sample is drawn from the fetched list (a sub-multiset of it) of the right size. That it is a prefix of a permutation is the definition of `Artists.Sample`.
