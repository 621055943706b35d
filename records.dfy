/** Dict-shaped records: what the extractors build from service payloads,
    what DataFrame rows hold, and how `expand_dicts_in_list` merges them. */
module Records {

  /** A cell of a record: the extractors store strings, integers and lists of strings. */
  datatype Value = Text(text: string) | Number(number: int) | Texts(texts: seq<string>)

  /** A Python dict with string keys; also one row of a DataFrame. */
  type Record = map<string, Value>

  const ArtistNameKey: string := "Artist Name"
  const ArtistIdKey: string := "Artist ID"
  const ArtistPopularityKey: string := "Artist Popularity"
  const ArtistFollowersKey: string := "Artist Followers"
  const ArtistGenresKey: string := "Artist Genres"
  const ArtistImageKey: string := "Artist Image"
  const TrackNameKey: string := "Track Name"
  const TrackIdKey: string := "Track ID"
  const TrackPopularityKey: string := "Track Popularity"

  const ArtistFields: set<string> :=
    {ArtistNameKey, ArtistIdKey, ArtistPopularityKey, ArtistFollowersKey, ArtistGenresKey, ArtistImageKey}
  const TrackFields: set<string> := {TrackNameKey, TrackIdKey, TrackPopularityKey}

  /** The fields of an artist object of the service that the artist extractor reads. */
  datatype RawArtist = RawArtist(
    name: string,
    id: string,
    popularity: int,
    followers: int,        // `followers.total`
    genres: seq<string>,
    imageUrls: seq<string>) // the `url` of each entry of `images`, in order

  /** The fields of a track object of the service that the track extractor reads. */
  datatype RawTrack = RawTrack(name: string, id: string, popularity: int)

  /** The artist extractor reads `images[0]`; a payload without an image would raise. */
  predicate HasImage(o: RawArtist) { |o.imageUrls| > 0 }

  /** `artist_extractor`: one row with the six artist fields. */
  function ArtistRow(o: RawArtist): Record
    requires HasImage(o)
  {
    map[ArtistNameKey := Text(o.name),
        ArtistIdKey := Text(o.id),
        ArtistPopularityKey := Number(o.popularity),
        ArtistFollowersKey := Number(o.followers),
        ArtistGenresKey := Texts(o.genres),
        ArtistImageKey := Text(o.imageUrls[0])]
  }

  /** `track_extractor`: one row with the three track fields. */
  function TrackRow(o: RawTrack): Record
  {
    map[TrackNameKey := Text(o.name),
        TrackIdKey := Text(o.id),
        TrackPopularityKey := Number(o.popularity)]
  }

  /** A row whose `Artist ID` cell holds a catalogue id, so the service can be asked about it. */
  predicate HasArtistId(r: Record) { ArtistIdKey in r && r[ArtistIdKey].Text? }

  function ArtistIdOf(r: Record): string
    requires HasArtistId(r)
  {
    r[ArtistIdKey].text
  }

  /** A row exactly as the artist extractor builds it: the six artist fields and nothing else. */
  predicate IsArtistRow(r: Record) { r.Keys == ArtistFields && HasArtistId(r) }

  /** `c = d.copy(); c.update(add)`: a new dict in which the keys of `add` win. */
  function Overlay(d: Record, add: Record): (c: Record)
    ensures c.Keys == d.Keys + add.Keys
    ensures forall k :: k in add ==> c[k] == add[k]
    ensures forall k :: k in d && k !in add ==> c[k] == d[k]
  {
    d + add
  }

  /** The artist extractor builds exactly the artist fields, with the catalogue id under `Artist ID`. */
  lemma ArtistRowIsArtistRow(o: RawArtist)
    requires HasImage(o)
    ensures IsArtistRow(ArtistRow(o)) && ArtistIdOf(ArtistRow(o)) == o.id
  {
  }

  /** Tagging a track row with a row that has no `Track ID` of its own keeps every field
      of both, the track's `Track ID` included (artist rows have no such field). */
  lemma TaggedTrackRow(t: RawTrack, artist: Record)
    requires TrackIdKey !in artist
    ensures Overlay(TrackRow(t), artist).Keys == TrackFields + artist.Keys
    ensures Overlay(TrackRow(t), artist)[TrackIdKey] == Text(t.id)
    ensures forall k :: k in artist ==> Overlay(TrackRow(t), artist)[k] == artist[k]
  {
  }

  /** `expand_dicts_in_list`: a copy of every dict of the list, overlaid with `dictToAdd`;
      the input dicts are values and stay as they were. */
  method ExpandDictsInList(ds: seq<Record>, dictToAdd: Record) returns (out: seq<Record>)
    ensures |out| == |ds|
    ensures forall i :: 0 <= i < |ds| ==> out[i] == Overlay(ds[i], dictToAdd)
  {
    out := [];
    for i := 0 to |ds|
      invariant |out| == i
      invariant forall j :: 0 <= j < i ==> out[j] == Overlay(ds[j], dictToAdd)
    {
      var c := ds[i];
      c := Overlay(c, dictToAdd);
      out := out + [c];
    }
  }
}
