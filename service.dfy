/** The music-streaming service, seen only through its answers. Every request the
    playlist code makes is a function of its arguments here; the client, its
    credentials and the network are not modelled. */
module Service {
  import opened Records

  /** The service's answers to the read requests the pipeline issues. */
  datatype Catalog = Catalog(
    search: string -> seq<RawArtist>,     // `search(name, type='artist', limit=1)`: the result's items
    related: string -> seq<RawArtist>,    // `artist_related_artists(id)`: the related artists
    topTracks: string -> seq<RawTrack>)   // `artist_top_tracks(id)`: the tracks, in the service's order

  /** `random.shuffle` as a function of the call: `shuffle(i, rows)` is the order the
      shuffle of seed number `i` leaves `rows` in. */
  type Shuffler = (nat, seq<Record>) -> seq<Record>

  /** What `random.shuffle` guarantees: every call returns a permutation of its list. */
  ghost predicate IsPermuting(shuffle: Shuffler)
  {
    forall i, rows :: multiset(shuffle(i, rows)) == multiset(rows)
  }

  /** The first item of every artist search carries an image, as the extractor needs. */
  ghost predicate SearchWellFormed(search: string -> seq<RawArtist>)
  {
    forall q :: search(q) != [] ==> HasImage(search(q)[0])
  }

  /** Every related artist carries an image, as the extractor needs. */
  ghost predicate RelatedWellFormed(related: string -> seq<RawArtist>)
  {
    forall id, i :: 0 <= i < |related(id)| ==> HasImage(related(id)[i])
  }
}
