/** The user's playlists as the service keeps them: exact-name lookup (`find_playlist`),
    creation guarded by that lookup (`create_playlist`), chunked track addition
    (`user_playlist_add_tracks`) and the two chained (`create_playlist_of_tracks`). */
module Playlists {
  import opened Wrappers
  import opened Python
  import opened Chunking

  datatype Playlist = Playlist(name: string, id: string, tracks: seq<string>)

  /** The requests the code sends to the service, in the order it sends them. */
  datatype Request =
    | ListRequest                                       // `user_playlists(username)`
    | CreateRequest(name: string)                       // `user_playlist_create(username, name, public=False)`
    | AddRequest(playlistId: string, trackIds: seq<string>) // `user_playlist_add_tracks(username, id, chunk)`

  /** The position of the first playlist of the listing called exactly `name`. */
  function FirstNamed(listing: seq<Playlist>, name: string): (r: Option<nat>)
    ensures r.None? <==> forall i :: 0 <= i < |listing| ==> listing[i].name != name
    ensures r.Some? ==>
      r.value < |listing| && listing[r.value].name == name &&
      forall j :: 0 <= j < r.value ==> listing[j].name != name
  {
    if listing == [] then None
    else if listing[0].name == name then Some(0)
    else match FirstNamed(listing[1..], name)
      case None => None
      case Some(i) => Some(i + 1)
  }

  /** `find_playlist`: scans the listing and stops at the first exact name match. */
  method FindPlaylist(listing: seq<Playlist>, playlistName: string) returns (playlistId: Option<string>)
    ensures playlistId.None? <==> FirstNamed(listing, playlistName).None?
    ensures playlistId.Some? ==> playlistId.value == listing[FirstNamed(listing, playlistName).value].id
  {
    playlistId := None;
    for i := 0 to |listing|
      invariant playlistId == None
      invariant forall j :: 0 <= j < i ==> listing[j].name != playlistName
    {
      if listing[i].name == playlistName {
        playlistId := Some(listing[i].id);
        assert FirstNamed(listing, playlistName) == Some(i);
        break;
      }
    }
  }

  /** The listing after `create_playlist(name)`: unchanged when a playlist is already called
      `name`, otherwise one more, empty playlist with the id the service hands out. */
  function AfterCreate(listing: seq<Playlist>, name: string, newId: string): seq<Playlist>
  {
    if FirstNamed(listing, name).Some? then listing else listing + [Playlist(name, newId, [])]
  }

  /** After a creation a playlist called `name` exists, and the playlist found under that
      name before is still the one found; creating again changes nothing. */
  lemma CreateIdempotent(listing: seq<Playlist>, name: string, newId: string, otherId: string)
    ensures FirstNamed(AfterCreate(listing, name, newId), name).Some?
    ensures FirstNamed(listing, name).Some? ==>
      FirstNamed(AfterCreate(listing, name, newId), name) == FirstNamed(listing, name)
    ensures AfterCreate(AfterCreate(listing, name, newId), name, otherId) == AfterCreate(listing, name, newId)
  {
    var after := AfterCreate(listing, name, newId);
    if FirstNamed(listing, name).None? {
      assert after[|listing|].name == name;
    }
  }

  /** The listing after `ids` have been added, in order, to the end of playlist `id`. */
  function AfterAdd(listing: seq<Playlist>, id: string, ids: seq<string>): (after: seq<Playlist>)
    ensures |after| == |listing|
    ensures forall i :: 0 <= i < |listing| ==> after[i].name == listing[i].name && after[i].id == listing[i].id
    ensures DistinctIds(listing) ==> DistinctIds(after)
  {
    seq(|listing|, i requires 0 <= i < |listing| =>
      if listing[i].id == id then listing[i].(tracks := listing[i].tracks + ids) else listing[i])
  }

  /** The add requests for a list of chunks: one per chunk, in order. */
  function AddRequests(id: string, chunks: seq<seq<string>>): seq<Request>
  {
    seq(|chunks|, i requires 0 <= i < |chunks| => AddRequest(id, chunks[i]))
  }

  /** Adding in several requests adds the concatenation of what they carried. */
  lemma AfterAddTwice(listing: seq<Playlist>, id: string, a: seq<string>, b: seq<string>)
    ensures AfterAdd(AfterAdd(listing, id, a), id, b) == AfterAdd(listing, id, a + b)
  {
    var l1, l2 := AfterAdd(AfterAdd(listing, id, a), id, b), AfterAdd(listing, id, a + b);
    forall i | 0 <= i < |listing| ensures l1[i] == l2[i] {
      if listing[i].id == id {
        assert listing[i].tracks + a + b == listing[i].tracks + (a + b);
      }
    }
  }

  lemma AfterAddNothing(listing: seq<Playlist>, id: string)
    ensures AfterAdd(listing, id, []) == listing
  {
    forall i | 0 <= i < |listing| ensures AfterAdd(listing, id, [])[i] == listing[i] {
      assert listing[i].tracks + [] == listing[i].tracks;
    }
  }

  /** One more chunk sent: one more request, and the chunk appended to the playlist. */
  lemma ChunkStep(before: seq<Playlist>, id: string, chunks: seq<seq<string>>, i: nat)
    requires i < |chunks|
    ensures AfterAdd(AfterAdd(before, id, Flatten(chunks[..i])), id, chunks[i])
         == AfterAdd(before, id, Flatten(chunks[..i + 1]))
    ensures AddRequests(id, chunks[..i]) + [AddRequest(id, chunks[i])] == AddRequests(id, chunks[..i + 1])
  {
    assert chunks[..i + 1][..i] == chunks[..i];
    assert Flatten(chunks[..i + 1]) == Flatten(chunks[..i]) + chunks[i];
    AfterAddTwice(before, id, Flatten(chunks[..i]), chunks[i]);
  }

  /** With distinct playlist ids, an add changes at most one playlist. */
  lemma AddTouchesOnePlaylist(listing: seq<Playlist>, id: string, ids: seq<string>)
    requires DistinctIds(listing)
    ensures forall i, j :: 0 <= i < j < |listing| ==>
      AfterAdd(listing, id, ids)[i] == listing[i] || AfterAdd(listing, id, ids)[j] == listing[j]
  {
  }

  predicate DistinctIds(listing: seq<Playlist>)
  {
    forall i, j :: 0 <= i < j < |listing| ==> listing[i].id != listing[j].id
  }

  /** The user's account on the service: their playlists, in listing order, and the
      requests the code has sent. */
  class Account {
    var listing: seq<Playlist>
    var log: seq<Request>

    /** Playlist ids are unique, so an id names one playlist and `AddTracks` fills only
        that one (`AddTouchesOnePlaylist`). */
    ghost predicate Valid()
      reads this
    {
      DistinctIds(listing)
    }

    constructor (playlists: seq<Playlist>)
      requires DistinctIds(playlists)
      ensures Valid() && listing == playlists && log == []
    {
      listing := playlists;
      log := [];
    }

    /** `create_playlist`: one listing request, then a creation request only when no
        playlist is already called `name`. `newId` is the id the service would assign. */
    method CreatePlaylist(name: string, newId: string)
      requires Valid()
      requires forall i :: 0 <= i < |listing| ==> listing[i].id != newId
      modifies this
      ensures Valid()
      ensures listing == AfterCreate(old(listing), name, newId)
      ensures log == old(log) + [ListRequest] +
        (if FirstNamed(old(listing), name).Some? then [] else [CreateRequest(name)])
      ensures FirstNamed(listing, name).Some?
    {
      log := log + [ListRequest];
      var found := FindPlaylist(listing, name);
      if found.None? {
        log := log + [CreateRequest(name)];
        listing := listing + [Playlist(name, newId, [])];
      }
      CreateIdempotent(old(listing), name, newId, newId);
    }

    /** `user_playlist_add_tracks`: one add request per chunk; the playlist ends with the
        tracks of all chunks, that is, the whole list, in order. */
    method AddTracks(playlistId: string, trackList: seq<string>, chunkSize: int := 50)
      returns (r: Result<(), PyError>)
      requires Valid()
      modifies this
      ensures Valid()
      ensures Min(chunkSize, MaxChunkSize) == 0 ==>
        r.Failure? && listing == old(listing) && log == old(log)
      ensures Min(chunkSize, MaxChunkSize) != 0 ==>
        r.Success? && log == old(log) + AddRequests(playlistId, Chunks(trackList, chunkSize).value)
      ensures Min(chunkSize, MaxChunkSize) > 0 ==> listing == AfterAdd(old(listing), playlistId, trackList)
      ensures Min(chunkSize, MaxChunkSize) < 0 ==> listing == old(listing) && log == old(log)
    {
      var plan := Chunks(trackList, chunkSize);
      if plan.Failure? {
        return Failure(plan.error);
      }
      var chunks := plan.value;
      ghost var before, beforeLog := listing, log;
      AfterAddNothing(before, playlistId);
      assert chunks[..0] == [];
      for i := 0 to |chunks|
        invariant DistinctIds(listing)
        invariant log == beforeLog + AddRequests(playlistId, chunks[..i])
        invariant listing == AfterAdd(before, playlistId, Flatten(chunks[..i]))
      {
        var chunk := chunks[i];
        log := log + [AddRequest(playlistId, chunk)];
        listing := AfterAdd(listing, playlistId, chunk);
        ChunkStep(before, playlistId, chunks, i);
      }
      assert chunks[..|chunks|] == chunks;
      if chunks == [] {
        AfterAddNothing(before, playlistId);
      }
      r := Success(());
    }

    /** `create_playlist_of_tracks` for a list of track ids: create the playlist if needed,
        look it up again, and add the tracks in chunks of 50. */
    method CreatePlaylistOfTracks(trackIds: seq<string>, playlistName: string, newId: string)
      requires Valid()
      requires forall i :: 0 <= i < |listing| ==> listing[i].id != newId
      modifies this
      ensures Valid()
      ensures var created := AfterCreate(old(listing), playlistName, newId);
        FirstNamed(created, playlistName).Some? &&
        listing == AfterAdd(created, created[FirstNamed(created, playlistName).value].id, trackIds)
      ensures var created := AfterCreate(old(listing), playlistName, newId);
        log == old(log) + [ListRequest] +
          (if FirstNamed(old(listing), playlistName).Some? then [] else [CreateRequest(playlistName)]) +
          [ListRequest] + AddRequests(created[FirstNamed(created, playlistName).value].id, Chunks(trackIds, 50).value)
    {
      CreatePlaylist(playlistName, newId);
      log := log + [ListRequest];
      var playlistId := FindPlaylist(listing, playlistName);
      var r := AddTracks(playlistId.value, trackIds);
    }
  }
}
