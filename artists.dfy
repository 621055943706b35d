/** `artist_details` (names to artist rows, skipping unknown names) and
    `find_related_artists` (a bounded, optionally shuffled sample of related artists per seed). */
module Artists {
  import opened Wrappers
  import opened Python
  import opened Records
  import opened Service

  /** `artist_details` accepts one name or a list of names. */
  datatype ArtistQuery = OneName(name: string) | NameList(names: seq<string>)

  /** A single string is treated as a one-element list. */
  function QueryNames(q: ArtistQuery): seq<string>
  {
    match q
    case OneName(n) => [n]
    case NameList(ns) => ns
  }

  /** What one name contributes: the first search item, extracted, or nothing. */
  function Found(items: seq<RawArtist>): seq<Record>
    requires items != [] ==> HasImage(items[0])
  {
    if items == [] then [] else [ArtistRow(items[0])]
  }

  /** The rows `artist_details` builds for `names`, in order, skipping names the search
      does not know. */
  function Resolved(search: string -> seq<RawArtist>, names: seq<string>): (rows: seq<Record>)
    requires SearchWellFormed(search)
    ensures |rows| <= |names|
    ensures forall r :: r in rows ==> IsArtistRow(r)
  {
    if names == [] then []
    else Resolved(search, names[..|names| - 1]) + Found(search(names[|names| - 1]))
  }

  /** `artist_details`: one search per name; a name whose search returns no items is skipped. */
  method ArtistDetails(catalog: Catalog, query: ArtistQuery) returns (frame: seq<Record>)
    requires SearchWellFormed(catalog.search)
    ensures frame == Resolved(catalog.search, QueryNames(query))
  {
    var names := QueryNames(query);
    frame := [];
    for i := 0 to |names|
      invariant frame == Resolved(catalog.search, names[..i])
    {
      var items := catalog.search(names[i]);
      if items != [] {
        frame := frame + [ArtistRow(items[0])];
      }
      assert names[..i + 1][..i] == names[..i];
    }
    assert names[..|names|] == names;
  }

  /** Resolution is name by name: resolving two lists one after the other gives the
      concatenation of their rows, in input order. */
  lemma {:induction false} ResolvedAppend(search: string -> seq<RawArtist>, a: seq<string>, b: seq<string>)
    requires SearchWellFormed(search)
    ensures Resolved(search, a + b) == Resolved(search, a) + Resolved(search, b)
    decreases |b|
  {
    if b == [] {
      assert a + b == a;
    } else {
      var b' := b[..|b| - 1];
      assert (a + b)[..|a + b| - 1] == a + b';
      assert (a + b)[|a + b| - 1] == b[|b| - 1];
      ResolvedAppend(search, a, b');
    }
  }

  /** A name the search does not know is skipped: its rows are exactly those of the
      other names. */
  lemma SkipUnresolvable(search: string -> seq<RawArtist>, a: seq<string>, name: string, b: seq<string>)
    requires SearchWellFormed(search)
    requires search(name) == []
    ensures Resolved(search, a + [name] + b) == Resolved(search, a + b)
  {
    ResolvedAppend(search, a + [name], b);
    ResolvedAppend(search, a, [name]);
    ResolvedAppend(search, a, b);
    ResolvedOne(search, name);
  }

  /** A name the search knows contributes exactly the row of its first search item. */
  lemma ResolvedOne(search: string -> seq<RawArtist>, name: string)
    requires SearchWellFormed(search)
    ensures search(name) != [] ==> Resolved(search, [name]) == [ArtistRow(search(name)[0])]
    ensures search(name) == [] ==> Resolved(search, [name]) == []
  {
    assert [name][..0] == [];
  }

  /** One row per name exactly when the search knows every name. */
  lemma {:induction false} ResolvedAll(search: string -> seq<RawArtist>, names: seq<string>)
    requires SearchWellFormed(search)
    ensures |Resolved(search, names)| == |names| <==> forall i :: 0 <= i < |names| ==> search(names[i]) != []
    decreases |names|
  {
    if names != [] {
      var init := names[..|names| - 1];
      ResolvedAll(search, init);
      assert forall i :: 0 <= i < |init| ==> init[i] == names[i];
    }
  }

  /** No row at all exactly when the search knows none of the names. */
  lemma {:induction false} ResolvedNone(search: string -> seq<RawArtist>, names: seq<string>)
    requires SearchWellFormed(search)
    ensures Resolved(search, names) == [] <==> forall i :: 0 <= i < |names| ==> search(names[i]) == []
    decreases |names|
  {
    if names != [] {
      var init := names[..|names| - 1];
      ResolvedNone(search, init);
      assert forall i :: 0 <= i < |init| ==> init[i] == names[i];
    }
  }

  /** The extracted rows of a list of artist payloads. */
  function ArtistRows(items: seq<RawArtist>): (rows: seq<Record>)
    requires forall i :: 0 <= i < |items| ==> HasImage(items[i])
  {
    seq(|items|, i requires 0 <= i < |items| => ArtistRow(items[i]))
  }

  /** `artist_list['Artist ID']`: the id column of a frame of artist rows. */
  function ArtistIds(frame: seq<Record>): (ids: seq<string>)
    requires forall r :: r in frame ==> HasArtistId(r)
  {
    seq(|frame|, i requires 0 <= i < |frame| => ArtistIdOf(frame[i]))
  }

  /** What seed number `call`, with id `id`, contributes: its related artists extracted,
      shuffled when asked, then truncated to `numArtists`. */
  function Sample(related: string -> seq<RawArtist>, id: string, numArtists: int,
                  shuffleArtists: bool, shuffle: Shuffler, call: nat): seq<Record>
    requires RelatedWellFormed(related)
  {
    var rows := ArtistRows(related(id));
    Head(if shuffleArtists then shuffle(call, rows) else rows, numArtists)
  }

  /** The rows `find_related_artists` builds: the samples of the seeds, concatenated in
      seed order; duplicates across seeds are kept. */
  function RelatedOf(related: string -> seq<RawArtist>, ids: seq<string>, numArtists: int,
                     shuffleArtists: bool, shuffle: Shuffler): seq<Record>
    requires RelatedWellFormed(related)
  {
    if ids == [] then []
    else
      RelatedOf(related, ids[..|ids| - 1], numArtists, shuffleArtists, shuffle)
      + Sample(related, ids[|ids| - 1], numArtists, shuffleArtists, shuffle, |ids| - 1)
  }

  /** `find_related_artists`: the seeds' `Artist ID` column is read first, which raises
      `KeyError` on the column-less frame built from no artist at all. */
  method FindRelatedArtists(catalog: Catalog, seeds: seq<Record>, shuffle: Shuffler,
                            numArtists: int := 1, shuffleArtists: bool := true)
    returns (r: Result<seq<Record>, PyError>)
    requires forall row :: row in seeds ==> HasArtistId(row)
    requires RelatedWellFormed(catalog.related)
    ensures seeds == [] ==> r == Failure(KeyError(ArtistIdKey))
    ensures seeds != [] ==> r == Success(RelatedOf(catalog.related, ArtistIds(seeds), numArtists, shuffleArtists, shuffle))
  {
    if seeds == [] {
      return Failure(KeyError(ArtistIdKey));
    }
    var ids := ArtistIds(seeds);
    var relatedArtistIds: seq<Record> := [];
    for i := 0 to |ids|
      invariant relatedArtistIds == RelatedOf(catalog.related, ids[..i], numArtists, shuffleArtists, shuffle)
    {
      var related := catalog.related(ids[i]);
      var randomRelatedArtists := seq(|related|, j requires 0 <= j < |related| => ArtistRow(related[j]));
      if shuffleArtists {
        randomRelatedArtists := shuffle(i, randomRelatedArtists);
      }
      randomRelatedArtists := Head(randomRelatedArtists, numArtists);
      relatedArtistIds := relatedArtistIds + randomRelatedArtists;
      assert ids[..i + 1][..i] == ids[..i];
    }
    assert ids[..|ids|] == ids;
    r := Success(relatedArtistIds);
  }

  /** Each seed contributes `min(len(related), numArtists)` artists, drawn from its own
      related artists; without shuffling they are the first ones, in the service's order. */
  lemma SampleFromRelated(related: string -> seq<RawArtist>, id: string, numArtists: int,
                          shuffleArtists: bool, shuffle: Shuffler, call: nat)
    requires RelatedWellFormed(related)
    requires IsPermuting(shuffle)
    ensures numArtists >= 0 ==>
      |Sample(related, id, numArtists, shuffleArtists, shuffle, call)| == Min(|related(id)|, numArtists)
    ensures multiset(Sample(related, id, numArtists, shuffleArtists, shuffle, call))
      <= multiset(ArtistRows(related(id)))
    ensures !shuffleArtists ==> Sample(related, id, numArtists, shuffleArtists, shuffle, call) <= ArtistRows(related(id))
  {
    var rows := ArtistRows(related(id));
    var ordered := if shuffleArtists then shuffle(call, rows) else rows;
    assert multiset(ordered) == multiset(rows);
    assert |ordered| == |rows| by {
      assert |multiset(ordered)| == |ordered| && |multiset(rows)| == |rows|;
    }
    var s := Head(ordered, numArtists);
    assert ordered == s + ordered[|s|..];
    assert multiset(ordered) == multiset(s) + multiset(ordered[|s|..]);
  }

  /** Every related artist row is an extracted artist row, so it can be asked about in turn. */
  lemma {:induction false} RelatedAreArtistRows(related: string -> seq<RawArtist>, ids: seq<string>,
                                                numArtists: int, shuffleArtists: bool, shuffle: Shuffler)
    requires RelatedWellFormed(related)
    requires IsPermuting(shuffle)
    ensures forall r :: r in RelatedOf(related, ids, numArtists, shuffleArtists, shuffle) ==> IsArtistRow(r)
    decreases |ids|
  {
    if ids != [] {
      var last := |ids| - 1;
      RelatedAreArtistRows(related, ids[..last], numArtists, shuffleArtists, shuffle);
      SampleFromRelated(related, ids[last], numArtists, shuffleArtists, shuffle, last);
      var s := Sample(related, ids[last], numArtists, shuffleArtists, shuffle, last);
      forall r | r in s ensures IsArtistRow(r) {
        assert r in multiset(s);
        assert r in multiset(ArtistRows(related(ids[last])));
        var j :| 0 <= j < |related(ids[last])| && ArtistRows(related(ids[last]))[j] == r;
        ArtistRowIsArtistRow(related(ids[last])[j]);
      }
    }
  }

  /** Bounded fan-out: never more than `numArtists` related artists per seed. */
  lemma {:induction false} RelatedBound(related: string -> seq<RawArtist>, ids: seq<string>,
                                        numArtists: int, shuffleArtists: bool, shuffle: Shuffler)
    requires RelatedWellFormed(related)
    requires numArtists >= 0
    ensures |RelatedOf(related, ids, numArtists, shuffleArtists, shuffle)| <= numArtists * |ids|
    decreases |ids|
  {
    if ids != [] {
      RelatedBound(related, ids[..|ids| - 1], numArtists, shuffleArtists, shuffle);
      assert numArtists * (|ids| - 1) + numArtists == numArtists * |ids|;
    }
  }
}
