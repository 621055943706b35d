/** `drop_duplicates(subset='Track ID')`: a stable de-duplication that keeps the first
    row of every `Track ID` and the relative order of the rows it keeps. */
module Dedup {
  import opened Wrappers
  import opened Records

  /** The `Track ID` cell of a row; `None` for a row without one (pandas holds NaN there,
      and counts NaNs as equal to each other). */
  function TrackKey(r: Record): Option<Value>
  {
    if TrackIdKey in r then Some(r[TrackIdKey]) else None
  }

  /** The track ids present in a list of rows. */
  function Keys(rows: seq<Record>): set<Option<Value>>
  {
    if rows == [] then {} else Keys(rows[..|rows| - 1]) + {TrackKey(rows[|rows| - 1])}
  }

  /** No two rows share a `Track ID`. */
  predicate UniqueKeys(rows: seq<Record>)
  {
    forall i, j :: 0 <= i < j < |rows| ==> TrackKey(rows[i]) != TrackKey(rows[j])
  }

  /** Row `i` is the first row with its `Track ID`. */
  ghost predicate IsFirstOccurrence(rows: seq<Record>, i: int)
  {
    0 <= i < |rows| && forall j :: 0 <= j < i ==> TrackKey(rows[j]) != TrackKey(rows[i])
  }

  lemma {:induction false} KeysMembership(rows: seq<Record>, k: Option<Value>)
    ensures k in Keys(rows) <==> exists i :: 0 <= i < |rows| && TrackKey(rows[i]) == k
    decreases |rows|
  {
    if rows != [] {
      var init := rows[..|rows| - 1];
      KeysMembership(init, k);
      if k in Keys(init) {
        var i :| 0 <= i < |init| && TrackKey(init[i]) == k;
        assert rows[i] == init[i];
      }
      if exists i :: 0 <= i < |rows| && TrackKey(rows[i]) == k {
        var i :| 0 <= i < |rows| && TrackKey(rows[i]) == k;
        if i < |init| {
          assert init[i] == rows[i];
        }
      }
    }
  }

  lemma KeysSnoc(rows: seq<Record>, r: Record)
    ensures Keys(rows + [r]) == Keys(rows) + {TrackKey(r)}
  {
    assert (rows + [r])[..|rows|] == rows;
  }

  /** The kept rows: a row is kept when no earlier row has its `Track ID`. */
  function DropDuplicates(rows: seq<Record>): (kept: seq<Record>)
    ensures |kept| <= |rows|
    ensures forall r :: r in kept ==> r in rows
    ensures Keys(kept) == Keys(rows)
    ensures UniqueKeys(kept)
  {
    if rows == [] then []
    else
      var init := rows[..|rows| - 1];
      var last := rows[|rows| - 1];
      var k := DropDuplicates(init);
      if TrackKey(last) in Keys(init) then k
      else
        KeysSnoc(k, last);
        KeptKeysDiffer(k, last);
        k + [last]
  }

  lemma KeptKeysDiffer(k: seq<Record>, last: Record)
    requires UniqueKeys(k) && TrackKey(last) !in Keys(k)
    ensures UniqueKeys(k + [last])
  {
    forall i | 0 <= i < |k| ensures TrackKey(k[i]) != TrackKey(last) {
      KeysMembership(k, TrackKey(k[i]));
    }
  }

  /** The positions of the rows `DropDuplicates` keeps, in increasing order. */
  ghost function KeptIndices(rows: seq<Record>): seq<int>
  {
    if rows == [] then []
    else
      var init := rows[..|rows| - 1];
      KeptIndices(init) + if TrackKey(rows[|rows| - 1]) in Keys(init) then [] else [|rows| - 1]
  }

  /** The kept rows are the rows at the kept positions, which increase: the relative
      order of the kept rows is the input order. */
  lemma {:induction false} KeptInOrder(rows: seq<Record>)
    ensures |KeptIndices(rows)| == |DropDuplicates(rows)|
    ensures forall j :: 0 <= j < |KeptIndices(rows)| ==>
      0 <= KeptIndices(rows)[j] < |rows| && DropDuplicates(rows)[j] == rows[KeptIndices(rows)[j]]
    ensures forall j1, j2 :: 0 <= j1 < j2 < |KeptIndices(rows)| ==> KeptIndices(rows)[j1] < KeptIndices(rows)[j2]
    decreases |rows|
  {
    if rows != [] {
      var n := |rows| - 1;
      var init := rows[..n];
      KeptInOrder(init);
      var idx, kept := KeptIndices(init), DropDuplicates(init);
      assert forall j :: 0 <= j < |idx| ==> rows[idx[j]] == init[idx[j]];
      if TrackKey(rows[n]) !in Keys(init) {
        assert KeptIndices(rows) == idx + [n];
        assert DropDuplicates(rows) == kept + [rows[n]];
      }
    }
  }

  /** Keep-first: a position is kept exactly when it is the first occurrence of its `Track ID`. */
  lemma {:induction false} KeepsFirstOccurrences(rows: seq<Record>)
    ensures forall i :: 0 <= i < |rows| ==> (i in KeptIndices(rows) <==> IsFirstOccurrence(rows, i))
    decreases |rows|
  {
    if rows != [] {
      var n := |rows| - 1;
      var init := rows[..n];
      KeepsFirstOccurrences(init);
      var extra := if TrackKey(rows[n]) in Keys(init) then [] else [n];
      assert KeptIndices(rows) == KeptIndices(init) + extra;
      forall i | 0 <= i < |rows| ensures i in KeptIndices(rows) <==> IsFirstOccurrence(rows, i) {
        if i < n {
          FirstOccurrenceInPrefix(rows, n, i);
        } else {
          KeptIndicesBelow(init);
          LastFirstOccurrence(rows);
        }
      }
    }
  }

  lemma KeptIndicesBelow(rows: seq<Record>)
    ensures |rows| !in KeptIndices(rows)
  {
    KeptInOrder(rows);
  }

  /** Being a first occurrence depends only on the rows up to that position. */
  lemma FirstOccurrenceInPrefix(rows: seq<Record>, n: nat, i: int)
    requires 0 <= i < n <= |rows|
    ensures IsFirstOccurrence(rows[..n], i) <==> IsFirstOccurrence(rows, i)
  {
    assert forall j :: 0 <= j <= i ==> rows[..n][j] == rows[j];
  }

  /** The last row is a first occurrence exactly when its id is new. */
  lemma LastFirstOccurrence(rows: seq<Record>)
    requires rows != []
    ensures IsFirstOccurrence(rows, |rows| - 1) <==> TrackKey(rows[|rows| - 1]) !in Keys(rows[..|rows| - 1])
  {
    var n := |rows| - 1;
    KeysMembership(rows[..n], TrackKey(rows[n]));
    assert forall j :: 0 <= j < n ==> rows[..n][j] == rows[j];
  }

  /** De-duplicating changes nothing exactly when the ids are already unique. */
  lemma {:induction false} DropDuplicatesUnchanged(rows: seq<Record>)
    ensures DropDuplicates(rows) == rows <==> UniqueKeys(rows)
    decreases |rows|
  {
    if rows != [] && UniqueKeys(rows) {
      var n := |rows| - 1;
      var init := rows[..n];
      assert UniqueKeys(init) by {
        assert forall i :: 0 <= i < n ==> init[i] == rows[i];
      }
      DropDuplicatesUnchanged(init);
      KeysMembership(init, TrackKey(rows[n]));
      assert init + [rows[n]] == rows;
    }
  }

  /** De-duplicating twice is de-duplicating once. */
  lemma DropDuplicatesIdempotent(rows: seq<Record>)
    ensures DropDuplicates(DropDuplicates(rows)) == DropDuplicates(rows)
  {
    DropDuplicatesUnchanged(DropDuplicates(rows));
  }
}
