/** Splitting a list into the slices of at most `chunk_size` items that are sent
    one request at a time (`user_playlist_add_tracks`, `audio_features`). */
module Chunking {
  import opened Wrappers
  import opened Python

  /** The service accepts at most this many items per bulk request. */
  const MaxChunkSize: int := 100

  /** Consecutive slices of `size` items, the last one possibly shorter. */
  function Split<T>(xs: seq<T>, size: nat): seq<seq<T>>
    requires size > 0
    decreases |xs|
  {
    if xs == [] then []
    else
      var m := Min(size, |xs|);
      [xs[..m]] + Split(xs[m..], size)
  }

  /** The concatenation of a list of lists, in order. */
  function Flatten<T>(xss: seq<seq<T>>): seq<T>
  {
    if xss == [] then [] else Flatten(xss[..|xss| - 1]) + xss[|xss| - 1]
  }

  lemma {:induction false} FlattenAppend<T>(a: seq<seq<T>>, b: seq<seq<T>>)
    ensures Flatten(a + b) == Flatten(a) + Flatten(b)
    decreases |b|
  {
    if b == [] {
      assert a + b == a;
    } else {
      var b' := b[..|b| - 1];
      assert (a + b)[..|a + b| - 1] == a + b';
      FlattenAppend(a, b');
    }
  }

  lemma FlattenOne<T>(c: seq<T>)
    ensures Flatten([c]) == c
  {
    assert [c][..0] == [];
  }

  /** Concatenating the chunks gives back the list: nothing is lost, repeated or reordered. */
  lemma {:induction false} SplitFlatten<T>(xs: seq<T>, size: nat)
    requires size > 0
    ensures Flatten(Split(xs, size)) == xs
    decreases |xs|
  {
    if xs != [] {
      var m := Min(size, |xs|);
      var head, tail := xs[..m], xs[m..];
      var rest := Split(tail, size);
      assert Split(xs, size) == [head] + rest;
      SplitFlatten(tail, size);
      FlattenAppend([head], rest);
      FlattenOne(head);
      assert head + tail == xs;
    }
  }

  /** Every chunk but the last holds exactly `size` items; the last holds 1 to `size`. */
  lemma {:induction false} SplitShape<T>(xs: seq<T>, size: nat)
    requires size > 0
    ensures forall i :: 0 <= i < |Split(xs, size)| - 1 ==> |Split(xs, size)[i]| == size
    ensures forall c :: c in Split(xs, size) ==> 0 < |c| <= size
    decreases |xs|
  {
    if xs != [] {
      var m := Min(size, |xs|);
      SplitShape(xs[m..], size);
      var rest := Split(xs[m..], size);
      assert Split(xs, size) == [xs[..m]] + rest;
      if rest != [] {
        assert m == size;
      }
    }
  }

  /** There is one chunk per start `x` in `range(0, len(xs), size)`:
      `(count - 1) * size < len(xs) <= count * size`. */
  lemma {:induction false} SplitCount<T>(xs: seq<T>, size: nat)
    requires size > 0
    ensures |Split(xs, size)| * size >= |xs|
    ensures (|Split(xs, size)| - 1) * size < |xs|
    decreases |xs|
  {
    if xs != [] {
      var m := Min(size, |xs|);
      var rest := Split(xs[m..], size);
      SplitCount(xs[m..], size);
      assert |Split(xs, size)| == |rest| + 1;
      MulSucc(|rest|, size);
      if rest != [] {
        MulSucc(|rest| - 1, size);
      }
    }
  }

  lemma MulSucc(a: int, b: int)
    ensures (a + 1) * b == a * b + b
  {
  }

  /** The `i`-th value of `range(0, n, size)`. */
  function RangeStart(i: nat, size: nat): nat
  {
    if i == 0 then 0 else RangeStart(i - 1, size) + size
  }

  lemma {:induction false} RangeStartIsProduct(i: nat, size: nat)
    ensures RangeStart(i, size) == i * size
  {
    if i > 0 {
      RangeStartIsProduct(i - 1, size);
      MulSucc(i - 1, size);
    }
  }

  /** Chunk `i` is the slice `xs[x:x + size]` for the `i`-th start `x == i * size`
      of `range(0, len(xs), size)`. */
  lemma SplitAt<T>(xs: seq<T>, size: nat, i: nat)
    requires size > 0 && i < |Split(xs, size)|
    ensures i * size < |xs|
    ensures Split(xs, size)[i] == xs[i * size .. Min(i * size + size, |xs|)]
  {
    SplitAtStart(xs, size, i);
    RangeStartIsProduct(i, size);
  }

  lemma {:induction false} SplitAtStart<T>(xs: seq<T>, size: nat, i: nat)
    requires size > 0 && i < |Split(xs, size)|
    ensures RangeStart(i, size) < |xs|
    ensures Split(xs, size)[i] == xs[RangeStart(i, size) .. Min(RangeStart(i, size) + size, |xs|)]
    decreases |xs|
  {
    var m := Min(size, |xs|);
    var rest := Split(xs[m..], size);
    assert Split(xs, size) == [xs[..m]] + rest;
    if i > 0 {
      assert rest != [];
      assert m == size;
      ShiftedChunk(xs, size, i - 1);
    }
  }

  /** Chunk `i + 1` of `xs` is chunk `i` of `xs[size..]`, moved `size` items along. */
  lemma ShiftedChunk<T>(xs: seq<T>, size: nat, i: nat)
    requires 0 < size < |xs| && i < |Split(xs[size..], size)|
    ensures RangeStart(i + 1, size) < |xs|
    ensures Split(xs[size..], size)[i] == xs[RangeStart(i + 1, size) .. Min(RangeStart(i + 1, size) + size, |xs|)]
    decreases |xs|, 0
  {
    var tail := xs[size..];
    SplitAtStart(tail, size, i);
    var start := RangeStart(i, size);
    var end := Min(start + size, |tail|);
    assert RangeStart(i + 1, size) == size + start;
    assert Min(size + start + size, |xs|) == size + end;
    SliceOfTail(xs, size, start, end);
  }

  lemma SliceOfTail<T>(xs: seq<T>, k: nat, a: nat, b: nat)
    requires k <= |xs| && a <= b <= |xs| - k
    ensures xs[k..][a..b] == xs[k + a .. k + b]
  {
  }

  /** The slices `chunk_size = min(chunk_size, 100)` and
      `[xs[x:x + chunk_size] for x in range(0, len(xs), chunk_size)]` produce:
      `range` with a step of 0 raises, a negative step gives no chunk at all. */
  function Chunks<T>(xs: seq<T>, chunkSize: int): (r: Result<seq<seq<T>>, PyError>)
    ensures r.Failure? <==> Min(chunkSize, MaxChunkSize) == 0
    ensures Min(chunkSize, MaxChunkSize) < 0 ==> r == Success([])
    ensures Min(chunkSize, MaxChunkSize) > 0 ==>
      r.Success? && Flatten(r.value) == xs &&
      forall c :: c in r.value ==> 0 < |c| <= Min(chunkSize, MaxChunkSize)
  {
    var size := Min(chunkSize, MaxChunkSize);
    if size == 0 then Failure(ValueError("range() arg 3 must not be zero"))
    else if size < 0 then Success([])
    else
      SplitFlatten(xs, size);
      SplitShape(xs, size);
      Success(Split(xs, size))
  }

  /** 130 items in chunks of 50 take three requests, of 50, 50 and 30 items. */
  lemma HundredThirtyInFifties<T>(xs: seq<T>)
    requires |xs| == 130
    ensures Chunks(xs, 50).Success?
    ensures var c := Chunks(xs, 50).value; |c| == 3 && |c[0]| == 50 && |c[1]| == 50 && |c[2]| == 30
  {
    var c := Split(xs, 50);
    SplitCount(xs, 50);
    assert |c| == 3;
    SplitAt(xs, 50, 0);
    SplitAt(xs, 50, 1);
    SplitAt(xs, 50, 2);
  }
}
