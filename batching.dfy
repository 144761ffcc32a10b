/**
 * The id slices `search_youtube_videos` sends: `ids[i:i+50]` for i in
 * `range(0, len(ids), 50)` (app/utils.py, lines 41-42 and 52-53).
 */
module Batching {

  /** The most ids one `videos().list` or `channels().list` call takes. */
  const BatchSize: nat := 50

  function Min(a: int, b: int): int {
    if a <= b then a else b
  }

  /** The slice that starts at i. */
  function Batch<T>(ids: seq<T>, i: nat): (b: seq<T>)
    requires i < |ids|
    ensures 1 <= |b| <= BatchSize
  {
    ids[i..Min(i + BatchSize, |ids|)]
  }

  /** The slices for the starts i, i + 50, ... below |ids|. */
  function BatchesFrom<T>(ids: seq<T>, i: nat): seq<seq<T>>
    decreases |ids| - i
  {
    if i >= |ids| then [] else [Batch(ids, i)] + BatchesFrom(ids, i + BatchSize)
  }

  function Flatten<T>(bs: seq<seq<T>>): seq<T> {
    if bs == [] then [] else bs[0] + Flatten(bs[1..])
  }

  /** The slices from position i: ceil((n - i) / 50) of them, each of 1 to 50 ids. */
  lemma {:induction false} BatchesFromCount<T>(ids: seq<T>, i: nat)
    requires i <= |ids|
    ensures |BatchesFrom(ids, i)| == (|ids| - i + BatchSize - 1) / BatchSize
    ensures forall b :: b in BatchesFrom(ids, i) ==> 1 <= |b| <= BatchSize
    decreases |ids| - i
  {
    if i < |ids| {
      if i + BatchSize < |ids| {
        BatchesFromCount(ids, i + BatchSize);
      }
      assert BatchesFrom(ids, i) == [Batch(ids, i)] + BatchesFrom(ids, i + BatchSize);
    }
  }

  /** The slices from position i are contiguous: together they give back the ids from i on. */
  lemma {:induction false} BatchesFromFlatten<T>(ids: seq<T>, i: nat)
    requires i <= |ids|
    ensures Flatten(BatchesFrom(ids, i)) == ids[i..]
    decreases |ids| - i
  {
    if i < |ids| {
      var bs := BatchesFrom(ids, i);
      assert bs[0] == Batch(ids, i) && bs[1..] == BatchesFrom(ids, i + BatchSize);
      if i + BatchSize >= |ids| {
        assert Batch(ids, i) == ids[i..];
        assert Flatten(bs) == ids[i..] + Flatten(bs[1..]);
      } else {
        BatchesFromFlatten(ids, i + BatchSize);
        assert ids[i..] == ids[i..i + BatchSize] + ids[i + BatchSize..];
      }
    }
  }

  /**
   * n ids go out in exactly ceil(n / 50) slices, each of 1 to 50 ids, that
   * are contiguous and together give back the ids in order.
   */
  lemma BatchesShape<T>(ids: seq<T>)
    ensures |BatchesFrom(ids, 0)| == (|ids| + BatchSize - 1) / BatchSize
    ensures Flatten(BatchesFrom(ids, 0)) == ids
    ensures forall b :: b in BatchesFrom(ids, 0) ==> 1 <= |b| <= BatchSize
  {
    BatchesFromCount(ids, 0);
    BatchesFromFlatten(ids, 0);
  }
}
