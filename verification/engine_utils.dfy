/**
 * `create_batch` (exciton/ml/engine/utils.py): the corpus, shuffled in
 * place when asked, split into consecutive batches of `batch_size` items.
 * `random.shuffle` is the Fisher-Yates shuffle; its random draws are the
 * parameter `draws`, where `draws[i]` is the position, at most `i`, that
 * position `i` is swapped with.
 */
module EngineUtils {
  import opened Text

  /**
   * The batches `create_batch` returns. With a size of 0 or less the
   * accumulator never reaches it, so every item lands in one last batch.
   */
  function BatchesOf<T>(xs: seq<T>, bs: int): seq<seq<T>> {
    if bs <= 0 then (if xs == [] then [] else [xs]) else Chunks(xs, bs)
  }

  /**
   * The batches give back the corpus in order; none is empty; an empty
   * corpus gives none; every batch but the last has `batch_size` items and
   * the last at most that many; there are `ceil(n / batch_size)` of them.
   */
  lemma BatchesMeaning<T>(xs: seq<T>, bs: int)
    ensures Concat(BatchesOf(xs, bs)) == xs
    ensures forall k :: 0 <= k < |BatchesOf(xs, bs)| ==> BatchesOf(xs, bs)[k] != []
    ensures BatchesOf(xs, bs) == [] <==> xs == []
    ensures bs > 0 ==> forall k :: 0 <= k < |BatchesOf(xs, bs)| ==> |BatchesOf(xs, bs)[k]| <= bs
    ensures bs > 0 ==> forall k :: 0 <= k < |BatchesOf(xs, bs)| - 1 ==> |BatchesOf(xs, bs)[k]| == bs
    ensures bs > 0 ==> |BatchesOf(xs, bs)| == (|xs| + bs - 1) / bs
    ensures bs <= 0 && xs != [] ==> BatchesOf(xs, bs) == [xs]
  {
    if bs > 0 {
      ChunksConcat(xs, bs);
      ChunkSizes(xs, bs);
      ChunksCount(xs, bs);
      ChunksCeil(xs, bs);
    } else if xs != [] {
      assert Concat([xs]) == Concat([]) + xs;
    }
  }

  /** A full accumulator closes the next batch. */
  lemma FullBatch<T>(corpora: seq<T>, arr: seq<T>, bs: nat, m: nat, k: nat)
    requires bs > 0 && k < |corpora| && m * bs <= k + 1
    requires |arr| == bs && arr == corpora[m * bs..k + 1]
    ensures k + 1 == (m + 1) * bs
    ensures Chunks(corpora[..k + 1], bs) == Chunks(corpora[..m * bs], bs) + [arr]
  {
    assert (m + 1) * bs == m * bs + bs;
    ChunksSnoc(corpora[..m * bs], arr, bs, m);
    assert corpora[..m * bs] + arr == corpora[..k + 1];
  }

  /** The splitting loop of `create_batch`, with its accumulator `arr`. */
  method SplitBatches<T>(corpora: seq<T>, batchSize: int) returns (corporaSplit: seq<seq<T>>)
    ensures corporaSplit == BatchesOf(corpora, batchSize)
  {
    corporaSplit := [];
    var arr: seq<T> := [];
    ghost var full := 0;
    ghost var m := 0;
    for k := 0 to |corpora|
      invariant full + |arr| == k && arr == corpora[full..k]
      invariant batchSize <= 0 ==> full == 0 && corporaSplit == []
      invariant batchSize > 0 ==>
        && |arr| < batchSize && full == m * batchSize
        && corporaSplit == Chunks(corpora[..full], batchSize)
    {
      arr := arr + [corpora[k]];
      if |arr| == batchSize {
        FullBatch(corpora, arr, batchSize, m, k);
        corporaSplit := corporaSplit + [arr];
        arr := [];
        full, m := k + 1, m + 1;
      }
    }
    if |arr| > 0 {
      if batchSize > 0 {
        ChunksSnoc(corpora[..full], arr, batchSize, m);
        assert corpora[..full] + arr == corpora;
      } else {
        assert arr == corpora;
      }
      corporaSplit := corporaSplit + [arr];
      arr := [];
    } else {
      assert corpora[..full] == corpora;
    }
  }

  /** `s` with the entries at `i` and `j` exchanged. */
  function Swap<T>(s: seq<T>, i: nat, j: nat): (r: seq<T>)
    requires i < |s| && j < |s|
    ensures |r| == |s| && r[i] == s[j] && r[j] == s[i]
    ensures forall k :: 0 <= k < |s| && k != i && k != j ==> r[k] == s[k]
  {
    s[i := s[j]][j := s[i]]
  }

  /** A swap only reorders. */
  lemma SwapPermutes<T>(s: seq<T>, i: nat, j: nat)
    requires i < |s| && j < |s|
    ensures multiset(Swap(s, i, j)) == multiset(s)
  {
  }

  /** The draws `random.shuffle` may make: position `i` is swapped with a position at most `i`. */
  predicate ValidDraws(draws: seq<nat>, n: nat) {
    |draws| == n && forall i :: 0 <= i < n ==> draws[i] <= i
  }

  /** Fisher-Yates from position `i - 1` down to 1, as `random.shuffle` runs it. */
  function Shuffled<T>(s: seq<T>, draws: seq<nat>, i: nat): seq<T>
    requires i <= |s| && ValidDraws(draws, |s|)
    decreases i
  {
    if i <= 1 then s else Shuffled(Swap(s, i - 1, draws[i - 1]), draws, i - 1)
  }

  /** The shuffle is a permutation. */
  lemma {:induction false} ShuffledPermutes<T>(s: seq<T>, draws: seq<nat>, i: nat)
    requires i <= |s| && ValidDraws(draws, |s|)
    ensures |Shuffled(s, draws, i)| == |s|
    ensures multiset(Shuffled(s, draws, i)) == multiset(s)
    decreases i
  {
    if i > 1 {
      SwapPermutes(s, i - 1, draws[i - 1]);
      ShuffledPermutes(Swap(s, i - 1, draws[i - 1]), draws, i - 1);
    }
  }

  /** Drawing every position itself leaves the list as it was. */
  lemma {:induction false} ShuffledIdentity<T>(s: seq<T>, draws: seq<nat>, i: nat)
    requires i <= |s| && ValidDraws(draws, |s|)
    requires forall k :: 0 <= k < |s| ==> draws[k] == k
    ensures Shuffled(s, draws, i) == s
    decreases i
  {
    if i > 1 {
      assert Swap(s, i - 1, draws[i - 1]) == s;
      ShuffledIdentity(s, draws, i - 1);
    }
  }

  /** `x[i], x[j] = x[j], x[i]`. */
  method SwapAt<T>(a: array<T>, i: nat, j: nat)
    requires i < a.Length && j < a.Length
    modifies a
    ensures a[..] == Swap(old(a[..]), i, j)
  {
    a[i], a[j] := a[j], a[i];
  }

  /** `random.shuffle`: the list reordered in place. */
  method Shuffle<T>(a: array<T>, draws: seq<nat>)
    requires ValidDraws(draws, a.Length)
    modifies a
    ensures a[..] == Shuffled(old(a[..]), draws, a.Length)
    ensures multiset(a[..]) == multiset(old(a[..]))
  {
    var i := a.Length;
    while i > 1
      invariant 0 <= i <= a.Length
      invariant Shuffled(a[..], draws, i) == Shuffled(old(a[..]), draws, a.Length)
    {
      ghost var before := a[..];
      SwapAt(a, i - 1, draws[i - 1]);
      assert Shuffled(before, draws, i) == Shuffled(a[..], draws, i - 1);
      i := i - 1;
    }
    ShuffledPermutes(old(a[..]), draws, a.Length);
  }

  /** `create_batch`: shuffle the corpus in place when asked, then split it. */
  method CreateBatch<T>(corpora: array<T>, batchSize: int, isShuffle: bool, draws: seq<nat>)
    returns (corporaSplit: seq<seq<T>>)
    requires ValidDraws(draws, corpora.Length)
    modifies corpora
    ensures corpora[..] == if isShuffle then Shuffled(old(corpora[..]), draws, corpora.Length) else old(corpora[..])
    ensures corporaSplit == BatchesOf(corpora[..], batchSize)
    ensures multiset(Concat(corporaSplit)) == multiset(old(corpora[..]))
  {
    if isShuffle {
      Shuffle(corpora, draws);
    }
    corporaSplit := SplitBatches(corpora[..], batchSize);
    BatchesMeaning(corpora[..], batchSize);
  }
}
