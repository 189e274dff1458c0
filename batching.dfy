/** The batch loop the recognizer, the classifier and the table recognizer
    share (`for (beg = 0; beg < img_num; beg += batch_num_)` with
    `end = std::min(img_num, beg + batch_num_)`), and the phase timings the
    stages push onto the caller's `times` list. */
module Batching {

  /** `std::min(img_num, beg + size)`. */
  function BatchEnd(beg: int, n: int, size: int): int {
    if n < beg + size then n else beg + size
  }

  /** The `[beg, end)` bounds the loop visits from cursor `beg` on. */
  function ChunksFrom(beg: nat, n: nat, size: nat): seq<(nat, nat)>
    requires size > 0
    decreases n - beg
  {
    if beg >= n then [] else [(beg, BatchEnd(beg, n, size))] + ChunksFrom(beg + size, n, size)
  }

  /** The batches of one call over `n` images. */
  function Chunks(n: nat, size: nat): seq<(nat, nat)>
    requires size > 0
  {
    ChunksFrom(0, n, size)
  }

  /** Index `j` lies in the chunk `c`. */
  predicate InChunk(c: (nat, nat), j: int) {
    c.0 <= j < c.1
  }

  /** Some chunk of `cs` holds index `j`. */
  predicate Covered(cs: seq<(nat, nat)>, j: int) {
    exists k :: 0 <= k < |cs| && InChunk(cs[k], j)
  }

  /** There are no chunks exactly when the cursor is already at `n`;
      otherwise the first starts at `beg` and the last ends at `n`. */
  lemma {:induction false} ChunksEnds(beg: nat, n: nat, size: nat)
    requires size > 0
    ensures var cs := ChunksFrom(beg, n, size);
      && (cs == [] <==> n <= beg)
      && (cs != [] ==> cs[0].0 == beg && cs[|cs| - 1].1 == n)
    decreases n - beg
  {
    if beg < n {
      ChunksEnds(beg + size, n, size);
      var rest := ChunksFrom(beg + size, n, size);
      var cs := [(beg, BatchEnd(beg, n, size))] + rest;
      assert ChunksFrom(beg, n, size) == cs;
      if rest != [] {
        assert cs[|cs| - 1] == rest[|rest| - 1];
      }
    }
  }

  /** Every chunk is non-empty, lies in `[beg, n)` and holds at most `size`
      images. */
  lemma {:induction false} ChunksBounded(beg: nat, n: nat, size: nat)
    requires size > 0
    ensures forall k :: 0 <= k < |ChunksFrom(beg, n, size)| ==>
      beg <= ChunksFrom(beg, n, size)[k].0 < ChunksFrom(beg, n, size)[k].1 <= n &&
      ChunksFrom(beg, n, size)[k].1 <= ChunksFrom(beg, n, size)[k].0 + size
    decreases n - beg
  {
    if beg < n {
      ChunksBounded(beg + size, n, size);
      var rest := ChunksFrom(beg + size, n, size);
      var cs := [(beg, BatchEnd(beg, n, size))] + rest;
      assert ChunksFrom(beg, n, size) == cs;
      forall k | 0 <= k < |cs|
        ensures beg <= cs[k].0 < cs[k].1 <= n && cs[k].1 <= cs[k].0 + size
      {
        if k > 0 {
          assert cs[k] == rest[k - 1];
        }
      }
    }
  }

  /** Each chunk but the last holds exactly `size` images and ends where the
      next one starts. */
  lemma {:induction false} ChunksConsecutive(beg: nat, n: nat, size: nat)
    requires size > 0
    ensures forall k :: 0 <= k < |ChunksFrom(beg, n, size)| - 1 ==>
      ChunksFrom(beg, n, size)[k].1 == ChunksFrom(beg, n, size)[k + 1].0 &&
      ChunksFrom(beg, n, size)[k].1 == ChunksFrom(beg, n, size)[k].0 + size
    decreases n - beg
  {
    if beg < n {
      ChunksConsecutive(beg + size, n, size);
      ChunksEnds(beg + size, n, size);
      var rest := ChunksFrom(beg + size, n, size);
      var cs := [(beg, BatchEnd(beg, n, size))] + rest;
      assert ChunksFrom(beg, n, size) == cs;
      forall k | 0 <= k < |cs| - 1
        ensures cs[k].1 == cs[k + 1].0 && cs[k].1 == cs[k].0 + size
      {
        assert cs[k + 1] == rest[k];
        if k > 0 {
          assert cs[k] == rest[k - 1];
        }
      }
    }
  }

  /** The chunks are non-empty and consecutive, they start at `beg` and end
      at `n`, and each is at most `size` long (all but the last exactly). */
  lemma ChunksShape(beg: nat, n: nat, size: nat)
    requires size > 0
    ensures var cs := ChunksFrom(beg, n, size);
      && (cs == [] <==> n <= beg)
      && (cs != [] ==> cs[0].0 == beg && cs[|cs| - 1].1 == n)
      && (forall k :: 0 <= k < |cs| ==> beg <= cs[k].0 < cs[k].1 <= n && cs[k].1 - cs[k].0 <= size)
      && (forall k :: 0 <= k < |cs| - 1 ==> cs[k].1 == cs[k + 1].0 && cs[k].1 - cs[k].0 == size)
  {
    ChunksEnds(beg, n, size);
    ChunksBounded(beg, n, size);
    ChunksConsecutive(beg, n, size);
  }

  /** One more step of the loop visits one chunk. */
  lemma ChunksFromStep(beg: nat, n: nat, size: nat)
    requires size > 0 && beg < n
    ensures |ChunksFrom(beg, n, size)| == 1 + |ChunksFrom(beg + size, n, size)|
  {
  }

  /** Every index of `[beg, n)` lies in exactly one chunk: the chunks
      partition the images of one call. */
  lemma ChunksPartition(beg: nat, n: nat, size: nat)
    requires size > 0
    ensures var cs := ChunksFrom(beg, n, size);
      && (forall j :: beg <= j < n <==> Covered(cs, j))
      && (forall k1, k2 :: 0 <= k1 < k2 < |cs| ==> cs[k1].1 <= cs[k2].0)
  {
    ChunksCover(beg, n, size);
    ChunksOrdered(beg, n, size);
  }

  /** The indices some chunk holds are exactly those of `[beg, n)`. */
  lemma {:induction false} ChunksCover(beg: nat, n: nat, size: nat)
    requires size > 0
    ensures forall j :: beg <= j < n <==> Covered(ChunksFrom(beg, n, size), j)
    decreases n - beg
  {
    if beg < n {
      ChunksCover(beg + size, n, size);
      ChunksBounded(beg, n, size);
      var cs := ChunksFrom(beg, n, size);
      var rest := ChunksFrom(beg + size, n, size);
      assert cs == [(beg, BatchEnd(beg, n, size))] + rest;
      forall j | beg <= j < n
        ensures Covered(cs, j)
      {
        if j < cs[0].1 {
          assert InChunk(cs[0], j);
        } else {
          assert cs[0].1 == BatchEnd(beg, n, size) == beg + size <= j;
          assert Covered(rest, j);
          var k :| 0 <= k < |rest| && InChunk(rest[k], j);
          assert cs[k + 1] == rest[k];
          assert InChunk(cs[k + 1], j);
        }
      }
      forall j | Covered(cs, j)
        ensures beg <= j < n
      {
        var k :| 0 <= k < |cs| && InChunk(cs[k], j);
      }
    }
  }

  /** A chunk ends no later than any later chunk starts. */
  lemma {:induction false} ChunksOrdered(beg: nat, n: nat, size: nat)
    requires size > 0
    ensures forall k1, k2 :: 0 <= k1 < k2 < |ChunksFrom(beg, n, size)| ==>
      ChunksFrom(beg, n, size)[k1].1 <= ChunksFrom(beg, n, size)[k2].0
    decreases n - beg
  {
    if beg < n {
      ChunksOrdered(beg + size, n, size);
      ChunksBounded(beg + size, n, size);
      var cs := ChunksFrom(beg, n, size);
      var rest := ChunksFrom(beg + size, n, size);
      assert cs == [(beg, BatchEnd(beg, n, size))] + rest;
      forall k1, k2 | 0 <= k1 < k2 < |cs|
        ensures cs[k1].1 <= cs[k2].0
      {
        assert cs[k2] == rest[k2 - 1];
        if k1 > 0 {
          assert cs[k1] == rest[k1 - 1];
        } else {
          assert cs[0].1 <= beg + size <= rest[k2 - 1].0;
        }
      }
    }
  }

  /** The loop cursor after `k` steps of `beg += size`. */
  function Cursor(beg: int, size: int, k: nat): int
    decreases k
  {
    if k == 0 then beg else Cursor(beg + size, size, k - 1)
  }

  /** With a batch size of zero or less and an image still to visit, the
      loop condition `beg < img_num` holds after every number of steps: with
      a size of zero the loop never ends, and with a negative size it only
      stops when the body fails (`NegativeBatchCount`). */
  lemma {:induction false} NonPositiveBatchNeverExits(beg: int, n: int, size: int, k: nat)
    requires size <= 0 && beg < n
    ensures Cursor(beg, size, k) < n
    decreases k
  {
    if k > 0 {
      NonPositiveBatchNeverExits(beg + size, n, size, k - 1);
    }
  }

  /** With a negative batch size the first batch has a negative size
      `batch_num = end_img_no - beg_img_no`, so the input buffer it sizes
      from `batch_num` is asked for a negative number of values. */
  lemma NegativeBatchCount(beg: int, n: int, size: int)
    requires size < 0 && beg < n
    ensures BatchEnd(beg, n, size) - beg == size < 0
  {
  }

  /** With a positive batch size the loop condition holds for exactly as many
      steps as there are chunks. */
  lemma {:induction false} PositiveBatchExitsAfterChunks(beg: nat, n: nat, size: nat, k: nat)
    requires size > 0
    ensures k < |ChunksFrom(beg, n, size)| ==> Cursor(beg, size, k) < n
    ensures Cursor(beg, size, |ChunksFrom(beg, n, size)|) >= n
    decreases n - beg
  {
    if beg < n {
      var rest := ChunksFrom(beg + size, n, size);
      assert |ChunksFrom(beg, n, size)| == 1 + |rest|;
      PositiveBatchExitsAfterChunks(beg + size, n, size, if k > 0 then k - 1 else 0);
    }
  }

  /** Starting the loop `d` further on moves every later cursor by `d`. */
  lemma {:induction false} CursorShift(beg: int, d: int, size: int, k: nat)
    ensures Cursor(beg + d, size, k) == Cursor(beg, size, k) + d
    decreases k
  {
    if k > 0 {
      CursorShift(beg + size, d, size, k - 1);
    }
  }

  /** One more step of `beg += size`. */
  lemma CursorStep(beg: int, size: int, k: nat)
    ensures Cursor(beg, size, k + 1) == Cursor(beg, size, k) + size
  {
    CursorShift(beg, size, size, k);
  }

  /** From zero with a positive size the cursor never goes negative. */
  lemma {:induction false} CursorFromZero(size: nat, k: nat)
    requires size > 0
    ensures Cursor(0, size, k) >= 0
    decreases k
  {
    if k > 0 {
      CursorStep(0, size, k - 1);
      CursorFromZero(size, k - 1);
    }
  }

  /** Where the batch holding position `j` starts, for batches that start at
      every multiple of `size`. */
  function BatchStart(j: nat, size: nat): (start: nat)
    requires size > 0
    ensures start <= j < start + size
    decreases j
  {
    if j < size then 0 else BatchStart(j - size, size) + size
  }

  /** Position `m` of the batch the loop starts after `k` steps belongs to
      that batch. */
  lemma {:induction false} BatchStartOf(k: nat, size: nat, beg: nat, m: nat)
    requires size > 0 && m < size && beg == Cursor(0, size, k)
    ensures BatchStart(beg + m, size) == beg
    decreases k
  {
    if k > 0 {
      CursorStep(0, size, k - 1);
      CursorFromZero(size, k - 1);
      BatchStartOf(k - 1, size, Cursor(0, size, k - 1), m);
    }
  }

  /** The three phase durations of one batch, in seconds. */
  datatype Durations = Durations(pre: real, infer: real, post: real)

  predicate NonNegative(d: Durations) {
    d.pre >= 0.0 && d.infer >= 0.0 && d.post >= 0.0
  }

  function Add(a: Durations, b: Durations): Durations {
    Durations(a.pre + b.pre, a.infer + b.infer, a.post + b.post)
  }

  /** The accumulators `preprocess_diff`, `inference_diff` and
      `postprocess_diff` after batches `0 .. k-1`, measured as `elapsed`. */
  function Total(elapsed: nat -> Durations, k: nat): Durations {
    if k == 0 then Durations(0.0, 0.0, 0.0) else Add(Total(elapsed, k - 1), elapsed(k - 1))
  }

  /** The three entries one push of the accumulators appends, in milliseconds. */
  function Millis(d: Durations): seq<real> {
    [d.pre * 1000.0, d.infer * 1000.0, d.post * 1000.0]
  }

  /** What `times` receives when the accumulators are pushed after each of
      `k` batches. */
  function RunningMillis(elapsed: nat -> Durations, k: nat): seq<real> {
    if k == 0 then [] else RunningMillis(elapsed, k - 1) + Millis(Total(elapsed, k))
  }

  /** The accumulators never decrease while every measured duration is
      non-negative. */
  lemma {:induction false} TotalMonotone(elapsed: nat -> Durations, a: nat, b: nat)
    requires a <= b
    requires forall k :: NonNegative(elapsed(k))
    ensures Total(elapsed, a).pre <= Total(elapsed, b).pre
    ensures Total(elapsed, a).infer <= Total(elapsed, b).infer
    ensures Total(elapsed, a).post <= Total(elapsed, b).post
    decreases b
  {
    if a < b {
      TotalMonotone(elapsed, a, b - 1);
      assert NonNegative(elapsed(b - 1));
    }
  }

  /** Entry `3a + p` of the pushed list is phase `p` of the running total after
      batch `a`. */
  lemma {:induction false} RunningMillisAt(elapsed: nat -> Durations, k: nat, a: nat, p: nat)
    requires a < k && p < 3
    ensures |RunningMillis(elapsed, k)| == 3 * k
    ensures RunningMillis(elapsed, k)[3 * a + p] == Millis(Total(elapsed, a + 1))[p]
    decreases k
  {
    RunningMillisLength(elapsed, k - 1);
    if a < k - 1 {
      RunningMillisAt(elapsed, k - 1, a, p);
    }
  }

  lemma {:induction false} RunningMillisLength(elapsed: nat -> Durations, k: nat)
    ensures |RunningMillis(elapsed, k)| == 3 * k
    decreases k
  {
    if k > 0 {
      RunningMillisLength(elapsed, k - 1);
    }
  }

  /** Per phase, the entries pushed after later batches are never smaller:
      each is a running total, not the duration of its own batch. */
  lemma RunningTotalsNeverDecrease(elapsed: nat -> Durations, k: nat, a: nat, b: nat, p: nat)
    requires a <= b < k && p < 3
    requires forall i :: NonNegative(elapsed(i))
    ensures |RunningMillis(elapsed, k)| == 3 * k
    ensures RunningMillis(elapsed, k)[3 * a + p] <= RunningMillis(elapsed, k)[3 * b + p]
  {
    RunningMillisAt(elapsed, k, a, p);
    RunningMillisAt(elapsed, k, b, p);
    TotalMonotone(elapsed, a + 1, b + 1);
  }
}
