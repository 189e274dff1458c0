/** `Classifier::Run`: the text-direction classifier. Crops are taken in
    input order, batch by batch; each is resized, padded to the network's
    width and packed; the engine returns one row of class scores per crop,
    and the row's argmax and maximum are written at the crop's own index. */
module Classifier {
  import opened Common
  import opened Batching

  /** `cls_image_shape`: every crop enters the network as 3 x 48 x 192. */
  const Channels: nat := 3
  const Height: nat := 48
  const Width: nat := 192

  /** The `copyMakeBorder` step: a crop narrower than `Width` gains zero
      columns on its right up to exactly `Width`; a crop at least that wide
      is left as it is. */
  function PadRight(m: Mat): (r: Mat)
    ensures r.rows == m.rows
    ensures m.cols < Width ==> r.cols == Width
    ensures m.cols >= Width ==> r == m
  {
    if m.cols < Width then Mat(m.rows, Width) else m
  }

  /** A padded crop is never narrower than `Width` nor than before, and
      padding it again changes nothing. */
  lemma PadRightIdempotent(m: Mat)
    ensures PadRight(m).cols >= Width && PadRight(m).cols >= m.cols
    ensures PadRight(PadRight(m)) == PadRight(m)
  {
  }

  /** What `resize_op_` (`ClsResizeImg`, not part of this model) is relied on
      to produce: crops `Height` rows high and at most `Width` wide. */
  ghost predicate ResizeFits(resize: Mat -> Mat) {
    forall m :: resize(m).rows == Height && resize(m).cols <= Width
  }

  /** The crops `beg .. e-1`, resized and padded, in input order. */
  function PaddedBatch(resize: Mat -> Mat, imgs: seq<Mat>, beg: nat, e: nat): (batch: seq<Mat>)
    requires beg <= e <= |imgs|
    ensures |batch| == e - beg
    decreases e - beg
  {
    if e == beg then [] else PaddedBatch(resize, imgs, beg, e - 1) + [PadRight(resize(imgs[e - 1]))]
  }

  /** Crop `k` of the packed batch is crop `beg + k`, resized and padded. */
  lemma {:induction false} PaddedBatchAt(resize: Mat -> Mat, imgs: seq<Mat>, beg: nat, e: nat)
    requires beg <= e <= |imgs|
    ensures forall k :: 0 <= k < e - beg ==> PaddedBatch(resize, imgs, beg, e)[k] == PadRight(resize(imgs[beg + k]))
    decreases e - beg
  {
    if e > beg {
      PaddedBatchAt(resize, imgs, beg, e - 1);
    }
  }

  /** With a resize that fits, every packed crop is exactly `Height` by
      `Width`, so the `[batch_num, 3, 48, 192]` buffer has room for exactly
      the pixels of the batch. */
  lemma PaddedBatchFits(resize: Mat -> Mat, imgs: seq<Mat>, beg: nat, e: nat)
    requires beg <= e <= |imgs| && ResizeFits(resize)
    ensures forall k :: 0 <= k < e - beg ==>
      PaddedBatch(resize, imgs, beg, e)[k] == Mat(Height, Width)
  {
    PaddedBatchAt(resize, imgs, beg, e);
    forall k | 0 <= k < e - beg
      ensures PaddedBatch(resize, imgs, beg, e)[k] == Mat(Height, Width)
    {
      assert resize(imgs[beg + k]).rows == Height && resize(imgs[beg + k]).cols <= Width;
    }
  }

  /** The input tensor as the source declares it: a zero buffer of
      `batch_num * 3 * 48 * 192` values under the shape
      `{cls_batch_num_, 3, 48, 192}`. */
  function InputAsWritten(batchNum: int, batch: seq<Mat>): (t: Tensor)
    ensures |t.shape| == 4 && t.shape[0] == batchNum && |t.data| == |batch| * Channels * Height * Width
  {
    Tensor(batch, Zeros(|batch| * Channels * Height * Width), [batchNum, Channels as int, Height as int, Width as int])
  }

  /** With 7 crops and batches of 6 the last batch holds one crop: its
      buffer has 27648 values while its declared shape claims 165888. */
  lemma AsWrittenLastBatchMismatch(batch: seq<Mat>)
    requires |batch| == 1
    ensures |InputAsWritten(6, batch).data| == 27648
    ensures Product(InputAsWritten(6, batch).shape) == 165888
  {
    var t := InputAsWritten(6, batch);
    Product3(3, 48, 192);
    assert t.shape[1..] == [3, 48, 192];
  }

  /** As written, the buffer matches its declared shape exactly when the
      batch is full. */
  lemma AsWrittenAgreesIffFull(batchNum: int, batch: seq<Mat>)
    requires batchNum > 0
    ensures |InputAsWritten(batchNum, batch).data| == Product(InputAsWritten(batchNum, batch).shape)
        <==> |batch| == batchNum
  {
    var t := InputAsWritten(batchNum, batch);
    Product3(3, 48, 192);
    assert t.shape[1..] == [3, 48, 192];
    assert Product(t.shape) == batchNum * 27648;
    assert |t.data| == |batch| * 27648;
  }

  /** The input tensor of the batch `beg .. e-1` with its shape declared from
      the batch itself, `{batch_num, 3, 48, 192}`. */
  function BatchInput(resize: Mat -> Mat, imgs: seq<Mat>, beg: nat, e: nat): Tensor
    requires beg <= e <= |imgs|
  {
    Pack(PaddedBatch(resize, imgs, beg, e), Height, Width)
  }

  /** The buffer of every batch, the last one included, holds exactly as
      many values as its declared shape: `batch_num * 3 * 48 * 192`. */
  lemma BatchInputMatchesShape(resize: Mat -> Mat, imgs: seq<Mat>, beg: nat, e: nat)
    requires beg <= e <= |imgs|
    ensures var t := BatchInput(resize, imgs, beg, e);
      && t.shape == [e - beg, Channels as int, Height as int, Width as int]
      && |t.data| == Product(t.shape) == (e - beg) * Channels * Height * Width
  {
  }

  /** What the engine returns for a batch of `b` crops: a `[b, classes]`
      buffer with at least one class. */
  predicate ClsShape(o: Output) {
    |o.shape| == 2 && o.shape[0] >= 0 && o.shape[1] > 0 && |o.data| == Product(o.shape)
  }

  ghost predicate EngineOk(engine: Tensor -> Output) {
    forall t :: ClsShape(engine(t)) && engine(t).shape[0] == |t.batch|
  }

  lemma Product2(a: int, b: int)
    ensures Product([a, b]) == a * b
  {
    assert [a, b][1..] == [b] && [b][1..] == [];
    assert Product([b]) == b * Product([]) == b;
  }

  /** A decoded crop: `label` (the class index) and `score`. */
  datatype ClsResult = ClsResult(classIndex: nat, score: real)

  /** Row `b` of a `[rows, classes]` buffer. */
  function ScoreRow(o: Output, b: nat): (row: seq<real>)
    requires ClsShape(o) && b < o.shape[0]
    ensures |row| == o.shape[1]
  {
    Product2(o.shape[0], o.shape[1]);
    assert o.shape == [o.shape[0], o.shape[1]];
    RowInBuffer(o.shape[0], o.shape[1], b);
    RowAt(o.data, o.shape[1], b)
  }

  /** The decode of row `b`: `Utility::argmax` and `*std::max_element` of
      the row. */
  function RowResult(o: Output, b: nat): ClsResult
    requires ClsShape(o) && b < o.shape[0]
  {
    var row := ScoreRow(o, b);
    ClsResult(ArgMax(row), MaxValue(row))
  }

  /** The label of a row names a class, the class of the first largest
      score, and the score is that largest score. */
  lemma RowResultIsFirstMax(o: Output, b: nat)
    requires ClsShape(o) && b < o.shape[0]
    ensures var r := RowResult(o, b); var row := ScoreRow(o, b);
      && r.classIndex < o.shape[1]
      && r.score == row[r.classIndex]
      && (forall c :: 0 <= c < |row| ==> row[c] <= r.score)
      && (forall c :: 0 <= c < r.classIndex ==> row[c] < r.score)
  {
    ArgMaxIsFirstMax(ScoreRow(o, b));
  }

  /** The decode of every row of one output, in batch order. */
  function OutputResults(o: Output): (r: seq<ClsResult>)
    requires ClsShape(o)
    ensures |r| == o.shape[0]
  {
    seq(o.shape[0], b requires 0 <= b < o.shape[0] => RowResult(o, b))
  }

  /** The decode of crop `j`: its row in the engine's output for the batch
      that holds it. */
  function ResultAt(batchNum: nat, imgs: seq<Mat>, j: nat, resize: Mat -> Mat, engine: Tensor -> Output): ClsResult
    requires batchNum > 0 && EngineOk(engine) && j < |imgs|
  {
    var beg := BatchStart(j, batchNum);
    var o := engine(BatchInput(resize, imgs, beg, BatchEnd(beg, |imgs|, batchNum)));
    assert ClsShape(o) && o.shape[0] == |PaddedBatch(resize, imgs, beg, BatchEnd(beg, |imgs|, batchNum))|;
    OutputResults(o)[j - beg]
  }

  /** `ResultAt` as a function of the crop index, with an arbitrary result
      past the last crop. */
  function ResultFn(batchNum: nat, imgs: seq<Mat>, resize: Mat -> Mat, engine: Tensor -> Output): nat -> ClsResult
    requires batchNum > 0 && EngineOk(engine)
  {
    (j: nat) => if j < |imgs| then ResultAt(batchNum, imgs, j, resize, engine) else ClsResult(0, 0.0)
  }

  /** The decode of every crop, in input order. */
  function Results(batchNum: nat, imgs: seq<Mat>, resize: Mat -> Mat, engine: Tensor -> Output): (r: seq<ClsResult>)
    requires batchNum > 0 && EngineOk(engine)
    ensures |r| == |imgs|
  {
    seq(|imgs|, ResultFn(batchNum, imgs, resize, engine))
  }

  /** The results `res` agree, over the batch the loop starts after `k`
      steps, with the decode of the engine's output for that batch. */
  ghost predicate BatchAgrees(batchNum: nat, imgs: seq<Mat>, resize: Mat -> Mat, engine: Tensor -> Output,
                              res: seq<ClsResult>, k: nat)
    requires batchNum > 0 && EngineOk(engine)
  {
    var beg := Cursor(0, batchNum, k);
    0 <= beg < |imgs| ==>
      var o := engine(BatchInput(resize, imgs, beg, BatchEnd(beg, |imgs|, batchNum)));
      && ClsShape(o) && o.shape[0] == BatchEnd(beg, |imgs|, batchNum) - beg
      && SegmentIs(res, beg, OutputResults(o))
  }

  /** Crop `beg + m` of the batch at cursor `beg` is decoded from row `m`
      of that batch's output. */
  lemma ResultAtInBatch(batchNum: nat, imgs: seq<Mat>, k: nat, beg: nat, m: nat, resize: Mat -> Mat, engine: Tensor -> Output)
    requires batchNum > 0 && EngineOk(engine)
    requires beg == Cursor(0, batchNum, k) && beg + m < BatchEnd(beg, |imgs|, batchNum)
    ensures var o := engine(BatchInput(resize, imgs, beg, BatchEnd(beg, |imgs|, batchNum)));
      && ClsShape(o) && o.shape[0] == BatchEnd(beg, |imgs|, batchNum) - beg
      && ResultAt(batchNum, imgs, beg + m, resize, engine) == OutputResults(o)[m]
  {
    BatchStartOf(k, batchNum, beg, m);
  }

  /** Every batch the loop visits yields, in batch order, the decode of the
      crops it covers. */
  lemma ResultsOfBatch(batchNum: nat, imgs: seq<Mat>, k: nat, resize: Mat -> Mat, engine: Tensor -> Output)
    requires batchNum > 0 && EngineOk(engine)
    ensures BatchAgrees(batchNum, imgs, resize, engine, Results(batchNum, imgs, resize, engine), k)
  {
    var beg := Cursor(0, batchNum, k);
    if 0 <= beg < |imgs| {
      var e := BatchEnd(beg, |imgs|, batchNum);
      var o := engine(BatchInput(resize, imgs, beg, e));
      var res := Results(batchNum, imgs, resize, engine);
      assert ClsShape(o) && o.shape[0] == |PaddedBatch(resize, imgs, beg, e)|;
      forall m | 0 <= m < |OutputResults(o)|
        ensures res[beg + m] == OutputResults(o)[m]
      {
        ResultAtInBatch(batchNum, imgs, k, beg, m, resize, engine);
        assert res[beg + m] == ResultFn(batchNum, imgs, resize, engine)(beg + m);
      }
    }
  }

  /** `cls_labels` after the results of crops `0 .. k-1` are written over
      `base`. */
  function LabelsWritten(base: seq<int>, res: seq<ClsResult>, k: nat): (r: seq<int>)
    requires k <= |res| && k <= |base|
    ensures |r| == |base|
  {
    seq(|base|, i requires 0 <= i < |base| => if i < k then res[i].classIndex as int else base[i])
  }

  /** `cls_scores` likewise. */
  function ScoresWritten(base: seq<real>, res: seq<ClsResult>, k: nat): (r: seq<real>)
    requires k <= |res| && k <= |base|
    ensures |r| == |base|
  {
    seq(|base|, i requires 0 <= i < |base| => if i < k then res[i].score else base[i])
  }

  /** The decode loop of one batch: row `b` goes to `cls_labels[beg + b]` and
      `cls_scores[beg + b]`. */
  method WriteBatch(o: Output, beg: nat, labels: array<int>, scores: array<real>,
                    ghost res: seq<ClsResult>, ghost labels0: seq<int>, ghost scores0: seq<real>)
    requires ClsShape(o) && SegmentIs(res, beg, OutputResults(o))
    requires beg + o.shape[0] <= labels.Length == |labels0| && beg + o.shape[0] <= scores.Length == |scores0|
    requires labels[..] == LabelsWritten(labels0, res, beg)
    requires scores[..] == ScoresWritten(scores0, res, beg)
    modifies labels, scores
    ensures labels[..] == LabelsWritten(labels0, res, beg + o.shape[0])
    ensures scores[..] == ScoresWritten(scores0, res, beg + o.shape[0])
  {
    var b := 0;
    while b < o.shape[0]
      invariant 0 <= b <= o.shape[0]
      invariant labels[..] == LabelsWritten(labels0, res, beg + b)
      invariant scores[..] == ScoresWritten(scores0, res, beg + b)
    {
      var row := ScoreRow(o, b);
      var clsLabel := ArgMax(row);
      var score := MaxValue(row);
      assert ClsResult(clsLabel, score) == OutputResults(o)[b] == res[beg + b];
      labels[beg + b] := clsLabel;
      scores[beg + b] := score;
      b := b + 1;
    }
  }

  /** The preprocess loop of one batch: resize, normalise and pad every crop
      of `beg .. e-1`, then pack the batch. */
  method Preprocess(imgs: seq<Mat>, beg: nat, e: nat, resize: Mat -> Mat) returns (input: Tensor)
    requires beg <= e <= |imgs|
    ensures input == BatchInput(resize, imgs, beg, e)
  {
    var normBatch := [];
    var ino := beg;
    while ino < e
      invariant beg <= ino <= e
      invariant normBatch == PaddedBatch(resize, imgs, beg, ino)
    {
      var resizeImg := resize(imgs[ino]);
      if resizeImg.cols < Width {
        resizeImg := Mat(resizeImg.rows, Width);
      }
      normBatch := normBatch + [resizeImg];
      ino := ino + 1;
    }
    input := Pack(normBatch, Height, Width);
  }

  /** One iteration of the batch loop. */
  method RunBatch(batchNum: nat, imgs: seq<Mat>, k: nat, beg: nat, resize: Mat -> Mat, engine: Tensor -> Output,
                  labels: array<int>, scores: array<real>,
                  ghost res: seq<ClsResult>, ghost labels0: seq<int>, ghost scores0: seq<real>)
    returns (e: nat)
    requires batchNum > 0 && EngineOk(engine) && beg == Cursor(0, batchNum, k) && beg < |imgs|
    requires BatchAgrees(batchNum, imgs, resize, engine, res, k)
    requires |imgs| <= labels.Length == |labels0| && |imgs| <= scores.Length == |scores0|
    requires labels[..] == LabelsWritten(labels0, res, beg)
    requires scores[..] == ScoresWritten(scores0, res, beg)
    modifies labels, scores
    ensures e == BatchEnd(beg, |imgs|, batchNum)
    ensures labels[..] == LabelsWritten(labels0, res, e)
    ensures scores[..] == ScoresWritten(scores0, res, e)
  {
    var n := |imgs|;
    e := if n < beg + batchNum then n else beg + batchNum;
    var input := Preprocess(imgs, beg, e, resize);
    var o := engine(input);
    WriteBatch(o, beg, labels, scores, res, labels0, scores0);
  }

  /** The batch loop, for results `res` that agree with every batch: the
      first `|imgs|` labels and scores end as the decode of their crops. */
  method RunBatches(batchNum: nat, imgs: seq<Mat>, resize: Mat -> Mat, engine: Tensor -> Output,
                    elapsed: nat -> Durations, labels: array<int>, scores: array<real>, ghost res: seq<ClsResult>)
    returns (total: Durations)
    requires batchNum > 0 && EngineOk(engine) && |res| == |imgs|
    requires forall k :: BatchAgrees(batchNum, imgs, resize, engine, res, k)
    requires labels.Length >= |imgs| && scores.Length >= |imgs|
    modifies labels, scores
    ensures labels[..] == LabelsWritten(old(labels[..]), res, |imgs|)
    ensures scores[..] == ScoresWritten(old(scores[..]), res, |imgs|)
    ensures total == Total(elapsed, |Chunks(|imgs|, batchNum)|)
  {
    var n := |imgs|;
    ghost var labels0, scores0 := labels[..], scores[..];
    total := Durations(0.0, 0.0, 0.0);
    var beg := 0;
    var k := 0;
    ghost var done: nat := 0;
    while beg < n
      invariant beg == Cursor(0, batchNum, k) && done == if beg < n then beg else n
      invariant k + |ChunksFrom(beg, n, batchNum)| == |Chunks(n, batchNum)|
      invariant total == Total(elapsed, k)
      invariant labels[..] == LabelsWritten(labels0, res, done)
      invariant scores[..] == ScoresWritten(scores0, res, done)
      decreases n - beg
    {
      var e := RunBatch(batchNum, imgs, k, beg, resize, engine, labels, scores, res, labels0, scores0);
      done := e;
      ChunksFromStep(beg, n, batchNum);
      total := Add(total, elapsed(k));
      CursorStep(0, batchNum, k);
      k := k + 1;
      beg := beg + batchNum;
    }
  }

  /** `Classifier::Run` with `cls_batch_num_ = batchNum`. `elapsed(k)` stands
      for the phase durations the clock measures in batch `k`; `times`
      receives their totals once, after the last batch. */
  method Run(batchNum: int, imgs: seq<Mat>, resize: Mat -> Mat, engine: Tensor -> Output,
             elapsed: nat -> Durations, labels: array<int>, scores: array<real>, times: seq<real>)
    returns (timesOut: seq<real>)
    requires batchNum > 0 && EngineOk(engine)
    requires labels.Length >= |imgs| && scores.Length >= |imgs|
    modifies labels, scores
    ensures var res := Results(batchNum, imgs, resize, engine);
      forall i :: 0 <= i < |imgs| ==> labels[i] == res[i].classIndex && scores[i] == res[i].score
    ensures forall i :: |imgs| <= i < labels.Length ==> labels[i] == old(labels[i])
    ensures forall i :: |imgs| <= i < scores.Length ==> scores[i] == old(scores[i])
    ensures timesOut == times + Millis(Total(elapsed, |Chunks(|imgs|, batchNum)|))
  {
    ghost var labels0, scores0 := labels[..], scores[..];
    ghost var res := Results(batchNum, imgs, resize, engine);
    forall k | true
      ensures BatchAgrees(batchNum, imgs, resize, engine, res, k)
    {
      ResultsOfBatch(batchNum, imgs, k, resize, engine);
    }
    var total := RunBatches(batchNum, imgs, resize, engine, elapsed, labels, scores, res);
    timesOut := times + Millis(total);
    assert forall i :: 0 <= i < labels.Length ==> labels[i] == labels[..][i];
    assert forall i :: 0 <= i < scores.Length ==> scores[i] == scores[..][i];
  }
}
