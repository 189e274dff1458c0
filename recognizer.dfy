/** `CRNNRecognizer::Run`: orders the text crops by aspect ratio, recognises
    them batch by batch and writes each decoded text and score back at the
    crop's original position. */
module Recognizer {
  import opened Common
  import opened Batching
  import opened Order
  import opened Ctc

  /** `rec_batch_num_`, `rec_image_shape_[1]`, `rec_image_shape_[2]` and
      `label_list_`. */
  datatype Config = Config(batchNum: int, imgH: nat, imgW: nat, labels: seq<string>)

  /** A decoded crop: `str_res` and the mean score of its kept steps. */
  datatype RecText = RecText(text: string, score: real)

  /** Every crop has at least one row, so its width/height ratio exists. */
  predicate HasRows(imgs: seq<Mat>) {
    forall i :: 0 <= i < |imgs| ==> imgs[i].rows > 0
  }

  /** `w * 1.0 / h` of a crop. */
  function WhRatio(m: Mat): real
    requires m.rows > 0
  {
    m.cols as real / m.rows as real
  }

  /** `width_list`: the ratio of every crop, in input order. */
  function Ratios(imgs: seq<Mat>): (r: seq<real>)
    requires HasRows(imgs)
    ensures |r| == |imgs| && forall i :: 0 <= i < |imgs| ==> r[i] == WhRatio(imgs[i])
  {
    seq(|imgs|, i requires 0 <= i < |imgs| => WhRatio(imgs[i]))
  }

  /** The loop that fills `width_list`, one ratio per crop in input order. */
  method ComputeRatios(imgs: seq<Mat>) returns (widthList: seq<real>)
    requires HasRows(imgs)
    ensures widthList == Ratios(imgs)
  {
    widthList := [];
    var i := 0;
    while i < |imgs|
      invariant 0 <= i <= |imgs|
      invariant |widthList| == i
      invariant forall k :: 0 <= k < i ==> widthList[k] == WhRatio(imgs[k])
    {
      widthList := widthList + [WhRatio(imgs[i])];
      i := i + 1;
    }
  }

  /** `imgW * 1.0 / imgH`, the ratio every batch starts from. */
  function BaseRatio(cfg: Config): real
    requires cfg.imgH > 0
  {
    cfg.imgW as real / cfg.imgH as real
  }

  /** The crops of the batch at sorted positions `beg .. e-1`. */
  function BatchOf(imgs: seq<Mat>, p: seq<nat>, beg: nat, e: nat): (batch: seq<Mat>)
    requires beg <= e <= |p| && InRange(p, |imgs|)
    ensures |batch| == e - beg
    decreases e - beg
  {
    if e == beg then [] else BatchOf(imgs, p, beg, e - 1) + [imgs[p[e - 1]]]
  }

  /** Crop `k` of the batch is the crop at sorted position `beg + k`. */
  lemma {:induction false} BatchOfAt(imgs: seq<Mat>, p: seq<nat>, beg: nat, e: nat)
    requires beg <= e <= |p| && InRange(p, |imgs|)
    ensures forall k :: 0 <= k < e - beg ==> BatchOf(imgs, p, beg, e)[k] == imgs[p[beg + k]]
    decreases e - beg
  {
    if e > beg {
      BatchOfAt(imgs, p, beg, e - 1);
    }
  }

  /** The crops of a batch have rows when all crops do. */
  lemma BatchHasRows(imgs: seq<Mat>, p: seq<nat>, beg: nat, e: nat)
    requires beg <= e <= |p| && InRange(p, |imgs|) && HasRows(imgs)
    ensures HasRows(BatchOf(imgs, p, beg, e))
  {
    BatchOfAt(imgs, p, beg, e);
  }

  /** `max_wh_ratio` of a batch: `base` raised, crop by crop, to each crop's
      ratio. */
  function MaxRatio(base: real, batch: seq<Mat>): real
    requires HasRows(batch)
    decreases |batch|
  {
    if |batch| == 0 then base
    else MaxReal(MaxRatio(base, batch[..|batch| - 1]), WhRatio(batch[|batch| - 1]))
  }

  /** `max_wh_ratio` is the largest of `base` and the ratios of the batch. */
  lemma {:induction false} MaxRatioIsMax(base: real, batch: seq<Mat>)
    requires HasRows(batch)
    ensures MaxRatio(base, batch) >= base
    ensures forall k :: 0 <= k < |batch| ==> MaxRatio(base, batch) >= WhRatio(batch[k])
    ensures MaxRatio(base, batch) == base || exists k :: 0 <= k < |batch| && MaxRatio(base, batch) == WhRatio(batch[k])
    decreases |batch|
  {
    if |batch| > 0 {
      var front := batch[..|batch| - 1];
      MaxRatioIsMax(base, front);
      assert forall k :: 0 <= k < |front| ==> front[k] == batch[k];
    }
  }

  /** `batch_width`: `imgW` raised, crop by crop, to each resized crop's
      width. */
  function MaxWidth(imgW: nat, resized: seq<Mat>): nat
    decreases |resized|
  {
    if |resized| == 0 then imgW
    else Max(MaxWidth(imgW, resized[..|resized| - 1]), resized[|resized| - 1].cols) as nat
  }

  /** `batch_width` is the largest of `imgW` and the resized widths. */
  lemma {:induction false} MaxWidthIsMax(imgW: nat, resized: seq<Mat>)
    ensures MaxWidth(imgW, resized) >= imgW
    ensures forall k :: 0 <= k < |resized| ==> MaxWidth(imgW, resized) >= resized[k].cols
    ensures MaxWidth(imgW, resized) == imgW || exists k :: 0 <= k < |resized| && MaxWidth(imgW, resized) == resized[k].cols
    decreases |resized|
  {
    if |resized| > 0 {
      var front := resized[..|resized| - 1];
      MaxWidthIsMax(imgW, front);
      assert forall k :: 0 <= k < |front| ==> front[k] == resized[k];
    }
  }

  /** The crops of a batch after `resize_op_` and `normalize_op_` at ratio
      `ratio`, in batch order. */
  function ResizedAll(resize: (Mat, real) -> Mat, batch: seq<Mat>, ratio: real): (r: seq<Mat>)
    ensures |r| == |batch|
    decreases |batch|
  {
    if |batch| == 0 then []
    else ResizedAll(resize, batch[..|batch| - 1], ratio) + [resize(batch[|batch| - 1], ratio)]
  }

  /** The input tensor of a batch: the crops resized at the batch's
      `max_wh_ratio`, packed at `imgH` by `batch_width`. */
  function BatchInput(cfg: Config, resize: (Mat, real) -> Mat, batch: seq<Mat>): Tensor
    requires cfg.imgH > 0 && HasRows(batch)
  {
    var resized := ResizedAll(resize, batch, MaxRatio(BaseRatio(cfg), batch));
    Pack(resized, cfg.imgH, MaxWidth(cfg.imgW, resized))
  }

  /** The input tensor holds every crop of the batch, resized, and exactly
      `batch_num * 3 * imgH * batch_width` zeros, as many as its declared
      shape; its width covers `imgW` and every resized crop. */
  lemma BatchInputShape(cfg: Config, resize: (Mat, real) -> Mat, batch: seq<Mat>)
    requires cfg.imgH > 0 && HasRows(batch)
    ensures var t := BatchInput(cfg, resize, batch);
      && |t.batch| == |batch| && |t.shape| == 4
      && t.shape[0] == |batch| && t.shape[1] == 3 && t.shape[2] == cfg.imgH
      && |t.data| == Product(t.shape) == |batch| * 3 * cfg.imgH * t.shape[3]
      && (forall i :: 0 <= i < |t.data| ==> t.data[i] == 0.0)
      && t.shape[3] >= cfg.imgW && (forall k :: 0 <= k < |batch| ==> t.shape[3] >= t.batch[k].cols)
  {
    var resized := ResizedAll(resize, batch, MaxRatio(BaseRatio(cfg), batch));
    var w := MaxWidth(cfg.imgW, resized);
    MaxWidthIsMax(cfg.imgW, resized);
  }

  /** What the engine returns for a batch of `b` crops: a `[b, steps,
      classes]` buffer with at least one class and no class beyond the
      label list. */
  predicate RecShape(o: Output, labelCount: nat) {
    |o.shape| == 3 && o.shape[0] >= 0 && o.shape[1] >= 0 && 0 < o.shape[2] <= labelCount
    && |o.data| == Product(o.shape)
  }

  predicate RecOutputOk(o: Output, b: nat, labelCount: nat) {
    RecShape(o, labelCount) && o.shape[0] == b
  }

  ghost predicate EngineOk(engine: Tensor -> Output, labelCount: nat) {
    forall t :: RecOutputOk(engine(t), |t.batch|, labelCount)
  }

  /** What the batch loop relies on: a positive batch size and image
      height, crops with rows, an order `p` over the crops and an engine that
      answers every batch with a well-shaped output. */
  ghost predicate Setting(cfg: Config, imgs: seq<Mat>, p: seq<nat>, engine: Tensor -> Output) {
    cfg.batchNum > 0 && cfg.imgH > 0 && HasRows(imgs) && |p| == |imgs| && InRange(p, |imgs|)
    && EngineOk(engine, |cfg.labels|)
  }

  /** The decode of sample `m`: `None` when no step is kept (the score is
      `0 / 0`, NaN, and the sample is skipped). */
  function SampleResult(o: Output, m: nat, labels: seq<string>): (r: Option<RecText>)
    requires RecShape(o, |labels|) && m < o.shape[0]
  {
    var b: nat, t: nat, c: nat := o.shape[0], o.shape[1], o.shape[2];
    Product3(b, t, c);
    assert o.shape == [b, t, c];
    var ids := StepIds(o.data, b, t, c, m);
    var count := |Collapse(ids)|;
    if count == 0 then None
    else Some(RecText(Decoded(labels, ids), KeptSum(ids, StepMaxes(o.data, b, t, c, m)) / count as real))
  }

  /** The results of all samples of one engine output, in batch order. */
  function OutputResults(o: Output, labels: seq<string>): (r: seq<Option<RecText>>)
    requires RecShape(o, |labels|)
    ensures |r| == o.shape[0]
  {
    seq(o.shape[0], m requires 0 <= m < o.shape[0] => SampleResult(o, m, labels))
  }

  /** The result of the crop at sorted position `j`: the decode of its sample
      in the engine's output for the batch that holds it. */
  function ResultAt(cfg: Config, imgs: seq<Mat>, p: seq<nat>, j: nat,
                    resize: (Mat, real) -> Mat, engine: Tensor -> Output): Option<RecText>
    requires Setting(cfg, imgs, p, engine) && j < |imgs|
  {
    var beg := BatchStart(j, cfg.batchNum);
    var e := BatchEnd(beg, |imgs|, cfg.batchNum);
    var batch := BatchOf(imgs, p, beg, e);
    BatchHasRows(imgs, p, beg, e);
    var t := BatchInput(cfg, resize, batch);
    assert RecOutputOk(engine(t), |t.batch|, |cfg.labels|);
    BatchInputShape(cfg, resize, batch);
    OutputResults(engine(t), cfg.labels)[j - beg]
  }

  /** `ResultAt` as a function of the sorted position, with no result past
      the last crop. */
  function ResultFn(cfg: Config, imgs: seq<Mat>, p: seq<nat>,
                    resize: (Mat, real) -> Mat, engine: Tensor -> Output): (f: nat -> Option<RecText>)
    requires Setting(cfg, imgs, p, engine)
  {
    (j: nat) => if j < |imgs| then ResultAt(cfg, imgs, p, j, resize, engine) else None
  }

  /** The results of all crops, in sorted order. */
  function Results(cfg: Config, imgs: seq<Mat>, p: seq<nat>,
                   resize: (Mat, real) -> Mat, engine: Tensor -> Output): (r: seq<Option<RecText>>)
    requires Setting(cfg, imgs, p, engine)
    ensures |r| == |imgs|
  {
    seq(|imgs|, ResultFn(cfg, imgs, p, resize, engine))
  }

  /** Position `m` of the batch the loop starts after `k` steps holds the
      decode of sample `m` of the engine's output for that batch. */
  lemma ResultAtInBatch(cfg: Config, imgs: seq<Mat>, p: seq<nat>, k: nat, beg: nat, m: nat,
                        resize: (Mat, real) -> Mat, engine: Tensor -> Output)
    requires Setting(cfg, imgs, p, engine) && beg == Cursor(0, cfg.batchNum, k)
    requires beg + m < BatchEnd(beg, |imgs|, cfg.batchNum)
    ensures var e := BatchEnd(beg, |imgs|, cfg.batchNum);
      HasRows(BatchOf(imgs, p, beg, e)) &&
      var o := engine(BatchInput(cfg, resize, BatchOf(imgs, p, beg, e)));
      && RecShape(o, |cfg.labels|) && o.shape[0] == e - beg
      && Results(cfg, imgs, p, resize, engine)[beg + m] == OutputResults(o, cfg.labels)[m]
  {
    var e := BatchEnd(beg, |imgs|, cfg.batchNum);
    BatchHasRows(imgs, p, beg, e);
    var t := BatchInput(cfg, resize, BatchOf(imgs, p, beg, e));
    BatchInputShape(cfg, resize, BatchOf(imgs, p, beg, e));
    assert RecOutputOk(engine(t), |t.batch|, |cfg.labels|);
    BatchStartOf(k, cfg.batchNum, beg, m);
  }

  /** The results `res`, in sorted order, agree over the batch the loop
      starts after `k` steps with the decode of the engine's output for that
      batch. */
  ghost predicate BatchAgrees(cfg: Config, imgs: seq<Mat>, p: seq<nat>, resize: (Mat, real) -> Mat,
                              engine: Tensor -> Output, res: seq<Option<RecText>>, k: nat)
    requires Setting(cfg, imgs, p, engine) && |res| == |imgs|
  {
    var beg := Cursor(0, cfg.batchNum, k);
    0 <= beg < |imgs| ==>
      var e := BatchEnd(beg, |imgs|, cfg.batchNum);
      && HasRows(BatchOf(imgs, p, beg, e))
      && var o := engine(BatchInput(cfg, resize, BatchOf(imgs, p, beg, e)));
      && RecShape(o, |cfg.labels|) && o.shape[0] == e - beg
      && SegmentIs(res, beg, OutputResults(o, cfg.labels))
  }

  /** Every batch the loop visits yields, in batch order, the results of the
      sorted positions it covers. */
  lemma ResultsOfBatch(cfg: Config, imgs: seq<Mat>, p: seq<nat>, k: nat,
                       resize: (Mat, real) -> Mat, engine: Tensor -> Output)
    requires Setting(cfg, imgs, p, engine)
    ensures BatchAgrees(cfg, imgs, p, resize, engine, Results(cfg, imgs, p, resize, engine), k)
  {
    var beg := Cursor(0, cfg.batchNum, k);
    if 0 <= beg < |imgs| {
      var e := BatchEnd(beg, |imgs|, cfg.batchNum);
      ResultAtInBatch(cfg, imgs, p, k, beg, 0, resize, engine);
      var o := engine(BatchInput(cfg, resize, BatchOf(imgs, p, beg, e)));
      forall m | 0 <= m < |OutputResults(o, cfg.labels)|
        ensures Results(cfg, imgs, p, resize, engine)[beg + m] == OutputResults(o, cfg.labels)[m]
      {
        ResultAtInBatch(cfg, imgs, p, k, beg, m, resize, engine);
      }
      assert SegmentIs(Results(cfg, imgs, p, resize, engine), beg, OutputResults(o, cfg.labels));
    }
  }

  /** The texts to write back: one per result, absent where the sample is
      skipped. */
  function TextsOf(res: seq<Option<RecText>>): (r: seq<Option<string>>)
    ensures |r| == |res|
  {
    seq(|res|, j requires 0 <= j < |res| => if res[j].Some? then Some(res[j].value.text) else None)
  }

  /** The scores to write back, likewise. */
  function ScoresOf(res: seq<Option<RecText>>): (r: seq<Option<real>>)
    ensures |r| == |res|
  {
    seq(|res|, j requires 0 <= j < |res| => if res[j].Some? then Some(res[j].value.score) else None)
  }

  /** The loop that computes `max_wh_ratio` over the batch. */
  method ComputeMaxRatio(cfg: Config, imgs: seq<Mat>, p: seq<nat>, beg: nat, e: nat) returns (maxRatio: real)
    requires cfg.imgH > 0 && HasRows(imgs) && beg <= e <= |p| && InRange(p, |imgs|)
    ensures HasRows(BatchOf(imgs, p, beg, e))
    ensures maxRatio == MaxRatio(BaseRatio(cfg), BatchOf(imgs, p, beg, e))
  {
    maxRatio := cfg.imgW as real / cfg.imgH as real;
    var ino := beg;
    while ino < e
      invariant beg <= ino <= e
      invariant HasRows(BatchOf(imgs, p, beg, ino))
      invariant maxRatio == MaxRatio(BaseRatio(cfg), BatchOf(imgs, p, beg, ino))
    {
      var img := imgs[p[ino]];
      var whRatio := img.cols as real / img.rows as real;
      assert BatchOf(imgs, p, beg, ino + 1)[..ino - beg] == BatchOf(imgs, p, beg, ino);
      maxRatio := MaxReal(maxRatio, whRatio);
      ino := ino + 1;
    }
  }

  /** The loop that resizes the batch and tracks `batch_width`. */
  method ResizeBatch(cfg: Config, resize: (Mat, real) -> Mat, batch: seq<Mat>, ratio: real)
    returns (normBatch: seq<Mat>, batchWidth: nat)
    ensures normBatch == ResizedAll(resize, batch, ratio)
    ensures batchWidth == MaxWidth(cfg.imgW, normBatch)
  {
    normBatch := [];
    batchWidth := cfg.imgW;
    var k := 0;
    while k < |batch|
      invariant 0 <= k <= |batch|
      invariant normBatch == ResizedAll(resize, batch[..k], ratio)
      invariant batchWidth == MaxWidth(cfg.imgW, normBatch)
    {
      var resizeImg := resize(batch[k], ratio);
      assert batch[..k + 1][..k] == batch[..k];
      normBatch := normBatch + [resizeImg];
      batchWidth := Max(resizeImg.cols, batchWidth) as nat;
      k := k + 1;
    }
    assert batch[..|batch|] == batch;
  }

  /** The preprocess phase of one batch: the crops at sorted positions
      `beg .. e-1`, resized at the batch's `max_wh_ratio` and packed into the
      zero-filled `[batch_num, 3, imgH, batch_width]` input. */
  method Preprocess(cfg: Config, imgs: seq<Mat>, p: seq<nat>, beg: nat, e: nat, resize: (Mat, real) -> Mat)
    returns (input: Tensor)
    requires cfg.imgH > 0 && HasRows(imgs) && beg <= e <= |p| && InRange(p, |imgs|)
    ensures HasRows(BatchOf(imgs, p, beg, e))
    ensures input == BatchInput(cfg, resize, BatchOf(imgs, p, beg, e))
  {
    var ratio := ComputeMaxRatio(cfg, imgs, p, beg, e);
    var batch := BatchOf(imgs, p, beg, e);
    var normBatch, batchWidth := ResizeBatch(cfg, resize, batch, ratio);
    input := Pack(normBatch, cfg.imgH, batchWidth);
  }

  /** The decode of sample `m` of an engine output, as the loop computes it:
      the text, the summed score and the number of kept steps. */
  method DecodeOutput(o: Output, m: nat, labels: seq<string>) returns (text: string, score: real, count: nat)
    requires RecShape(o, |labels|) && m < o.shape[0]
    ensures count == 0 <==> OutputResults(o, labels)[m].None?
    ensures count > 0 ==> OutputResults(o, labels)[m] == Some(RecText(text, score / count as real))
  {
    var b: nat, t: nat, c: nat := o.shape[0], o.shape[1], o.shape[2];
    Product3(b, t, c);
    assert o.shape == [b, t, c];
    text, score, count := DecodeSample(o.data, b, t, c, m, labels);
  }

  /** The CTC loop over the samples of one output: sample `m` is written to
      `texts[p[beg + m]]` and `scores[p[beg + m]]` unless it is skipped.
      `res` holds the results of every sorted position; the arrays start as
      `texts0` and `scores0` after the write-back of positions `0 .. beg-1`. */
  method WriteBatch(o: Output, labels: seq<string>, p: seq<nat>, beg: nat, e: nat,
                    texts: array<string>, scores: array<real>,
                    ghost res: seq<Option<RecText>>, ghost texts0: seq<string>, ghost scores0: seq<real>)
    requires RecShape(o, |labels|) && e == beg + o.shape[0] && e <= |p| && e <= |res|
    requires |texts0| == texts.Length && |scores0| == scores.Length
    requires InRange(p, texts.Length) && InRange(p, scores.Length)
    requires SegmentIs(res, beg, OutputResults(o, labels))
    requires texts[..] == ScatterSome(texts0, p, TextsOf(res), beg)
    requires scores[..] == ScatterSome(scores0, p, ScoresOf(res), beg)
    modifies texts, scores
    ensures texts[..] == ScatterSome(texts0, p, TextsOf(res), e)
    ensures scores[..] == ScatterSome(scores0, p, ScoresOf(res), e)
  {
    var b: nat := o.shape[0];
    var m := 0;
    while m < b
      invariant 0 <= m <= b
      invariant texts[..] == ScatterSome(texts0, p, TextsOf(res), beg + m)
      invariant scores[..] == ScatterSome(scores0, p, ScoresOf(res), beg + m)
    {
      var text, score, count := DecodeOutput(o, m, labels);
      if count > 0 {
        texts[p[beg + m]] := text;
        scores[p[beg + m]] := score / count as real;
      }
      m := m + 1;
    }
  }

  /** One iteration of the batch loop: preprocess the crops at sorted
      positions `beg .. e-1`, run the engine, decode and write back. */
  method RunBatch(cfg: Config, imgs: seq<Mat>, p: seq<nat>, k: nat, beg: nat,
                  resize: (Mat, real) -> Mat, engine: Tensor -> Output,
                  texts: array<string>, scores: array<real>,
                  ghost res: seq<Option<RecText>>, ghost texts0: seq<string>, ghost scores0: seq<real>)
    returns (e: nat)
    requires Setting(cfg, imgs, p, engine) && beg == Cursor(0, cfg.batchNum, k) && beg < |imgs|
    requires |res| == |imgs| && BatchAgrees(cfg, imgs, p, resize, engine, res, k)
    requires texts.Length >= |imgs| && scores.Length >= |imgs|
    requires |texts0| == texts.Length && |scores0| == scores.Length
    requires texts[..] == ScatterSome(texts0, p, TextsOf(res), beg)
    requires scores[..] == ScatterSome(scores0, p, ScoresOf(res), beg)
    modifies texts, scores
    ensures e == BatchEnd(beg, |imgs|, cfg.batchNum)
    ensures texts[..] == ScatterSome(texts0, p, TextsOf(res), e)
    ensures scores[..] == ScatterSome(scores0, p, ScoresOf(res), e)
  {
    var n := |imgs|;
    e := if n < beg + cfg.batchNum then n else beg + cfg.batchNum;
    var input := Preprocess(cfg, imgs, p, beg, e, resize);
    var o := engine(input);
    assert e == BatchEnd(beg, n, cfg.batchNum);
    assert SegmentIs(res, beg, OutputResults(o, cfg.labels));
    WriteBatch(o, cfg.labels, p, beg, e, texts, scores, res, texts0, scores0);
  }

  /** The batch loop of `CRNNRecognizer::Run` over the crops in the order
      `p`, for results `res` that agree with every batch: the arrays end as
      the write-back, through `p`, of every result. */
  method RunSorted(cfg: Config, imgs: seq<Mat>, p: seq<nat>, resize: (Mat, real) -> Mat, engine: Tensor -> Output,
                   elapsed: nat -> Durations, texts: array<string>, scores: array<real>,
                   ghost res: seq<Option<RecText>>)
    returns (total: Durations)
    requires Setting(cfg, imgs, p, engine) && |res| == |imgs|
    requires forall k :: BatchAgrees(cfg, imgs, p, resize, engine, res, k)
    requires texts.Length >= |imgs| && scores.Length >= |imgs|
    modifies texts, scores
    ensures texts[..] == ScatterSome(old(texts[..]), p, TextsOf(res), |imgs|)
    ensures scores[..] == ScatterSome(old(scores[..]), p, ScoresOf(res), |imgs|)
    ensures total == Total(elapsed, |Chunks(|imgs|, cfg.batchNum)|)
  {
    var n := |imgs|;
    ghost var texts0, scores0 := texts[..], scores[..];
    total := Durations(0.0, 0.0, 0.0);
    var beg := 0;
    var k := 0;
    ghost var done: nat := 0;
    while beg < n
      invariant beg == Cursor(0, cfg.batchNum, k) && done == if beg < n then beg else n
      invariant k + |ChunksFrom(beg, n, cfg.batchNum)| == |Chunks(n, cfg.batchNum)|
      invariant total == Total(elapsed, k)
      invariant texts[..] == ScatterSome(texts0, p, TextsOf(res), done)
      invariant scores[..] == ScatterSome(scores0, p, ScoresOf(res), done)
      decreases n - beg
    {
      var e := RunBatch(cfg, imgs, p, k, beg, resize, engine, texts, scores, res, texts0, scores0);
      done := e;
      ChunksFromStep(beg, n, cfg.batchNum);
      total := Add(total, elapsed(k));
      CursorStep(0, cfg.batchNum, k);
      k := k + 1;
      beg := beg + cfg.batchNum;
    }
  }

  /** `CRNNRecognizer::Run`. `argsort` is `Utility::argsort`: any function
      that orders the indices of its keys by ascending key will do, whatever
      it does with ties. `elapsed(k)` stands for the three phase durations
      the clock measures in batch `k`; `times` receives their totals once,
      after the last batch. */
  method Run(cfg: Config, imgs: seq<Mat>, argsort: seq<real> -> seq<nat>, resize: (Mat, real) -> Mat,
             engine: Tensor -> Output, elapsed: nat -> Durations, texts: array<string>, scores: array<real>,
             times: seq<real>)
    returns (timesOut: seq<real>)
    requires cfg.batchNum > 0 && cfg.imgH > 0 && HasRows(imgs) && EngineOk(engine, |cfg.labels|)
    requires SortsKeys(argsort)
    requires texts.Length >= |imgs| && scores.Length >= |imgs|
    modifies texts, scores
    ensures var p := argsort(Ratios(imgs)); var res := Results(cfg, imgs, p, resize, engine);
      && texts[..] == ScatterSome(old(texts[..]), p, TextsOf(res), |imgs|)
      && scores[..] == ScatterSome(old(scores[..]), p, ScoresOf(res), |imgs|)
    ensures var p := argsort(Ratios(imgs)); var res := Results(cfg, imgs, p, resize, engine);
      forall j :: 0 <= j < |imgs| ==>
        && texts[p[j]] == (if res[j].Some? then res[j].value.text else old(texts[p[j]]))
        && scores[p[j]] == (if res[j].Some? then res[j].value.score else old(scores[p[j]]))
    ensures forall i :: |imgs| <= i < texts.Length ==> texts[i] == old(texts[i])
    ensures forall i :: |imgs| <= i < scores.Length ==> scores[i] == old(scores[i])
    ensures timesOut == times + Millis(Total(elapsed, |Chunks(|imgs|, cfg.batchNum)|))
  {
    var widthList := ComputeRatios(imgs);
    var indices := argsort(widthList);
    assert IsPermutation(indices, |imgs|);
    ghost var texts0, scores0 := texts[..], scores[..];
    ghost var res := Results(cfg, imgs, indices, resize, engine);
    forall k | true
      ensures BatchAgrees(cfg, imgs, indices, resize, engine, res, k)
    {
      ResultsOfBatch(cfg, imgs, indices, k, resize, engine);
    }
    var total := RunSorted(cfg, imgs, indices, resize, engine, elapsed, texts, scores, res);
    timesOut := times + Millis(total);
    ScatterSomeAt(texts0, indices, TextsOf(res), |imgs|);
    ScatterSomeAt(scores0, indices, ScoresOf(res), |imgs|);
    assert forall i :: |imgs| <= i ==> i !in indices[..|imgs|];
  }
}
