/** `StructureTableRecognizer::Run`: crops are taken in input order, batch by
    batch; each batch is resized, padded and packed at `table_max_len_`
    square, the engine's two outputs go to the table post-processor with the
    crops' original sizes, and every decoded tag sequence is wrapped in the
    HTML document tags and appended, with its score and boxes, to the
    caller's lists. */
module Table {
  import opened Common
  import opened Batching

  /** `table_batch_num_` and `table_max_len_`. */
  datatype Config = Config(batchNum: int, maxLen: nat)

  /** What `post_processor_.Run` fills in for one batch: the tag sequence,
      the score and the cell boxes of each sample. */
  datatype PostResult = PostResult(tags: seq<seq<string>>, scores: seq<real>, boxes: seq<seq<seq<int>>>)

  /** The steps of a batch that are not part of this model: `resize_op_` and
      `pad_op_` at a side length, the engine (`loc_preds` and
      `structure_probs`), and the post-processor, which also receives the
      crops' original widths and heights. */
  datatype Stages = Stages(
    resize: (Mat, nat) -> Mat,
    pad: (Mat, nat) -> Mat,
    engine: Tensor -> (Output, Output),
    post: (Output, Output, seq<int>, seq<int>) -> PostResult)

  /** `predict_shape0[0]`, the number of samples the loop walks; none when
      it is negative. */
  function Count(o: Output): nat
    requires |o.shape| > 0
  {
    if o.shape[0] < 0 then 0 else o.shape[0]
  }

  /** The engine's first output has a shape to read `predict_shape0[0]`
      from, and the post-processor returns an entry for each of that many
      samples in each of its three lists. */
  ghost predicate StagesOk(st: Stages) {
    && (forall t :: |st.engine(t).0.shape| > 0)
    && (forall a: Output, b: Output, w: seq<int>, h: seq<int> :: |a.shape| > 0 ==>
          var r := st.post(a, b, w, h);
          |r.tags| >= Count(a) && |r.scores| >= Count(a) && |r.boxes| >= Count(a))
  }

  const Open: seq<string> := ["<html>", "<body>", "<table>"]
  const Close: seq<string> := ["</table>", "</body>", "</html>"]

  /** A tag sequence inside the document tags. */
  function Wrap(inner: seq<string>): seq<string> {
    Open + inner + Close
  }

  /** The tags between the three opening and the three closing tags. */
  function Unwrap(tags: seq<string>): seq<string>
    requires |tags| >= 6
  {
    tags[3..|tags| - 3]
  }

  /** A sequence that starts with the three opening tags and ends with the
      three closing ones. */
  predicate IsWrapped(tags: seq<string>) {
    |tags| >= 6 && tags[..3] == Open && tags[|tags| - 3..] == Close
  }

  /** Wrapping adds exactly six tags, keeps the inner tags unchanged and in
      order, and unwrapping gives them back. */
  lemma UnwrapWrap(inner: seq<string>)
    ensures |Wrap(inner)| == |inner| + 6
    ensures IsWrapped(Wrap(inner))
    ensures Unwrap(Wrap(inner)) == inner
  {
    var w := Wrap(inner);
    assert w[..3] == Open;
    assert w[|w| - 3..] == Close;
    assert w[3..|w| - 3] == inner;
  }

  /** A wrapped sequence is the wrap of what it holds inside. */
  lemma WrapUnwrap(tags: seq<string>)
    requires IsWrapped(tags)
    ensures Wrap(Unwrap(tags)) == tags
  {
    assert tags == tags[..3] + tags[3..|tags| - 3] + tags[|tags| - 3..];
  }

  /** The three `insert`s at the front and the three `push_back`s on one
      tag vector. */
  method WrapTags(inner: seq<string>) returns (tags: seq<string>)
    ensures tags == Wrap(inner)
  {
    tags := inner;
    tags := ["<table>"] + tags;
    tags := ["<body>"] + tags;
    tags := ["<html>"] + tags;
    tags := tags + ["</table>"];
    tags := tags + ["</body>"];
    tags := tags + ["</html>"];
  }

  /** `width_list`: the original widths of crops `beg .. e-1`. */
  function Widths(imgs: seq<Mat>, beg: nat, e: nat): (ws: seq<int>)
    requires beg <= e <= |imgs|
    ensures |ws| == e - beg
  {
    seq(e - beg, k requires 0 <= k < e - beg => imgs[beg + k].cols as int)
  }

  /** `height_list`: the original heights of crops `beg .. e-1`. */
  function Heights(imgs: seq<Mat>, beg: nat, e: nat): (hs: seq<int>)
    requires beg <= e <= |imgs|
    ensures |hs| == e - beg
  {
    seq(e - beg, k requires 0 <= k < e - beg => imgs[beg + k].rows as int)
  }

  /** The crops `beg .. e-1`, resized and padded, in input order. */
  function PaddedBatch(st: Stages, maxLen: nat, imgs: seq<Mat>, beg: nat, e: nat): (batch: seq<Mat>)
    requires beg <= e <= |imgs|
    ensures |batch| == e - beg
    decreases e - beg
  {
    if e == beg then []
    else PaddedBatch(st, maxLen, imgs, beg, e - 1) + [st.pad(st.resize(imgs[e - 1], maxLen), maxLen)]
  }

  /** The input tensor of a batch. */
  function BatchInput(cfg: Config, st: Stages, imgs: seq<Mat>, beg: nat, e: nat): Tensor
    requires beg <= e <= |imgs|
  {
    Pack(PaddedBatch(st, cfg.maxLen, imgs, beg, e), cfg.maxLen, cfg.maxLen)
  }

  /** The buffer holds `batch_num * 3 * table_max_len_ * table_max_len_`
      zeros, exactly as many as `input_shape` declares. */
  lemma BatchInputMatchesShape(cfg: Config, st: Stages, imgs: seq<Mat>, beg: nat, e: nat)
    requires beg <= e <= |imgs|
    ensures var t := BatchInput(cfg, st, imgs, beg, e);
      && t.shape == [e - beg, 3, cfg.maxLen as int, cfg.maxLen as int]
      && |t.data| == Product(t.shape) == (e - beg) * 3 * cfg.maxLen * cfg.maxLen
      && forall i :: 0 <= i < |t.data| ==> t.data[i] == 0.0
  {
  }

  /** The post-processor's answer for the batch `beg .. e-1`. */
  function BatchPost(cfg: Config, st: Stages, imgs: seq<Mat>, beg: nat, e: nat): PostResult
    requires beg <= e <= |imgs|
  {
    var outs := st.engine(BatchInput(cfg, st, imgs, beg, e));
    st.post(outs.0, outs.1, Widths(imgs, beg, e), Heights(imgs, beg, e))
  }

  /** The number of samples of the batch `beg .. e-1` the loop walks. */
  function BatchCount(cfg: Config, st: Stages, imgs: seq<Mat>, beg: nat, e: nat): (c: nat)
    requires beg <= e <= |imgs| && StagesOk(st)
    ensures var r := BatchPost(cfg, st, imgs, beg, e);
      c <= |r.tags| && c <= |r.scores| && c <= |r.boxes|
  {
    var outs := st.engine(BatchInput(cfg, st, imgs, beg, e));
    assert |outs.0.shape| > 0;
    Count(outs.0)
  }

  /** Each tag sequence of `ts`, wrapped. */
  function WrapAll(ts: seq<seq<string>>): (r: seq<seq<string>>)
    ensures |r| == |ts|
  {
    seq(|ts|, i requires 0 <= i < |ts| => Wrap(ts[i]))
  }

  /** What one batch appends to the three lists. */
  function BatchAppend(cfg: Config, st: Stages, imgs: seq<Mat>, beg: nat, e: nat): (r: PostResult)
    requires beg <= e <= |imgs| && StagesOk(st)
    ensures |r.tags| == |r.scores| == |r.boxes| == BatchCount(cfg, st, imgs, beg, e)
  {
    var pr := BatchPost(cfg, st, imgs, beg, e);
    var c := BatchCount(cfg, st, imgs, beg, e);
    PostResult(WrapAll(pr.tags[..c]), pr.scores[..c], pr.boxes[..c])
  }

  /** No entries in any of the three lists. */
  const Empty := PostResult([], [], [])

  /** The three lists of `a` each followed by the matching list of `b`. */
  function Concat(a: PostResult, b: PostResult): PostResult {
    PostResult(a.tags + b.tags, a.scores + b.scores, a.boxes + b.boxes)
  }

  /** Appending in two steps is appending the joined lists. */
  lemma ConcatAssoc(a: PostResult, b: PostResult, c: PostResult)
    ensures Concat(Concat(a, b), c) == Concat(a, Concat(b, c))
  {
    assert a.tags + b.tags + c.tags == a.tags + (b.tags + c.tags);
    assert a.scores + b.scores + c.scores == a.scores + (b.scores + c.scores);
    assert a.boxes + b.boxes + c.boxes == a.boxes + (b.boxes + c.boxes);
  }

  /** Appending nothing changes nothing. */
  lemma ConcatEmpty(a: PostResult)
    ensures Concat(a, Empty) == a
  {
    assert a.tags + [] == a.tags && a.scores + [] == a.scores && a.boxes + [] == a.boxes;
  }

  /** The entries `batch(beg)`, `batch(beg + bs)`, ... of the batches that
      start before `n`, in batch order. */
  function Joined(batch: nat -> PostResult, n: nat, bs: int, beg: nat): PostResult
    requires bs > 0
    decreases n - beg
  {
    if beg >= n then Empty
    else Concat(batch(beg), Joined(batch, n, bs, beg + bs))
  }

  /** Three lists that grow by the same number of entries per batch grow by
      the same number of entries over all batches. */
  lemma {:induction false} JoinedParallel(batch: nat -> PostResult, n: nat, bs: int, beg: nat)
    requires bs > 0
    requires forall b: nat :: b < n ==> |batch(b).tags| == |batch(b).scores| == |batch(b).boxes|
    ensures var r := Joined(batch, n, bs, beg);
      |r.tags| == |r.scores| == |r.boxes|
    decreases n - beg
  {
    if beg < n {
      JoinedParallel(batch, n, bs, beg + bs);
    }
  }

  /** When every batch appends only wrapped tag sequences, so do all of
      them together. */
  lemma {:induction false} JoinedWrapped(batch: nat -> PostResult, n: nat, bs: int, beg: nat)
    requires bs > 0
    requires forall b: nat, i :: b < n && 0 <= i < |batch(b).tags| ==> IsWrapped(batch(b).tags[i])
    ensures forall i :: 0 <= i < |Joined(batch, n, bs, beg).tags| ==> IsWrapped(Joined(batch, n, bs, beg).tags[i])
    decreases n - beg
  {
    if beg < n {
      JoinedWrapped(batch, n, bs, beg + bs);
      var bt := batch(beg).tags;
      var rest := Joined(batch, n, bs, beg + bs).tags;
      var ts := Joined(batch, n, bs, beg).tags;
      assert ts == bt + rest;
      forall i | 0 <= i < |ts|
        ensures IsWrapped(ts[i])
      {
        if i < |bt| {
          assert ts[i] == bt[i];
          assert IsWrapped(batch(beg).tags[i]);
        } else {
          assert ts[i] == rest[i - |bt|];
          assert IsWrapped(rest[i - |bt|]);
        }
      }
    }
  }

  /** Appending one batch moves the cursor of what is still to come by one
      batch. */
  lemma JoinedShift(batch: nat -> PostResult, n: nat, bs: int, beg: nat, acc: PostResult, acc': PostResult)
    requires bs > 0 && beg < n
    requires acc' == Concat(acc, batch(beg))
    ensures Concat(acc', Joined(batch, n, bs, beg + bs)) == Concat(acc, Joined(batch, n, bs, beg))
  {
    ConcatAssoc(acc, batch(beg), Joined(batch, n, bs, beg + bs));
  }

  /** What the batch starting at cursor `beg` appends. */
  function BatchFn(cfg: Config, st: Stages, imgs: seq<Mat>): nat -> PostResult
    requires cfg.batchNum > 0 && StagesOk(st)
  {
    (beg: nat) => if beg < |imgs| then BatchAppend(cfg, st, imgs, beg, BatchEnd(beg, |imgs|, cfg.batchNum)) else Empty
  }

  /** `batch(b)` is what the batch starting at cursor `b` appends. */
  ghost predicate DescribesAt(cfg: Config, st: Stages, imgs: seq<Mat>, batch: nat -> PostResult, b: nat)
    requires cfg.batchNum > 0 && StagesOk(st) && b < |imgs|
  {
    batch(b) == BatchAppend(cfg, st, imgs, b, BatchEnd(b, |imgs|, cfg.batchNum))
  }

  /** `batch` says what each batch of `imgs` appends. */
  ghost predicate Describes(cfg: Config, st: Stages, imgs: seq<Mat>, batch: nat -> PostResult)
    requires cfg.batchNum > 0 && StagesOk(st)
  {
    forall b: nat :: b < |imgs| ==> DescribesAt(cfg, st, imgs, batch, b)
  }

  /** What the whole batch loop appends to the three lists. */
  function Appended(cfg: Config, st: Stages, imgs: seq<Mat>): PostResult
    requires cfg.batchNum > 0 && StagesOk(st)
  {
    Joined(BatchFn(cfg, st, imgs), |imgs|, cfg.batchNum, 0)
  }

  /** Every sequence `WrapAll` yields is wrapped. */
  lemma WrapAllWrapped(ts: seq<seq<string>>)
    ensures forall i :: 0 <= i < |ts| ==> IsWrapped(WrapAll(ts)[i])
  {
    forall i | 0 <= i < |ts|
      ensures IsWrapped(WrapAll(ts)[i])
    {
      UnwrapWrap(ts[i]);
    }
  }

  /** The three lists grow by the same number of entries, so lists that
      start with equal lengths stay equal; and every appended tag sequence
      is wrapped in the document tags. */
  lemma AppendedParallelAndWrapped(cfg: Config, st: Stages, imgs: seq<Mat>)
    requires cfg.batchNum > 0 && StagesOk(st)
    ensures var r := Appended(cfg, st, imgs);
      && |r.tags| == |r.scores| == |r.boxes|
      && forall i :: 0 <= i < |r.tags| ==> IsWrapped(r.tags[i])
  {
    var f := BatchFn(cfg, st, imgs);
    forall b: nat, i | b < |imgs| && 0 <= i < |f(b).tags|
      ensures IsWrapped(f(b).tags[i])
    {
      var e := BatchEnd(b, |imgs|, cfg.batchNum);
      var pr := BatchPost(cfg, st, imgs, b, e);
      var c := BatchCount(cfg, st, imgs, b, e);
      assert f(b).tags == WrapAll(pr.tags[..c]);
      WrapAllWrapped(pr.tags[..c]);
    }
    JoinedParallel(f, |imgs|, cfg.batchNum, 0);
    JoinedWrapped(f, |imgs|, cfg.batchNum, 0);
  }

  /** The preprocess loop: resize and pad every crop of `beg .. e-1`, and
      record its original width and height. */
  method Preprocess(cfg: Config, st: Stages, imgs: seq<Mat>, beg: nat, e: nat)
    returns (input: Tensor, widthList: seq<int>, heightList: seq<int>)
    requires beg <= e <= |imgs|
    ensures input == BatchInput(cfg, st, imgs, beg, e)
    ensures |widthList| == |heightList| == e - beg
    ensures forall k :: 0 <= k < e - beg ==> widthList[k] == imgs[beg + k].cols && heightList[k] == imgs[beg + k].rows
  {
    var normBatch := [];
    widthList, heightList := [], [];
    var ino := beg;
    while ino < e
      invariant beg <= ino <= e
      invariant normBatch == PaddedBatch(st, cfg.maxLen, imgs, beg, ino)
      invariant |widthList| == |heightList| == ino - beg
      invariant forall k :: 0 <= k < ino - beg ==> widthList[k] == imgs[beg + k].cols && heightList[k] == imgs[beg + k].rows
    {
      var srcimg := imgs[ino];
      var resizeImg := st.resize(srcimg, cfg.maxLen);
      var padImg := st.pad(resizeImg, cfg.maxLen);
      normBatch := normBatch + [padImg];
      widthList := widthList + [srcimg.cols];
      heightList := heightList + [srcimg.rows];
      ino := ino + 1;
    }
    input := Pack(normBatch, cfg.maxLen, cfg.maxLen);
  }

  /** The append loop of one batch: wrap each of the first `count` tag
      sequences and push it, its score and its boxes. */
  method AppendBatch(pr: PostResult, count: nat, tags: seq<seq<string>>, scores: seq<real>, boxes: seq<seq<seq<int>>>)
    returns (tagsOut: seq<seq<string>>, scoresOut: seq<real>, boxesOut: seq<seq<seq<int>>>)
    requires count <= |pr.tags| && count <= |pr.scores| && count <= |pr.boxes|
    ensures tagsOut == tags + WrapAll(pr.tags[..count])
    ensures scoresOut == scores + pr.scores[..count]
    ensures boxesOut == boxes + pr.boxes[..count]
  {
    tagsOut, scoresOut, boxesOut := tags, scores, boxes;
    var m := 0;
    while m < count
      invariant 0 <= m <= count
      invariant tagsOut == tags + WrapAll(pr.tags[..m])
      invariant scoresOut == scores + pr.scores[..m]
      invariant boxesOut == boxes + pr.boxes[..m]
    {
      var wrapped := WrapTags(pr.tags[m]);
      assert WrapAll(pr.tags[..m + 1]) == WrapAll(pr.tags[..m]) + [wrapped];
      assert pr.scores[..m + 1] == pr.scores[..m] + [pr.scores[m]];
      assert pr.boxes[..m + 1] == pr.boxes[..m] + [pr.boxes[m]];
      tagsOut := tagsOut + [wrapped];
      scoresOut := scoresOut + [pr.scores[m]];
      boxesOut := boxesOut + [pr.boxes[m]];
      m := m + 1;
    }
  }

  /** One iteration of the batch loop; `acc` holds the caller's three
      lists. */
  method RunBatch(cfg: Config, st: Stages, imgs: seq<Mat>, beg: nat, acc: PostResult, ghost batch: nat -> PostResult)
    returns (acc': PostResult)
    requires cfg.batchNum > 0 && StagesOk(st) && beg < |imgs| && Describes(cfg, st, imgs, batch)
    ensures acc' == Concat(acc, batch(beg))
  {
    assert DescribesAt(cfg, st, imgs, batch, beg);
    var n := |imgs|;
    var e := if n < beg + cfg.batchNum then n else beg + cfg.batchNum;
    var input, widthList, heightList := Preprocess(cfg, st, imgs, beg, e);
    assert widthList == Widths(imgs, beg, e) && heightList == Heights(imgs, beg, e);
    var outs := st.engine(input);
    var pr := st.post(outs.0, outs.1, widthList, heightList);
    var count := Count(outs.0);
    var tags, scores, boxes := AppendBatch(pr, count, acc.tags, acc.scores, acc.boxes);
    acc' := PostResult(tags, scores, boxes);
  }

  /** The batch loop over the three lists; `batch` stands for what each
      batch appends. */
  method RunBatches(cfg: Config, st: Stages, imgs: seq<Mat>, elapsed: nat -> Durations, acc0: PostResult, times: seq<real>,
                    ghost batch: nat -> PostResult)
    returns (acc: PostResult, timesOut: seq<real>)
    requires cfg.batchNum > 0 && StagesOk(st)
    requires Describes(cfg, st, imgs, batch)
    ensures acc == Concat(acc0, Joined(batch, |imgs|, cfg.batchNum, 0))
    ensures timesOut == times + RunningMillis(elapsed, |Chunks(|imgs|, cfg.batchNum)|)
  {
    var n := |imgs|;
    acc, timesOut := acc0, times;
    var total := Durations(0.0, 0.0, 0.0);
    var beg := 0;
    var k := 0;
    ghost var all := Concat(acc0, Joined(batch, n, cfg.batchNum, 0));
    while beg < n
      invariant k + |ChunksFrom(beg, n, cfg.batchNum)| == |Chunks(n, cfg.batchNum)|
      invariant total == Total(elapsed, k)
      invariant timesOut == times + RunningMillis(elapsed, k)
      invariant Concat(acc, Joined(batch, n, cfg.batchNum, beg)) == all
      decreases n - beg
    {
      ghost var acc1 := acc;
      acc := RunBatch(cfg, st, imgs, beg, acc, batch);
      JoinedShift(batch, n, cfg.batchNum, beg, acc1, acc);
      ChunksFromStep(beg, n, cfg.batchNum);
      total := Add(total, elapsed(k));
      timesOut := timesOut + Millis(total);
      k := k + 1;
      beg := beg + cfg.batchNum;
    }
    ConcatEmpty(acc);
  }

  /** `StructureTableRecognizer::Run`. `elapsed(k)` stands for the phase
      durations the clock measures in batch `k`; after each batch `times`
      receives the running totals. */
  method Run(cfg: Config, st: Stages, imgs: seq<Mat>, elapsed: nat -> Durations,
             tags: seq<seq<string>>, scores: seq<real>, boxes: seq<seq<seq<int>>>, times: seq<real>)
    returns (tagsOut: seq<seq<string>>, scoresOut: seq<real>, boxesOut: seq<seq<seq<int>>>, timesOut: seq<real>)
    requires cfg.batchNum > 0 && StagesOk(st)
    ensures var r := Appended(cfg, st, imgs);
      tagsOut == tags + r.tags && scoresOut == scores + r.scores && boxesOut == boxes + r.boxes
    ensures timesOut == times + RunningMillis(elapsed, |Chunks(|imgs|, cfg.batchNum)|)
  {
    var acc;
    acc, timesOut := RunBatches(cfg, st, imgs, elapsed, PostResult(tags, scores, boxes), times, BatchFn(cfg, st, imgs));
    tagsOut, scoresOut, boxesOut := acc.tags, acc.scores, acc.boxes;
  }
}
