/** `DBDetector::Run`: the image is resized and packed into a
    `1 x 3 x rows x cols` input, the engine's probability map (batch 0,
    channel 0) is copied into `pred` and into the byte map `cbuf`, the byte
    map is binarised at `det_db_thresh_ * 255` and, when `use_dilation_` is
    set, dilated with a 2 x 2 rectangle, and the boxes are extracted from the
    two maps and then filtered. */
module Detector {
  import opened Common
  import opened Batching

  /** `det_db_thresh_` and `use_dilation_`. */
  datatype Config = Config(thresh: real, useDilation: bool)

  /** What `resize_op_` yields: the resized image and `ratio_h`, `ratio_w`. */
  datatype Resized = Resized(img: Mat, ratioH: real, ratioW: real)

  /** The steps that are not part of this model: `resize_op_`, the engine,
      the float-to-byte conversion of one probability, `BoxesFromBitmap`
      (with the box threshold, unclip ratio and score mode fixed) on the
      flat probability map, its size and the bit map, and `FilterTagDetRes`
      with the ratios and the source image. */
  datatype Stages = Stages(
    resize: Mat -> Resized,
    engine: Tensor -> Output,
    toByte: real -> int,
    boxesFromBitmap: (seq<real>, nat, nat, seq<seq<int>>) -> seq<seq<seq<int>>>,
    filter: (seq<seq<seq<int>>>, real, real, Mat) -> seq<seq<seq<int>>>)

  /** An output shaped `N x C x n2 x n3` that holds at least the `n2 * n3`
      values of its first map. */
  predicate DetShape(o: Output) {
    |o.shape| == 4 && o.shape[2] >= 0 && o.shape[3] >= 0 && o.shape[2] * o.shape[3] <= |o.data|
  }

  /** The engine answers with a map, and a probability converts to a byte. */
  ghost predicate StagesOk(st: Stages) {
    && (forall t :: DetShape(st.engine(t)))
    && (forall x :: 0 <= st.toByte(x) <= 255)
  }

  /** The input of the one-image batch: `1 * 3 * rows * cols` zeros shaped
      `{1, 3, rows, cols}`. */
  function DetInput(m: Mat): (t: Tensor)
    ensures t.shape == [1, 3, m.rows as int, m.cols as int]
    ensures |t.data| == 1 * 3 * m.rows * m.cols == Product(t.shape)
  {
    Pack([m], m.rows, m.cols)
  }

  /** The byte map of the probabilities `xs`. */
  function Bytes(toByte: real -> int, xs: seq<real>): (bs: seq<int>)
    ensures |bs| == |xs|
  {
    seq(|xs|, i requires 0 <= i < |xs| => toByte(xs[i]))
  }

  /** A `rows x cols` grid. */
  predicate IsGrid(m: seq<seq<int>>, rows: nat, cols: nat) {
    |m| == rows && forall r :: 0 <= r < rows ==> |m[r]| == cols
  }

  /** Every cell is background (0) or foreground (255). */
  predicate Binary(m: seq<seq<int>>) {
    forall r, c :: 0 <= r < |m| && 0 <= c < |m[r]| ==> m[r][c] == 0 || m[r][c] == 255
  }

  /** Cell `(r, c)` of a `rows x cols` row-major buffer. */
  lemma CellInBuffer(rows: nat, cols: nat, r: nat, c: nat)
    requires r < rows && c < cols
    ensures r * cols + c < rows * cols
  {
    RowInBuffer(rows, cols, r);
  }

  /** The byte at row `r`, column `c` of the `rows x cols` byte map. */
  function ByteAt(bytes: seq<int>, rows: nat, cols: nat, r: nat, c: nat): int
    requires |bytes| == rows * cols && r < rows && c < cols
  {
    CellInBuffer(rows, cols, r, c);
    bytes[r * cols + c]
  }

  /** `THRESH_BINARY` on one byte: 255 when it is strictly above the
      threshold. */
  function ThresholdCell(byte: int, thresh: real): int {
    if byte as real > thresh * 255.0 then 255 else 0
  }

  /** The bit map of the `rows x cols` byte map `bytes`. */
  function Binarised(bytes: seq<int>, rows: nat, cols: nat, thresh: real): (m: seq<seq<int>>)
    requires |bytes| == rows * cols
    ensures IsGrid(m, rows, cols)
  {
    seq(rows, r requires 0 <= r < rows =>
      seq(cols, c requires 0 <= c < cols => ThresholdCell(ByteAt(bytes, rows, cols, r, c), thresh)))
  }

  /** A cell of the bit map is 255 exactly when its byte is strictly
      greater than `thresh * 255`, and 0 otherwise. */
  lemma BinarisedCells(bytes: seq<int>, rows: nat, cols: nat, thresh: real)
    requires |bytes| == rows * cols
    ensures forall r, c :: 0 <= r < rows && 0 <= c < cols ==>
      (Binarised(bytes, rows, cols, thresh)[r][c] == 255 <==> ByteAt(bytes, rows, cols, r, c) as real > thresh * 255.0) &&
      (Binarised(bytes, rows, cols, thresh)[r][c] == 0 <==> ByteAt(bytes, rows, cols, r, c) as real <= thresh * 255.0)
  {
    var m := Binarised(bytes, rows, cols, thresh);
    forall r, c | 0 <= r < rows && 0 <= c < cols
      ensures m[r][c] == ThresholdCell(ByteAt(bytes, rows, cols, r, c), thresh)
    {
      assert m[r] == seq(cols, c requires 0 <= c < cols => ThresholdCell(ByteAt(bytes, rows, cols, r, c), thresh));
    }
  }

  /** Every cell of the bit map is 0 or 255. */
  lemma BinarisedBinary(bytes: seq<int>, rows: nat, cols: nat, thresh: real)
    requires |bytes| == rows * cols
    ensures Binary(Binarised(bytes, rows, cols, thresh))
  {
    BinarisedCells(bytes, rows, cols, thresh);
  }

  /** Raising the threshold never adds a foreground cell. */
  lemma ThresholdMonotone(bytes: seq<int>, rows: nat, cols: nat, lo: real, hi: real)
    requires |bytes| == rows * cols && lo <= hi
    ensures forall r, c :: 0 <= r < rows && 0 <= c < cols && Binarised(bytes, rows, cols, hi)[r][c] == 255 ==>
      Binarised(bytes, rows, cols, lo)[r][c] == 255
  {
    BinarisedCells(bytes, rows, cols, lo);
    BinarisedCells(bytes, rows, cols, hi);
  }

  /** `dilate` with a 2 x 2 rectangle anchored at its centre, at one cell:
      the largest of the cell and its neighbours above, to the left and
      above-left that lie inside the grid. */
  function DilatedAt(m: seq<seq<int>>, rows: nat, cols: nat, r: nat, c: nat): int
    requires IsGrid(m, rows, cols) && r < rows && c < cols
  {
    var here := m[r][c];
    var left := if c > 0 then Max(here, m[r][c - 1]) else here;
    var up := if r > 0 then Max(left, m[r - 1][c]) else left;
    if r > 0 && c > 0 then Max(up, m[r - 1][c - 1]) else up
  }

  /** The dilated grid. */
  function Dilated(m: seq<seq<int>>, rows: nat, cols: nat): (d: seq<seq<int>>)
    requires IsGrid(m, rows, cols)
    ensures IsGrid(d, rows, cols)
  {
    seq(rows, r requires 0 <= r < rows => seq(cols, c requires 0 <= c < cols => DilatedAt(m, rows, cols, r, c)))
  }

  /** In-grid cell `(r', c')` lies under the kernel placed at `(r, c)`. */
  predicate UnderKernel(r: nat, c: nat, r': int, c': int) {
    (r' == r || r' == r - 1) && (c' == c || c' == c - 1) && r' >= 0 && c' >= 0
  }

  /** Dilation of a bit map keeps it a bit map, keeps every foreground cell,
      and makes a cell foreground exactly when the kernel placed on it covers
      a foreground cell. */
  lemma DilatedCells(m: seq<seq<int>>, rows: nat, cols: nat)
    requires IsGrid(m, rows, cols) && Binary(m)
    ensures Binary(Dilated(m, rows, cols))
    ensures forall r, c :: 0 <= r < rows && 0 <= c < cols && m[r][c] == 255 ==> Dilated(m, rows, cols)[r][c] == 255
    ensures forall r, c :: 0 <= r < rows && 0 <= c < cols ==>
      (Dilated(m, rows, cols)[r][c] == 255 <==>
       exists r', c' :: 0 <= r' < rows && 0 <= c' < cols && UnderKernel(r, c, r', c') && m[r'][c'] == 255)
  {
    var d := Dilated(m, rows, cols);
    forall r, c | 0 <= r < rows && 0 <= c < cols
      ensures d[r][c] == 0 || d[r][c] == 255
      ensures m[r][c] == 255 ==> d[r][c] == 255
      ensures d[r][c] == 255 <==>
        exists r', c' :: 0 <= r' < rows && 0 <= c' < cols && UnderKernel(r, c, r', c') && m[r'][c'] == 255
    {
      assert d[r][c] == DilatedAt(m, rows, cols, r, c);
      if d[r][c] == 255 {
        if m[r][c] == 255 {
          assert UnderKernel(r, c, r, c);
        } else if c > 0 && m[r][c - 1] == 255 {
          assert UnderKernel(r, c, r, c - 1);
        } else if r > 0 && m[r - 1][c] == 255 {
          assert UnderKernel(r, c, r - 1, c);
        } else {
          assert UnderKernel(r, c, r - 1, c - 1) && m[r - 1][c - 1] == 255;
        }
      }
    }
  }

  /** The bit map handed to box extraction. */
  function BitMap(cfg: Config, bytes: seq<int>, rows: nat, cols: nat): (m: seq<seq<int>>)
    requires |bytes| == rows * cols
    ensures IsGrid(m, rows, cols)
  {
    var b := Binarised(bytes, rows, cols, cfg.thresh);
    if cfg.useDilation then Dilated(b, rows, cols) else b
  }

  /** The bit map is a bit map; without dilation it is the thresholded map,
      and it differs from it only when dilation is on, in which case it is
      at least as large cell by cell. */
  lemma BitMapCells(cfg: Config, bytes: seq<int>, rows: nat, cols: nat)
    requires |bytes| == rows * cols
    ensures Binary(BitMap(cfg, bytes, rows, cols))
    ensures !cfg.useDilation ==> BitMap(cfg, bytes, rows, cols) == Binarised(bytes, rows, cols, cfg.thresh)
    ensures forall r, c :: 0 <= r < rows && 0 <= c < cols && Binarised(bytes, rows, cols, cfg.thresh)[r][c] == 255 ==>
      BitMap(cfg, bytes, rows, cols)[r][c] == 255
  {
    BinarisedBinary(bytes, rows, cols, cfg.thresh);
    if cfg.useDilation {
      DilatedCells(Binarised(bytes, rows, cols, cfg.thresh), rows, cols);
    }
  }

  /** The engine's output for `img`. */
  function DetOutput(st: Stages, img: Mat): Output {
    st.engine(DetInput(st.resize(img).img))
  }

  /** `n2` and `n3`, the height and width of the probability map. */
  function MapRows(o: Output): nat
    requires DetShape(o)
  {
    o.shape[2]
  }

  function MapCols(o: Output): nat
    requires DetShape(o)
  {
    o.shape[3]
  }

  /** The boxes `Run` leaves in `boxes`: extraction from `pred_map` and the
      bit map, then filtering. */
  function Boxes(cfg: Config, st: Stages, img: Mat): seq<seq<seq<int>>>
    requires StagesOk(st)
  {
    var rs := st.resize(img);
    var o := DetOutput(st, img);
    var n := MapRows(o) * MapCols(o);
    var pred := o.data[..n];
    var bitMap := BitMap(cfg, Bytes(st.toByte, pred), MapRows(o), MapCols(o));
    st.filter(st.boxesFromBitmap(pred, MapRows(o), MapCols(o), bitMap), rs.ratioH, rs.ratioW, img)
  }

  /** The copy loop: `pred[i]` and `cbuf[i]` from `out_data[i]` for the
      first `n2 * n3` values. */
  method FillMaps(o: Output, toByte: real -> int) returns (pred: array<real>, cbuf: array<int>)
    requires DetShape(o) && forall x :: 0 <= toByte(x) <= 255
    ensures pred[..] == o.data[..MapRows(o) * MapCols(o)]
    ensures cbuf[..] == Bytes(toByte, pred[..])
    ensures forall i :: 0 <= i < cbuf.Length ==> 0 <= cbuf[i] <= 255
  {
    var n := MapRows(o) * MapCols(o);
    pred := new real[n](_ => 0.0);
    cbuf := new int[n](_ => 32);
    var i := 0;
    while i < n
      invariant 0 <= i <= n
      invariant forall j :: 0 <= j < i ==> pred[j] == o.data[j] && cbuf[j] == toByte(o.data[j])
    {
      pred[i] := o.data[i];
      cbuf[i] := toByte(o.data[i]);
      i := i + 1;
    }
  }

  /** The cells of a two-dimensional array, row by row. */
  function GridOf(a: array2<int>): (m: seq<seq<int>>)
    reads a
    ensures IsGrid(m, a.Length0, a.Length1)
  {
    seq(a.Length0, r requires 0 <= r < a.Length0 reads a =>
      seq(a.Length1, c requires 0 <= c < a.Length1 reads a => a[r, c]))
  }

  /** `cv::threshold(cbuf_map, bit_map, threshold, 255, THRESH_BINARY)`. */
  method Threshold(cbuf: array<int>, rows: nat, cols: nat, thresh: real) returns (bitMap: array2<int>)
    requires cbuf.Length == rows * cols
    ensures fresh(bitMap) && bitMap.Length0 == rows && bitMap.Length1 == cols
    ensures GridOf(bitMap) == Binarised(cbuf[..], rows, cols, thresh)
  {
    bitMap := new int[rows, cols];
    ghost var b := Binarised(cbuf[..], rows, cols, thresh);
    var r := 0;
    while r < rows
      invariant 0 <= r <= rows
      invariant forall i, j :: 0 <= i < r && 0 <= j < cols ==> bitMap[i, j] == b[i][j]
    {
      var c := 0;
      while c < cols
        invariant 0 <= c <= cols
        invariant forall i, j :: 0 <= i < r && 0 <= j < cols ==> bitMap[i, j] == b[i][j]
        invariant forall j :: 0 <= j < c ==> bitMap[r, j] == b[r][j]
      {
        CellInBuffer(rows, cols, r, c);
        bitMap[r, c] := ThresholdCell(cbuf[r * cols + c], thresh);
        c := c + 1;
      }
      r := r + 1;
    }
    assert forall i :: 0 <= i < rows ==> GridOf(bitMap)[i] == b[i];
  }

  /** `cv::dilate(bit_map, bit_map, 2 x 2 rectangle)`: the source is read
      from a copy while the array is overwritten. */
  method Dilate(bitMap: array2<int>)
    modifies bitMap
    ensures GridOf(bitMap) == Dilated(old(GridOf(bitMap)), bitMap.Length0, bitMap.Length1)
  {
    var rows, cols := bitMap.Length0, bitMap.Length1;
    var src := GridOf(bitMap);
    ghost var d := Dilated(src, rows, cols);
    var r := 0;
    while r < rows
      invariant 0 <= r <= rows
      invariant forall i, j :: 0 <= i < r && 0 <= j < cols ==> bitMap[i, j] == d[i][j]
    {
      var c := 0;
      while c < cols
        invariant 0 <= c <= cols
        invariant forall i, j :: 0 <= i < r && 0 <= j < cols ==> bitMap[i, j] == d[i][j]
        invariant forall j :: 0 <= j < c ==> bitMap[r, j] == d[r][j]
      {
        bitMap[r, c] := DilatedAt(src, rows, cols, r, c);
        c := c + 1;
      }
      r := r + 1;
    }
    assert forall i :: 0 <= i < rows ==> GridOf(bitMap)[i] == d[i];
  }

  /** `DBDetector::Run`. `elapsed` stands for the three phase durations the
      clock measures; `times` receives them in milliseconds. */
  method Run(cfg: Config, st: Stages, img: Mat, elapsed: Durations, times: seq<real>)
    returns (boxes: seq<seq<seq<int>>>, timesOut: seq<real>)
    requires StagesOk(st)
    ensures boxes == Boxes(cfg, st, img)
    ensures timesOut == times + Millis(elapsed)
  {
    var rs := st.resize(img);
    var input := DetInput(rs.img);
    var o := st.engine(input);
    var n2, n3 := MapRows(o), MapCols(o);
    var pred, cbuf := FillMaps(o, st.toByte);
    var bitMap := Threshold(cbuf, n2, n3, cfg.thresh);
    if cfg.useDilation {
      Dilate(bitMap);
    }
    boxes := st.boxesFromBitmap(pred[..], n2, n3, GridOf(bitMap));
    boxes := st.filter(boxes, rs.ratioH, rs.ratioW, img);
    timesOut := times + Millis(elapsed);
  }
}
