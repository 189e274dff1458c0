/** Values shared by every stage: images, the tensors handed to the inference
    engine and returned by it, and the row-wise argmax every decoder uses. */
module Common {

  datatype Option<+T> = None | Some(value: T)

  function Max(a: int, b: int): int { if a < b then b else a }

  function MaxReal(a: real, b: real): real { if a < b then b else a }

  /** An image, by its geometry: the pixel values only pass through the
      resize, normalise and permute steps, which are not modelled. */
  datatype Mat = Mat(rows: nat, cols: nat)

  /** `res` holds `rs` from position `beg` on: a batch's results written
      back into the results of all images. */
  predicate SegmentIs<T(==)>(res: seq<T>, beg: nat, rs: seq<T>) {
    beg + |rs| <= |res| && forall m :: 0 <= m < |rs| ==> res[beg + m] == rs[m]
  }

  /** What a stage hands to the engine: a flat row-major buffer with its
      shape, and the images it was packed from (the packing of pixel values
      into the buffer is not modelled). */
  datatype Tensor = Tensor(batch: seq<Mat>, data: seq<real>, shape: seq<int>)

  /** What the engine returns for one output name: a flat buffer and a shape. */
  datatype Output = Output(data: seq<real>, shape: seq<int>)

  /** The element count of a shape, as `std::accumulate(..., 1, multiplies)`. */
  function Product(dims: seq<int>): int {
    if |dims| == 0 then 1 else dims[0] * Product(dims[1..])
  }

  lemma Product3(a: int, b: int, c: int)
    ensures Product([a, b, c]) == a * b * c
  {
    assert [a, b, c][1..] == [b, c] && [b, c][1..] == [c] && [c][1..] == [];
    assert Product([c]) == c * Product([]) == c;
    assert Product([b, c]) == b * c;
    assert Product([a, b, c]) == a * (b * c);
  }

  function Zeros(k: nat): (z: seq<real>)
    ensures |z| == k && forall i :: 0 <= i < k ==> z[i] == 0.0
  {
    seq(k, _ => 0.0)
  }

  lemma {:induction false} ProductNonNegative(dims: seq<int>)
    requires forall i :: 0 <= i < |dims| ==> dims[i] >= 0
    ensures Product(dims) >= 0
  {
    if |dims| > 0 {
      ProductNonNegative(dims[1..]);
    }
  }

  /** The element count of a `[b, 3, h, w]` shape. */
  lemma ShapeProduct(b: nat, h: nat, w: nat)
    ensures Product([b, 3, h, w]) == b * 3 * h * w
  {
    var shape := [b, 3, h, w];
    assert shape[1..] == [3, h, w];
    Product3(3, h, w);
  }

  /** The zero-initialised input buffer of `batch_num * 3 * h * w` values of a
      stage and its declared shape `{batch_num, 3, h, w}`: the buffer holds
      exactly as many values as the shape declares. */
  function Pack(batch: seq<Mat>, h: nat, w: nat): (t: Tensor)
    ensures t.batch == batch && t.shape == [|batch|, 3, h, w]
    ensures |t.data| == Product(t.shape)
    ensures forall i :: 0 <= i < |t.data| ==> t.data[i] == 0.0
  {
    ShapeProduct(|batch|, h, w);
    Tensor(batch, Zeros(|batch| * 3 * h * w), [|batch|, 3, h, w])
  }

  /** The index of the first largest of the first `n` values of a row. */
  function ArgMaxUpTo(row: seq<real>, n: nat): (k: nat)
    requires 0 < n <= |row|
    ensures k < n
    decreases n
  {
    if n == 1 then 0
    else
      var k := ArgMaxUpTo(row, n - 1);
      if row[k] < row[n - 1] then n - 1 else k
  }

  /** `std::distance(first, std::max_element(first, last))` over a non-empty
      row. */
  function ArgMax(row: seq<real>): (k: nat)
    requires |row| > 0
    ensures k < |row|
  {
    ArgMaxUpTo(row, |row|)
  }

  /** Among the first `n` values, the chosen one is at least as large as
      every other and strictly larger than every one before it. */
  lemma {:induction false} ArgMaxUpToIsFirstMax(row: seq<real>, n: nat)
    requires 0 < n <= |row|
    ensures forall j :: 0 <= j < n ==> row[j] <= row[ArgMaxUpTo(row, n)]
    ensures forall j :: 0 <= j < ArgMaxUpTo(row, n) ==> row[j] < row[ArgMaxUpTo(row, n)]
    decreases n
  {
    if n > 1 {
      ArgMaxUpToIsFirstMax(row, n - 1);
    }
  }

  /** `ArgMax` picks the first largest value: `std::max_element` returns the
      first of equal maxima. */
  lemma ArgMaxIsFirstMax(row: seq<real>)
    requires |row| > 0
    ensures forall j :: 0 <= j < |row| ==> row[j] <= row[ArgMax(row)]
    ensures forall j :: 0 <= j < ArgMax(row) ==> row[j] < row[ArgMax(row)]
  {
    ArgMaxUpToIsFirstMax(row, |row|);
  }

  /** `*std::max_element(first, last)`. */
  function MaxValue(row: seq<real>): real
    requires |row| > 0
  {
    row[ArgMax(row)]
  }

  /** Row `r` of a buffer read as consecutive rows of `width` values. */
  function RowAt(buf: seq<real>, width: nat, r: nat): (row: seq<real>)
    requires (r + 1) * width <= |buf|
    ensures |row| == width
  {
    buf[r * width .. (r + 1) * width]
  }

  lemma MulLe(x: nat, y: nat, k: nat)
    requires x <= y
    ensures x * k <= y * k
  {
  }

  /** Step `n` of sample `m` in a `[b, t, c]` buffer lies inside the buffer. */
  lemma StepInBuffer(b: nat, t: nat, c: nat, m: nat, n: nat)
    requires m < b && n < t
    ensures (m * t + n + 1) * c <= b * t * c
  {
    MulLe(m + 1, b, t);
    MulLe(m * t + n + 1, b * t, c);
  }

  /** Row `m` of a `[b, c]` buffer lies inside the buffer. */
  lemma RowInBuffer(b: nat, c: nat, m: nat)
    requires m < b
    ensures (m + 1) * c <= b * c
  {
    MulLe(m + 1, b, c);
  }
}
