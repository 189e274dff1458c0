/** Greedy CTC decoding of one sample of a `[batch, steps, classes]`
    probability buffer, as `CRNNRecognizer::Run` does it. Class 0 is the
    blank. */
module Ctc {
  import opened Common

  /** Step `n` is kept: its argmax is not the blank and, unless it is the
      first step, differs from the argmax of the step just before, whether or
      not that step was kept. */
  predicate Kept(ids: seq<nat>, n: nat)
    requires n < |ids|
  {
    ids[n] > 0 && !(n > 0 && ids[n] == ids[n - 1])
  }

  /** The argmax indices of the kept steps, in step order. */
  function Collapse(ids: seq<nat>): (r: seq<nat>)
    ensures |r| <= |ids|
    decreases |ids|
  {
    if |ids| == 0 then []
    else Collapse(ids[..|ids| - 1]) + (if Kept(ids, |ids| - 1) then [ids[|ids| - 1]] else [])
  }

  /** Every kept symbol is one of the step argmaxes, so it stays below any
      bound they stay below (`label_list_` is only indexed in range). */
  lemma {:induction false} CollapseBelow(ids: seq<nat>, bound: nat)
    requires forall n :: 0 <= n < |ids| ==> ids[n] < bound
    ensures forall k :: 0 <= k < |Collapse(ids)| ==> Collapse(ids)[k] < bound
    decreases |ids|
  {
    if |ids| > 0 {
      CollapseBelow(ids[..|ids| - 1], bound);
    }
  }

  /** The blank never reaches the output. */
  lemma {:induction false} CollapseHasNoBlank(ids: seq<nat>)
    ensures forall k :: 0 <= k < |Collapse(ids)| ==> Collapse(ids)[k] != 0
    decreases |ids|
  {
    if |ids| > 0 {
      CollapseHasNoBlank(ids[..|ids| - 1]);
    }
  }

  /** The textbook first pass of greedy CTC: each run of equal consecutive
      argmaxes becomes one, blanks included. */
  function MergeRepeats(ids: seq<nat>): (r: seq<nat>)
    ensures |r| <= |ids|
    ensures |ids| > 0 ==> |r| > 0 && r[|r| - 1] == ids[|ids| - 1]
    decreases |ids|
  {
    if |ids| == 0 then []
    else if |ids| > 1 && ids[|ids| - 1] == ids[|ids| - 2] then MergeRepeats(ids[..|ids| - 1])
    else MergeRepeats(ids[..|ids| - 1]) + [ids[|ids| - 1]]
  }

  /** The textbook second pass: every blank removed, the rest in order. */
  function DropBlanks(ids: seq<nat>): (r: seq<nat>)
    ensures |r| <= |ids|
    decreases |ids|
  {
    if |ids| == 0 then []
    else DropBlanks(ids[..|ids| - 1]) + (if ids[|ids| - 1] != 0 then [ids[|ids| - 1]] else [])
  }

  /** The step-by-step decode is standard greedy CTC: merge the repeats,
      then drop the blanks. */
  lemma {:induction false} CollapseIsMergeThenDrop(ids: seq<nat>)
    ensures Collapse(ids) == DropBlanks(MergeRepeats(ids))
    decreases |ids|
  {
    if |ids| > 0 {
      var n := |ids| - 1;
      var prev := ids[..n];
      assert ids[..|ids| - 1] == prev;
      CollapseIsMergeThenDrop(prev);
      var merged := MergeRepeats(prev);
      if n > 0 && ids[n] == ids[n - 1] {
        assert MergeRepeats(ids) == merged;
        assert !Kept(ids, n);
      } else {
        assert MergeRepeats(ids) == merged + [ids[n]];
        assert (merged + [ids[n]])[..|merged|] == merged;
      }
    }
  }

  /** The sum of the maxima of the kept steps. */
  function KeptSum(ids: seq<nat>, maxes: seq<real>): real
    requires |ids| == |maxes|
    decreases |ids|
  {
    if |ids| == 0 then 0.0
    else
      KeptSum(ids[..|ids| - 1], maxes[..|maxes| - 1])
      + (if Kept(ids, |ids| - 1) then maxes[|maxes| - 1] else 0.0)
  }

  /** The labels of `syms`, concatenated. */
  function Spell(labels: seq<string>, syms: seq<nat>): string
    requires forall k :: 0 <= k < |syms| ==> syms[k] < |labels|
    decreases |syms|
  {
    if |syms| == 0 then "" else Spell(labels, syms[..|syms| - 1]) + labels[syms[|syms| - 1]]
  }

  /** The text of the kept steps of an argmax sequence whose indices all name
      a label. */
  function Decoded(labels: seq<string>, ids: seq<nat>): string
    requires forall n :: 0 <= n < |ids| ==> ids[n] < |labels|
  {
    CollapseBelow(ids, |labels|);
    Spell(labels, Collapse(ids))
  }

  /** The classes of step `n` of sample `m`. */
  function StepRow(buf: seq<real>, b: nat, t: nat, c: nat, m: nat, n: nat): (row: seq<real>)
    requires m < b && n < t && |buf| == b * t * c
    ensures |row| == c
  {
    StepInBuffer(b, t, c, m, n);
    RowAt(buf, c, m * t + n)
  }

  /** `Utility::argmax` over the classes of every step of sample `m`. */
  function StepIds(buf: seq<real>, b: nat, t: nat, c: nat, m: nat): (ids: seq<nat>)
    requires m < b && c > 0 && |buf| == b * t * c
    ensures |ids| == t && forall n :: 0 <= n < t ==> ids[n] < c
  {
    seq(t, n requires 0 <= n < t => ArgMax(StepRow(buf, b, t, c, m, n)))
  }

  /** `*std::max_element` over the classes of every step of sample `m`. */
  function StepMaxes(buf: seq<real>, b: nat, t: nat, c: nat, m: nat): (maxes: seq<real>)
    requires m < b && c > 0 && |buf| == b * t * c
    ensures |maxes| == t
  {
    seq(t, n requires 0 <= n < t => MaxValue(StepRow(buf, b, t, c, m, n)))
  }

  /** One more step extends the collapse, its text and its score by that
      step alone, when it is kept. */
  lemma StepExtends(labels: seq<string>, ids: seq<nat>, maxes: seq<real>, n: nat)
    requires n < |ids| == |maxes|
    requires forall i :: 0 <= i < |ids| ==> ids[i] < |labels|
    ensures Collapse(ids[..n + 1]) == Collapse(ids[..n]) + (if Kept(ids, n) then [ids[n]] else [])
    ensures Decoded(labels, ids[..n + 1]) == Decoded(labels, ids[..n]) + (if Kept(ids, n) then labels[ids[n]] else "")
    ensures KeptSum(ids[..n + 1], maxes[..n + 1]) == KeptSum(ids[..n], maxes[..n]) + (if Kept(ids, n) then maxes[n] else 0.0)
  {
    assert ids[..n + 1][..n] == ids[..n] && maxes[..n + 1][..n] == maxes[..n];
    assert Kept(ids[..n + 1], n) == Kept(ids, n);
    var prev := Collapse(ids[..n]);
    CollapseBelow(ids[..n], |labels|);
    CollapseBelow(ids[..n + 1], |labels|);
    assert Decoded(labels, ids[..n]) == Spell(labels, prev);
    assert Decoded(labels, ids[..n + 1]) == Spell(labels, Collapse(ids[..n + 1]));
    if Kept(ids, n) {
      assert (prev + [ids[n]])[..|prev|] == prev;
      assert Spell(labels, prev + [ids[n]]) == Spell(labels, prev) + labels[ids[n]];
    } else {
      assert prev + [] == prev;
    }
  }

  /** Reads the argmax and the maximum of step `n` of sample `m`: `idx`
      names a class, `maxValue` is its probability, no class of the step
      scores higher and every class before `idx` scores lower (the first
      maximum, as `std::max_element` picks it). */
  method ReadStep(buf: seq<real>, b: nat, t: nat, c: nat, m: nat, n: nat) returns (idx: nat, maxValue: real)
    requires m < b && n < t && c > 0 && |buf| == b * t * c
    ensures idx < c && maxValue == StepRow(buf, b, t, c, m, n)[idx]
    ensures forall j :: 0 <= j < c ==> StepRow(buf, b, t, c, m, n)[j] <= maxValue
    ensures forall j :: 0 <= j < idx ==> StepRow(buf, b, t, c, m, n)[j] < maxValue
    ensures idx == StepIds(buf, b, t, c, m)[n] && maxValue == StepMaxes(buf, b, t, c, m)[n]
  {
    var row := StepRow(buf, b, t, c, m, n);
    idx := ArgMax(row);
    maxValue := MaxValue(row);
    ArgMaxIsFirstMax(row);
  }

  /** The inner loop of the decode: walks the steps of sample `m`, keeping
      the running `str_res`, `score`, `count` and `last_index`. */
  method DecodeSample(buf: seq<real>, b: nat, t: nat, c: nat, m: nat, labels: seq<string>)
    returns (text: string, score: real, count: nat)
    requires m < b && 0 < c <= |labels| && |buf| == b * t * c
    ensures count == |Collapse(StepIds(buf, b, t, c, m))|
    ensures text == Decoded(labels, StepIds(buf, b, t, c, m))
    ensures score == KeptSum(StepIds(buf, b, t, c, m), StepMaxes(buf, b, t, c, m))
  {
    ghost var ids := StepIds(buf, b, t, c, m);
    ghost var maxes := StepMaxes(buf, b, t, c, m);
    text, score, count := "", 0.0, 0;
    var lastIndex := 0;
    var n := 0;
    while n < t
      invariant 0 <= n <= t
      invariant count == |Collapse(ids[..n])|
      invariant text == Decoded(labels, ids[..n])
      invariant score == KeptSum(ids[..n], maxes[..n])
      invariant n > 0 ==> lastIndex == ids[n - 1]
    {
      var argmaxIdx, maxValue := ReadStep(buf, b, t, c, m, n);
      StepExtends(labels, ids, maxes, n);
      if argmaxIdx > 0 && !(n > 0 && argmaxIdx == lastIndex) {
        score := score + maxValue;
        count := count + 1;
        text := text + labels[argmaxIdx];
      }
      lastIndex := argmaxIdx;
      n := n + 1;
    }
    assert ids[..t] == ids && maxes[..t] == maxes;
  }

  /** A blank between two equal symbols keeps both. */
  lemma BlankSeparatesRepeats(a: nat)
    requires a > 0
    ensures Collapse([a, 0, a]) == [a, a]
  {
    assert [a, 0, a][..2] == [a, 0] && [a, 0][..1] == [a] && [a][..0] == [];
    assert Collapse([a]) == [a];
    assert Collapse([a, 0]) == [a];
  }

  /** Equal symbols on consecutive steps collapse to one. */
  lemma RepeatCollapses(a: nat)
    requires a > 0
    ensures Collapse([a, a]) == [a]
  {
    assert [a, a][..1] == [a] && [a][..0] == [];
    assert Collapse([a]) == [a];
  }

  /** Argmax sequence `[0, 2, 2, 0, 3]` decodes to `[2, 3]`. */
  lemma FiveStepExample()
    ensures Collapse([0, 2, 2, 0, 3]) == [2, 3]
  {
    assert [0][..0] == [] && Collapse([0]) == [];
    assert [0, 2][..1] == [0] && Collapse([0, 2]) == [2];
    assert [0, 2, 2][..2] == [0, 2] && Collapse([0, 2, 2]) == [2];
    assert [0, 2, 2, 0][..3] == [0, 2, 2] && Collapse([0, 2, 2, 0]) == [2];
    assert [0, 2, 2, 0, 3][..4] == [0, 2, 2, 0];
  }

  /** Over the same argmaxes, the score sums the maxima of steps 1 and 4
      only, the two steps kept; with two symbols decoded, the sample's score
      is their mean. */
  lemma FiveStepKeptSum(maxes: seq<real>)
    requires |maxes| == 5
    ensures KeptSum([0, 2, 2, 0, 3], maxes) == maxes[1] + maxes[4]
  {
    var ids: seq<nat> := [0, 2, 2, 0, 3];
    assert ids[..4] == [0, 2, 2, 0] && maxes[..4][..3] == maxes[..3];
    assert ids[..4][..3] == [0, 2, 2] && maxes[..3][..2] == maxes[..2];
    assert ids[..4][..3][..2] == [0, 2] && maxes[..2][..1] == maxes[..1];
    assert ids[..4][..3][..2][..1] == [0] && maxes[..1][..0] == [];
    assert KeptSum([0], maxes[..1]) == 0.0;
    assert KeptSum([0, 2], maxes[..2]) == maxes[1];
    assert KeptSum([0, 2, 2], maxes[..3]) == maxes[1];
    assert KeptSum([0, 2, 2, 0], maxes[..4]) == maxes[1];
  }

  /** Collapsing twice is not collapsing once: the blank that kept two equal
      symbols apart is gone after the first pass. */
  lemma CollapseNotIdempotent()
    ensures Collapse(Collapse([2, 0, 2])) != Collapse([2, 0, 2])
  {
    BlankSeparatesRepeats(2);
    RepeatCollapses(2);
  }

  /** A sequence without blanks and without equal neighbours is its own
      collapse; on such sequences collapsing again changes nothing. */
  lemma {:induction false} CollapseFixpoint(ids: seq<nat>)
    requires forall n :: 0 <= n < |ids| ==> ids[n] > 0
    requires forall n :: 0 < n < |ids| ==> ids[n] != ids[n - 1]
    ensures Collapse(ids) == ids
    decreases |ids|
  {
    if |ids| > 0 {
      var front := ids[..|ids| - 1];
      CollapseFixpoint(front);
      assert front + [ids[|ids| - 1]] == ids;
    }
  }

  /** With every step maximum in `[lo, hi]` the sum of the kept maxima lies
      between `count * lo` and `count * hi`: the mean score stays in the range
      of the step maxima. */
  lemma {:induction false} KeptSumBounds(ids: seq<nat>, maxes: seq<real>, lo: real, hi: real)
    requires |ids| == |maxes|
    requires forall n :: 0 <= n < |maxes| ==> lo <= maxes[n] <= hi
    ensures |Collapse(ids)| as real * lo <= KeptSum(ids, maxes) <= |Collapse(ids)| as real * hi
    decreases |ids|
  {
    if |ids| > 0 {
      KeptSumBounds(ids[..|ids| - 1], maxes[..|maxes| - 1], lo, hi);
    }
  }
}
