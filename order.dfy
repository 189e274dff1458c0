/** `Utility::argsort`: the indices of a list of keys ordered by ascending key,
    and the scatter back through such an order with which the recognizer puts
    its results at the images' original positions. */
module Order {
  import opened Common

  predicate InRange(p: seq<nat>, n: nat) {
    forall j :: 0 <= j < |p| ==> p[j] < n
  }

  predicate Distinct(p: seq<nat>) {
    forall i, j :: 0 <= i < j < |p| ==> p[i] != p[j]
  }

  /** `p` lists each of `0 .. n-1` exactly once. */
  predicate IsPermutation(p: seq<nat>, n: nat) {
    |p| == n && InRange(p, n) && Distinct(p) && forall i :: 0 <= i < n ==> i in p
  }

  /** `p` lists distinct indices below `n`, one per position. */
  predicate Injective(p: seq<nat>, n: nat) {
    |p| == n && InRange(p, n) && Distinct(p)
  }

  /** The keys of the indices in `p` ascend. */
  predicate SortedBy(p: seq<nat>, keys: seq<real>)
    requires InRange(p, |keys|)
  {
    forall i, j :: 0 <= i < j < |p| ==> keys[p[i]] <= keys[p[j]]
  }

  /** Inserts index `x` after every index whose key is not larger. */
  function Insert(s: seq<nat>, x: nat, keys: seq<real>): (r: seq<nat>)
    requires x < |keys| && InRange(s, |keys|)
    ensures |r| == |s| + 1 && InRange(r, |keys|)
    ensures forall y :: y in r <==> y in s || y == x
    decreases |s|
  {
    if s == [] then [x]
    else if keys[x] < keys[s[0]] then [x] + s
    else
      var rest := Insert(s[1..], x, keys);
      assert forall y :: y in s <==> y == s[0] || y in s[1..];
      [s[0]] + rest
  }

  lemma {:induction false} InsertSorted(s: seq<nat>, x: nat, keys: seq<real>)
    requires x < |keys| && InRange(s, |keys|) && SortedBy(s, keys)
    ensures SortedBy(Insert(s, x, keys), keys)
    decreases |s|
  {
    if s != [] && keys[s[0]] <= keys[x] {
      InsertSorted(s[1..], x, keys);
      var rest := Insert(s[1..], x, keys);
      forall j | 0 <= j < |rest|
        ensures keys[s[0]] <= keys[rest[j]]
      {
        assert rest[j] in rest;
        if rest[j] != x {
          var i :| 0 <= i < |s[1..]| && s[1..][i] == rest[j];
          assert s[i + 1] == rest[j];
        }
      }
    }
  }

  lemma {:induction false} InsertDistinct(s: seq<nat>, x: nat, keys: seq<real>)
    requires x < |keys| && InRange(s, |keys|) && Distinct(s) && x !in s
    ensures Distinct(Insert(s, x, keys))
    decreases |s|
  {
    if s != [] && keys[s[0]] <= keys[x] {
      assert forall y :: y in s[1..] ==> y in s;
      InsertDistinct(s[1..], x, keys);
      assert forall i :: 0 <= i < |s[1..]| ==> s[1..][i] != s[0];
      assert s[0] !in Insert(s[1..], x, keys);
    }
  }

  /** The indices `0 .. k-1`, sorted by key. */
  function ArgSortPrefix(keys: seq<real>, k: nat): (r: seq<nat>)
    requires k <= |keys|
    ensures |r| == k && InRange(r, k) && InRange(r, |keys|) && Distinct(r)
    ensures forall y :: y in r <==> 0 <= y < k
    ensures SortedBy(r, keys)
    decreases k
  {
    if k == 0 then []
    else
      var s := ArgSortPrefix(keys, k - 1);
      InsertSorted(s, k - 1, keys);
      InsertDistinct(s, k - 1, keys);
      var r := Insert(s, k - 1, keys);
      assert forall j :: 0 <= j < |r| ==> r[j] in r;
      r
  }

  /** `Utility::argsort(width_list)`: a permutation of the indices of `keys`
      that lists them in ascending key order. */
  function ArgSort(keys: seq<real>): (r: seq<nat>)
    ensures IsPermutation(r, |keys|)
    ensures SortedBy(r, keys)
  {
    ArgSortPrefix(keys, |keys|)
  }

  /** What the recognizer asks of `Utility::argsort`: for every list of keys,
      a permutation of its indices along which the keys ascend. Equal keys
      may come in any order. */
  ghost predicate SortsKeys(argsort: seq<real> -> seq<nat>) {
    forall keys :: IsPermutation(argsort(keys), |keys|) && SortedBy(argsort(keys), keys)
  }

  /** `ArgSort` is such a function, so the requirement can be met. */
  lemma ArgSortSortsKeys()
    ensures SortsKeys(ArgSort)
  {
  }

  /** The values of `xs` listed in the order `p`. */
  function Gather<T>(xs: seq<T>, p: seq<nat>): (r: seq<T>)
    requires InRange(p, |xs|)
    ensures |r| == |p| && forall j :: 0 <= j < |p| ==> r[j] == xs[p[j]]
  {
    seq(|p|, j requires 0 <= j < |p| => xs[p[j]])
  }

  /** `base` after `base[p[j]] = vals[j].value` for `j = 0 .. k-1`, in that
      order, skipping every `j` without a value. */
  function ScatterSome<T>(base: seq<T>, p: seq<nat>, vals: seq<Option<T>>, k: nat): (r: seq<T>)
    requires k <= |p| && k <= |vals| && InRange(p, |base|)
    ensures |r| == |base|
    decreases k
  {
    if k == 0 then base
    else
      var prev := ScatterSome(base, p, vals, k - 1);
      if vals[k - 1].Some? then prev[p[k - 1] := vals[k - 1].value] else prev
  }

  /** Through distinct indices every present value lands at its own slot,
      and every slot no value is written to keeps its value. */
  lemma {:induction false} ScatterSomeAt<T>(base: seq<T>, p: seq<nat>, vals: seq<Option<T>>, k: nat)
    requires k <= |p| && k <= |vals| && InRange(p, |base|) && Distinct(p)
    ensures forall j :: 0 <= j < k ==>
      ScatterSome(base, p, vals, k)[p[j]] == if vals[j].Some? then vals[j].value else base[p[j]]
    ensures forall i :: 0 <= i < |base| && i !in p[..k] ==> ScatterSome(base, p, vals, k)[i] == base[i]
    decreases k
  {
    if k > 0 {
      ScatterSomeAt(base, p, vals, k - 1);
      assert forall i :: i in p[..k - 1] ==> i in p[..k];
      assert forall j :: 0 <= j < k - 1 ==> p[..k - 1][j] == p[j];
    }
  }

  /** Processing inputs in the order `p` and writing each present result
      back through `p` puts the result of every input at that input's own
      slot, whatever `p` does with ties. */
  lemma ScatterSomeGather<T>(base: seq<T>, vals: seq<Option<T>>, p: seq<nat>)
    requires |base| == |vals| && IsPermutation(p, |vals|)
    ensures forall i :: 0 <= i < |vals| ==>
      ScatterSome(base, p, Gather(vals, p), |p|)[i] == if vals[i].Some? then vals[i].value else base[i]
  {
    var g := Gather(vals, p);
    ScatterSomeAt(base, p, g, |p|);
    forall i | 0 <= i < |vals|
      ensures ScatterSome(base, p, g, |p|)[i] == if vals[i].Some? then vals[i].value else base[i]
    {
      assert i in p;
      var j :| 0 <= j < |p| && p[j] == i;
    }
  }
}
