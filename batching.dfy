/** Cutting a list of records into consecutive slices of bounded size, as the
    upsert loop of index.js:76-81 does. */
module Batching {

  function Min(a: int, b: int): int {
    if a <= b then a else b
  }

  /** The consecutive slices of at most `size` elements that make up `xs`. */
  function Batches<T>(xs: seq<T>, size: nat): seq<seq<T>>
    requires size > 0
    decreases |xs|
  {
    if xs == [] then []
    else if |xs| <= size then [xs]
    else [xs[..size]] + Batches(xs[size..], size)
  }

  /** The batches joined back together in order. */
  function Concat<T>(bs: seq<seq<T>>): seq<T>
    decreases |bs|
  {
    if bs == [] then [] else bs[0] + Concat(bs[1..])
  }

  lemma {:induction false} ConcatAppend<T>(a: seq<seq<T>>, b: seq<seq<T>>)
    ensures Concat(a + b) == Concat(a) + Concat(b)
  {
    if a == [] {
      assert a + b == b;
    } else {
      assert (a + b)[1..] == a[1..] + b;
      ConcatAppend(a[1..], b);
    }
  }

  /** Joining the batches in order gives back exactly the input: nothing is
      dropped, duplicated or reordered. */
  lemma {:induction false} ConcatBatches<T>(xs: seq<T>, size: nat)
    requires size > 0
    ensures Concat(Batches(xs, size)) == xs
    decreases |xs|
  {
    if xs == [] {
    } else if |xs| <= size {
      assert Concat([xs]) == xs + Concat([]);
    } else {
      ConcatBatches(xs[size..], size);
      assert xs == xs[..size] + xs[size..];
    }
  }

  /** There are ceil(|xs| / size) batches (the least count whose multiple of
      `size` covers |xs|); each is non-empty and holds at most `size`
      elements, and every batch but the last holds exactly `size`. */
  lemma {:induction false} BatchSizes<T>(xs: seq<T>, size: nat)
    requires size > 0
    ensures |Batches(xs, size)| * size - size < |xs| <= |Batches(xs, size)| * size
    ensures forall k :: 0 <= k < |Batches(xs, size)| ==> 0 < |Batches(xs, size)[k]| <= size
    ensures forall k :: 0 <= k < |Batches(xs, size)| - 1 ==> |Batches(xs, size)[k]| == size
    decreases |xs|
  {
    if |xs| > size {
      var rest := Batches(xs[size..], size);
      BatchSizes(xs[size..], size);
      assert (|rest| + 1) * size == |rest| * size + size;
    }
  }

  /** Batch number `k` (from 0) is the slice of `xs` that starts at `k * size`
      and ends `size` later or at the end of `xs`, whichever comes first. */
  lemma {:induction false} BatchAt<T>(xs: seq<T>, size: nat, k: nat)
    requires size > 0
    requires k < |Batches(xs, size)|
    ensures k * size < |xs|
    ensures Batches(xs, size)[k] == xs[k * size .. Min(k * size + size, |xs|)]
    decreases |xs|
  {
    if k > 0 {
      var rest := xs[size..];
      assert Batches(xs, size) == [xs[..size]] + Batches(rest, size);
      assert Batches(xs, size)[k] == Batches(rest, size)[k - 1];
      BatchAt(rest, size, k - 1);
      var start := (k - 1) * size;
      assert k * size == start + size;
      assert Min(start + size, |rest|) + size == Min(k * size + size, |xs|);
      assert rest[start .. Min(start + size, |rest|)] == xs[k * size .. Min(k * size + size, |xs|)];
    }
  }

  /** Batch `k` exists exactly when `k * size` is below |xs|: the source's
      `for` loop, which steps `i` by `size` while `i < |xs|`, runs once per batch. */
  lemma {:induction false} BatchCountBound<T>(xs: seq<T>, size: nat, k: nat)
    requires size > 0
    ensures k < |Batches(xs, size)| <==> k * size < |xs|
    decreases |xs|
  {
    if k > 0 {
      assert k * size == (k - 1) * size + size;
      if |xs| > size {
        BatchCountBound(xs[size..], size, k - 1);
      } else {
        assert (k - 1) * size >= 0;
      }
    }
  }
}
