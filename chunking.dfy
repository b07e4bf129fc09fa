/** The slice generator `_chunked` of the WaniKani provider, and the flattening
    that undoes it. */
module Chunking {

  function Min(a: int, b: int): int
  {
    if a <= b then a else b
  }

  /** Concatenation, in order, of a sequence of sequences. */
  function Flatten<T>(xss: seq<seq<T>>): seq<T>
  {
    if xss == [] then [] else xss[0] + Flatten(xss[1..])
  }

  lemma {:induction false} FlattenAppend<T>(xss: seq<seq<T>>, ys: seq<T>)
    ensures Flatten(xss + [ys]) == Flatten(xss) + ys
  {
    if xss == [] {
      assert xss + [ys] == [ys];
    } else {
      assert (xss + [ys])[1..] == xss[1..] + [ys];
      FlattenAppend(xss[1..], ys);
    }
  }

  /** The slices `xs[i:i+size]`, `xs[i+size:i+2*size]`, ... that `_chunked` yields
      for the offsets `i, i+size, ...` of `range(i, len(xs), size)`; a slice that
      runs past the end is cut short, as a Python slice is. */
  function ChunksFrom<T>(xs: seq<T>, size: nat, i: nat): (r: seq<seq<T>>)
    requires size > 0
    ensures i >= |xs| <==> r == []
    ensures i < |xs| ==> (|r| - 1) * size < |xs| - i <= |r| * size
    ensures forall k :: 0 <= k < |r| ==> 0 < |r[k]| <= size
    ensures forall k :: 0 <= k < |r| - 1 ==> |r[k]| == size
    decreases |xs| - i
  {
    if i >= |xs| then []
    else [xs[i..Min(i + size, |xs|)]] + ChunksFrom(xs, size, i + size)
  }

  /** `_chunked(xs, size)`: consecutive slices of at most `size` elements. Every
      chunk is non-empty, holds at most `size` elements, and all but the last
      hold exactly `size`; there are `ceil(|xs| / size)` of them. */
  function Chunked<T>(xs: seq<T>, size: nat): (r: seq<seq<T>>)
    requires size > 0
    ensures |r| == (|xs| + size - 1) / size
    ensures xs == [] <==> r == []
    ensures forall k :: 0 <= k < |r| ==> 0 < |r[k]| <= size
    ensures forall k :: 0 <= k < |r| - 1 ==> |r[k]| == size
  {
    var r := ChunksFrom(xs, size, 0);
    CeilingDivision(|xs|, size, |r|);
    r
  }

  /** `k` is the ceiling of `n / size` when `k - 1` chunks are too few and `k` enough. */
  lemma CeilingDivision(n: nat, size: nat, k: nat)
    requires size > 0
    requires n == 0 ==> k == 0
    requires n > 0 ==> (k - 1) * size < n <= k * size
    ensures k == (n + size - 1) / size
  {
    var q, rem := (n + size - 1) / size, (n + size - 1) % size;
    assert n + size - 1 == q * size + rem && 0 <= rem < size;
    if q > k {
      MultiplyMonotone(k + 1, q, size);
    } else if q < k {
      MultiplyMonotone(q, k - 1, size);
    }
  }

  lemma MultiplyMonotone(a: int, b: int, c: nat)
    requires a <= b
    ensures a * c <= b * c
  {
  }

  /** Concatenating the chunks from offset `i` gives back the rest of `xs` from `i`. */
  lemma {:induction false} FlattenChunksFrom<T>(xs: seq<T>, size: nat, i: nat)
    requires size > 0 && i <= |xs|
    ensures Flatten(ChunksFrom(xs, size, i)) == xs[i..]
    decreases |xs| - i
  {
    if i < |xs| {
      var j := Min(i + size, |xs|);
      var r := ChunksFrom(xs, size, i);
      assert r[1..] == ChunksFrom(xs, size, i + size);
      if i + size <= |xs| {
        FlattenChunksFrom(xs, size, i + size);
      } else {
        assert ChunksFrom(xs, size, i + size) == [];
      }
      assert xs[i..] == xs[i..j] + xs[j..];
    }
  }

  /** Round trip: concatenating all chunks in order yields exactly the input. */
  lemma FlattenChunked<T>(xs: seq<T>, size: nat)
    requires size > 0
    ensures Flatten(Chunked(xs, size)) == xs
  {
    FlattenChunksFrom(xs, size, 0);
  }

  /** The chunk at position `k` of the chunks from offset `i` is the slice at
      offset `i + k * size`. */
  lemma {:induction false} ChunksFromAt<T>(xs: seq<T>, size: nat, i: nat, k: nat)
    requires size > 0 && k < |ChunksFrom(xs, size, i)|
    ensures i + k * size < |xs|
    ensures ChunksFrom(xs, size, i)[k] == xs[i + k * size..Min(i + k * size + size, |xs|)]
    decreases k
  {
    if k > 0 {
      ChunksFromAt(xs, size, i + size, k - 1);
      assert i + size + (k - 1) * size == i + k * size;
    }
  }

  /** The `k`-th chunk is `xs[k*size : k*size+size]`, the slice `_chunked` yields for
      the `k`-th offset of `range(0, len(xs), size)`. */
  lemma ChunkedAt<T>(xs: seq<T>, size: nat, k: nat)
    requires size > 0 && k < |Chunked(xs, size)|
    ensures k * size < |xs|
    ensures Chunked(xs, size)[k] == xs[k * size..Min(k * size + size, |xs|)]
  {
    ChunksFromAt(xs, size, 0, k);
  }
}
