/** Fixed-size windows over a stream of samples, the buffering every stage
    of the pipeline uses: samples are appended to a buffer, and each time
    the buffer reaches the window size it is copied out and emptied. Fed
    one sample at a time, the buffer therefore always holds the samples not
    yet handed out, and the windows handed out are consecutive chunks. */
module Windowing {
  import Seqs

  /** What is left of `xs` after whole windows are taken from its front. */
  function Remainder<T>(xs: seq<T>, size: nat): (r: seq<T>)
    requires size > 0
    ensures |r| < size && |r| <= |xs|
    decreases |xs|
  {
    if |xs| < size then xs else Remainder(xs[size..], size)
  }

  /** The whole windows of `xs`, front to back. */
  function Chunks<T>(xs: seq<T>, size: nat): (r: seq<seq<T>>)
    requires size > 0
    ensures forall i | 0 <= i < |r| :: |r[i]| == size
    decreases |xs|
  {
    if |xs| < size then []
    else [xs[..size]] + Chunks(xs[size..], size)
  }

  function Flatten<T>(xss: seq<seq<T>>): seq<T>
    decreases |xss|
  {
    if |xss| == 0 then [] else xss[0] + Flatten(xss[1..])
  }

  /** The windows and the remainder together are the input, in order:
      nothing is lost, duplicated or reordered. */
  lemma {:induction false} ChunksCover<T>(xs: seq<T>, size: nat)
    requires size > 0
    ensures Flatten(Chunks(xs, size)) + Remainder(xs, size) == xs
    decreases |xs|
  {
    if |xs| >= size {
      var a, b := xs[..size], xs[size..];
      ChunksCover(b, size);
      var f, r := Flatten(Chunks(b, size)), Remainder(b, size);
      assert Chunks(xs, size) == [a] + Chunks(b, size);
      assert Flatten(Chunks(xs, size)) == a + f by {
        assert ([a] + Chunks(b, size))[1..] == Chunks(b, size);
      }
      calc {
        Flatten(Chunks(xs, size)) + Remainder(xs, size);
        (a + f) + r;
        { Seqs.AppendAssoc(a, f, r); }
        a + (f + r);
        a + b;
        { assert xs == a + b; }
        xs;
      }
    }
  }

  lemma RemainderShort<T>(xs: seq<T>, size: nat)
    requires 0 < size && |xs| < size
    ensures Remainder(xs, size) == xs && Chunks(xs, size) == []
  {
  }

  /** One more sample either completes the pending window or joins it. */
  lemma {:induction false} RemainderStep<T>(xs: seq<T>, v: T, size: nat)
    requires size > 0
    ensures Remainder(xs + [v], size)
              == if |Remainder(xs, size)| + 1 == size then [] else Remainder(xs, size) + [v]
    decreases |xs|
  {
    if |xs| < size {
      if |xs| + 1 == size {
        assert (xs + [v])[size..] == [];
      }
    } else {
      assert (xs + [v])[size..] == xs[size..] + [v];
      RemainderStep(xs[size..], v, size);
    }
  }

  /** Taking whole windows off a prefix first changes neither the windows
      that follow nor the remainder. */
  lemma {:induction false} ChunksConcat<T>(a: seq<T>, b: seq<T>, size: nat)
    requires size > 0
    ensures Chunks(a + b, size) == Chunks(a, size) + Chunks(Remainder(a, size) + b, size)
    ensures Remainder(a + b, size) == Remainder(Remainder(a, size) + b, size)
    decreases |a|
  {
    if |a| >= size {
      assert (a + b)[size..] == a[size..] + b;
      assert (a + b)[..size] == a[..size];
      ChunksConcat(a[size..], b, size);
    } else {
      assert Chunks(a, size) == [];
    }
  }

  /** A pending window of `size - 1` samples plus one more is one window. */
  lemma ChunksOfFull<T>(w: seq<T>, size: nat)
    requires size > 0 && |w| == size
    ensures Chunks(w, size) == [w] && Remainder(w, size) == []
  {
    assert w[..size] == w;
    assert w[size..] == [];
  }

  /** Splitting the input after its first element splits its windows. */
  lemma ChunksAfterFirst<T>(b: seq<T>, xs: seq<T>, n: nat)
    requires n > 0 && |xs| > 0
    ensures Chunks(b + xs, n) == Chunks(b + [xs[0]], n) + Chunks(Remainder(b + [xs[0]], n) + xs[1..], n)
    ensures Remainder(b + xs, n) == Remainder(Remainder(b + [xs[0]], n) + xs[1..], n)
  {
    assert b + xs == (b + [xs[0]]) + xs[1..];
    ChunksConcat(b + [xs[0]], xs[1..], n);
  }
}
