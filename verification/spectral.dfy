/** The integer side of the processors' transform: the artifact gate on a
    window, the count of `rfftfreq` bins below 50 Hz, Python's half-to-even
    rounding to a multiple of ten, and slice lengths. Bin k of
    `rfftfreq(n, 2 / fs)` is the frequency k * fs / (2 * n); there are
    n / 2 + 1 bins. */
module Spectral {

  function Max(w: seq<int>): (r: int)
    requires |w| > 0
    ensures forall i | 0 <= i < |w| :: w[i] <= r
    ensures exists i | 0 <= i < |w| :: w[i] == r
    decreases |w|
  {
    if |w| == 1 then w[0]
    else
      var m := Max(w[1..]);
      assert forall i | 1 <= i < |w| :: w[i] == w[1..][i - 1];
      if w[0] >= m then w[0] else m
  }

  function Min(w: seq<int>): (r: int)
    requires |w| > 0
    ensures forall i | 0 <= i < |w| :: r <= w[i]
    ensures exists i | 0 <= i < |w| :: w[i] == r
    decreases |w|
  {
    if |w| == 1 then w[0]
    else
      var m := Min(w[1..]);
      assert forall i | 1 <= i < |w| :: w[i] == w[1..][i - 1];
      if w[0] <= m then w[0] else m
  }

  /** The gate as the processors write it: a non-empty window whose maximum
      is below the threshold OR whose minimum is above its negation. */
  predicate PassesGate(w: seq<int>, threshold: int) {
    |w| > 0 && (threshold > Max(w) || -threshold < Min(w))
  }

  /** The gate in terms of the samples: a window passes when it lies wholly
      below the threshold or wholly above its negation, so it is rejected
      only when one sample reaches the threshold and another reaches its
      negation. */
  lemma GateBySamples(w: seq<int>, threshold: int)
    ensures PassesGate(w, threshold) <==>
              |w| > 0 && ((forall i | 0 <= i < |w| :: w[i] < threshold)
                          || (forall i | 0 <= i < |w| :: w[i] > -threshold))
  {
    if |w| > 0 {
      var M := Max(w);
      var m := Min(w);
      var iM :| 0 <= iM < |w| && w[iM] == M;
      var im :| 0 <= im < |w| && w[im] == m;
    }
  }

  /** A window with a single large excursion on one side passes. */
  lemma GateAdmitsOneSidedArtifact()
    ensures PassesGate([200, 0], 150)
    ensures PassesGate([-200, 0], 150)
    ensures !PassesGate([200, -200], 150)
  {
    assert [200, 0][1..] == [0];
    assert [-200, 0][1..] == [0];
    assert [200, -200][1..] == [-200];
  }

  /** Frequency of bin k of `rfftfreq(n, 2 / fs)`. */
  function Freq(k: nat, n: nat, fs: int): real
    requires n > 0
  {
    ((k * fs) as real) / ((2 * n) as real)
  }

  /** The reference count: bins 0 .. m - 1 whose frequency is below 50 Hz. */
  function CountBelow50(m: nat, n: nat, fs: int): (r: nat)
    requires n > 0
    ensures r <= m
  {
    if m == 0 then 0
    else CountBelow50(m - 1, n, fs) + (if Freq(m - 1, n, fs) < 50.0 then 1 else 0)
  }

  /** Number of bins: `len(rfftfreq(n, d))`. */
  function Bins(n: nat): nat {
    n / 2 + 1
  }

  /** The bin count below 50 Hz in closed form. For a positive rate a bin k
      is below 50 Hz exactly when k * fs <= 100 * n - 1; for a negative rate
      every frequency is non-positive. */
  function BinsBelow50(n: nat, fs: int): (r: nat)
    requires n > 0 && fs != 0
    ensures r == CountBelow50(Bins(n), n, fs)
  {
    BinsBelow50Correct(n, fs);
    if fs < 0 then Bins(n)
    else if (100 * n - 1) / fs + 1 < Bins(n) then (100 * n - 1) / fs + 1 else Bins(n)
  }

  lemma FreqBelow50(k: nat, n: nat, fs: int)
    requires n > 0
    ensures Freq(k, n, fs) < 50.0 <==> k * fs < 100 * n
  {
    RealQuotientBelow(k * fs, 2 * n, 50);
  }

  /** For a positive denominator, a / d < c exactly when a < c * d. */
  lemma RealQuotientBelow(a: int, d: int, c: int)
    requires d > 0
    ensures (a as real) / (d as real) < (c as real) <==> a < c * d
  {
    var q := (a as real) / (d as real);
    assert q * (d as real) == a as real;
    assert ((c * d) as real) == (c as real) * (d as real);
    if q < c as real {
      assert q * (d as real) < (c as real) * (d as real);
    } else {
      assert q * (d as real) >= (c as real) * (d as real);
    }
  }

  lemma DivBound(k: nat, a: nat, fs: int)
    requires fs > 0
    ensures k * fs <= a <==> k <= a / fs
  {
    var q := a / fs;
    assert a == q * fs + a % fs;
    if k <= q {
      assert k * fs <= q * fs;
    } else {
      assert k >= q + 1;
      assert k * fs >= (q + 1) * fs;
    }
  }

  /** Counting a downward-closed set of bins: those with k <= b. */
  lemma {:induction false} CountPrefix(m: nat, n: nat, fs: int, b: int)
    requires n > 0 && b >= -1
    requires forall k: nat | k < m :: Freq(k, n, fs) < 50.0 <==> k <= b
    ensures CountBelow50(m, n, fs) == if m <= b + 1 then m else b + 1
  {
    if m > 0 {
      CountPrefix(m - 1, n, fs, b);
    }
  }

  lemma BinsBelow50Correct(n: nat, fs: int)
    requires n > 0 && fs != 0
    ensures CountBelow50(Bins(n), n, fs)
              == if fs < 0 then Bins(n)
                 else if (100 * n - 1) / fs + 1 < Bins(n) then (100 * n - 1) / fs + 1 else Bins(n)
  {
    if fs < 0 {
      forall k: nat ensures Freq(k, n, fs) < 50.0 {
        FreqBelow50(k, n, fs);
        assert k * fs <= 0;
      }
      CountPrefix(Bins(n), n, fs, Bins(n) - 1);
    } else {
      var b := (100 * n - 1) / fs;
      forall k: nat ensures Freq(k, n, fs) < 50.0 <==> k <= b {
        FreqBelow50(k, n, fs);
        DivBound(k, 100 * n - 1, fs);
      }
      CountPrefix(Bins(n), n, fs, b);
    }
  }

  /** Python `round(c, -1)` on an integer: the nearest multiple of ten,
      ties going to the even multiple. */
  function RoundTen(c: nat): (r: nat)
    ensures r % 10 == 0
    ensures c - 5 <= r <= c + 5
    ensures c % 10 != 5 ==> c - 5 < r < c + 5
    ensures c % 10 == 5 ==> (r / 10) % 2 == 0
  {
    var q := c / 10;
    var m := c % 10;
    if m < 5 then 10 * q
    else if m > 5 then 10 * (q + 1)
    else if q % 2 == 0 then 10 * q
    else 10 * (q + 1)
  }

  /** The slice length of `src/neurosky/processor.py`: 48 when live, else
      the rounded count of bins below 50 Hz. */
  function SliceSize(live: bool, n: nat, fs: int): (r: nat)
    requires n > 0 && fs != 0
    ensures live ==> r == 48
    ensures !live ==> r % 10 == 0 && CountBelow50(Bins(n), n, fs) - 5 <= r <= CountBelow50(Bins(n), n, fs) + 5
    ensures !live ==> r == RoundTen(CountBelow50(Bins(n), n, fs))
  {
    if live then 48 else RoundTen(BinsBelow50(n, fs))
  }

  /** At the default 250-sample window and 512 Hz, 49 bins lie below 50 Hz
      and the slice is 50 bins long. */
  lemma DefaultSlice()
    ensures BinsBelow50(250, 512) == 49
    ensures SliceSize(false, 250, 512) == 50
  {
  }

  /** Python `xs[lo:hi]` for non-negative bounds. */
  function Slice<T>(xs: seq<T>, lo: nat, hi: nat): (r: seq<T>)
    ensures |r| == if lo < hi && lo < |xs| then (if hi < |xs| then hi else |xs|) - lo else 0
    ensures forall i | 0 <= i < |r| :: r[i] == xs[lo + i]
  {
    var top := if hi < |xs| then hi else |xs|;
    if lo < top then xs[lo..top] else []
  }

  /** The `[2:50]` slice of an n-sample spectrum is 48 bins long whenever
      the window has at least 98 samples, in particular at 250. */
  lemma FixedSliceLength<T>(xs: seq<T>)
    requires |xs| >= 50
    ensures |Slice(xs, 2, 50)| == 48
  {
  }
}
