/** The processor of the top-level `_processor.py`: samples are appended to a
    buffer, and whenever the buffer holds `data_resolution` samples it is
    copied out and emptied; a window that passes the artifact gate is
    published as two rows, the frequencies and magnitudes of bins 2 to 49
    (`[2:50]`) at a fixed 512 Hz. The transform runs synchronously here; the
    magnitudes are an abstract function of the window. */
module RootProcessor {
  import opened Channels
  import opened Spectral
  import W = Windowing
  import Seqs

  /** `abs(real(rfft(window)))[k]`: the magnitude of bin k, abstracted. */
  type Magnitude = (seq<int>, nat) -> real

  /** The sampling rate the transform assumes. */
  const Rate: int := 512

  /** The two-row array `[x_fft, y_fft]`. */
  datatype Rows = Rows(freqs: seq<real>, mags: seq<real>)

  datatype Processor = Processor(resolution: nat, threshold: int, batch: seq<int>, out: Channel<Rows>)

  function Init(): (p: Processor)
    ensures p.resolution == 250 && p.threshold == 150 && p.batch == [] && !p.out.disposed
  {
    Processor(250, 150, [], Open())
  }

  /** Every bin of `rfftfreq(n, 2 / 512)`. */
  function FreqRow(n: nat): (r: seq<real>)
    requires n > 0
    ensures |r| == Bins(n)
  {
    seq(Bins(n), k requires k >= 0 => Freq(k, n, Rate))
  }

  function MagRow(w: seq<int>, mag: Magnitude): (r: seq<real>)
    ensures |r| == Bins(|w|)
  {
    seq(Bins(|w|), k requires k >= 0 => mag(w, k))
  }

  /** Length of the `[2:50]` slice of an n-sample spectrum. */
  function FixedLength(n: nat): nat {
    if Bins(n) <= 2 then 0 else if Bins(n) < 50 then Bins(n) - 2 else 48
  }

  /** The published rows of a window: equal length, bin i + 2 in position i. */
  function FixedRows(w: seq<int>, mag: Magnitude): (r: Rows)
    requires |w| > 0
    ensures |r.freqs| == FixedLength(|w|) && |r.mags| == FixedLength(|w|)
    ensures forall i | 0 <= i < |r.freqs| :: r.freqs[i] == Freq(i + 2, |w|, Rate)
    ensures forall i | 0 <= i < |r.mags| :: r.mags[i] == mag(w, i + 2)
  {
    Rows(Slice(FreqRow(|w|), 2, 50), Slice(MagRow(w, mag), 2, 50))
  }

  /** At the default window of 250 samples both rows hold 48 entries, and
      entry i is the frequency (i + 2) * 512 / 500 Hz. */
  lemma DefaultRows(w: seq<int>, mag: Magnitude)
    requires |w| == 250
    ensures |FixedRows(w, mag).freqs| == 48 && |FixedRows(w, mag).mags| == 48
    ensures forall i | 0 <= i < 48 :: FixedRows(w, mag).freqs[i] == (((i + 2) * 512) as real) / 500.0
  {
  }

  datatype Outcome = Rejected | Emitted(rows: Rows) | Raised

  datatype Step = Step(proc: Processor, outcome: Outcome)

  predicate Emits(p: Processor, w: seq<int>) {
    PassesGate(w, p.threshold) && !p.out.disposed
  }

  /** `_fft`: the buffer is taken and left empty; a window that passes the
      gate is published once (publishing on a disposed subject raises). */
  function Transform(p: Processor, mag: Magnitude): (r: Step)
    ensures r.proc.batch == [] && r.proc.resolution == p.resolution && r.proc.threshold == p.threshold
    ensures r.proc.out.disposed == p.out.disposed
    ensures r.outcome.Emitted? <==> Emits(p, p.batch)
    ensures r.outcome.Raised? <==> PassesGate(p.batch, p.threshold) && p.out.disposed
    ensures r.outcome.Emitted? ==>
              r.outcome.rows == FixedRows(p.batch, mag) && r.proc.out.log == p.out.log + [r.outcome.rows]
    ensures !r.outcome.Emitted? ==> r.proc.out == p.out
  {
    var w := p.batch;
    var p0 := p.(batch := []);
    if !PassesGate(w, p.threshold) then Step(p0, Rejected)
    else
      var rows := FixedRows(w, mag);
      match Publish(p.out, rows)
      case None => Step(p0, Raised)
      case Some(o) => Step(p0.(out := o), Emitted(rows))
  }

  /** `add_data`: append, and transform once the buffer is full. */
  function AddData(p: Processor, x: int, mag: Magnitude): (r: Processor)
    ensures p.out.log <= r.out.log && r.out.disposed == p.out.disposed
    ensures |p.batch| + 1 < p.resolution ==> r == p.(batch := p.batch + [x])
    ensures |p.batch| + 1 >= p.resolution ==> r == Transform(p.(batch := p.batch + [x]), mag).proc
  {
    var p' := p.(batch := p.batch + [x]);
    if |p'.batch| >= p.resolution then Transform(p', mag).proc else p'
  }

  /** `close`: disposes the `data` subject. */
  function Close(p: Processor): (r: Processor)
    ensures r.out.disposed && r.out.log == p.out.log && r.batch == p.batch
  {
    p.(out := Dispose(p.out))
  }

  /** What a sequence of windows publishes. */
  function Emissions(ws: seq<seq<int>>, p: Processor, mag: Magnitude): seq<Rows>
    decreases |ws|
  {
    if |ws| == 0 then []
    else (if Emits(p, ws[0]) then [FixedRows(ws[0], mag)] else []) + Emissions(ws[1..], p, mag)
  }

  lemma {:induction false} EmissionsConcat(a: seq<seq<int>>, b: seq<seq<int>>, p: Processor, mag: Magnitude)
    ensures Emissions(a + b, p, mag) == Emissions(a, p, mag) + Emissions(b, p, mag)
    decreases |a|
  {
    if |a| == 0 {
      assert a + b == b;
    } else {
      assert (a + b)[0] == a[0];
      assert (a + b)[1..] == a[1..] + b;
      EmissionsConcat(a[1..], b, p, mag);
    }
  }

  predicate SameConfig(p: Processor, q: Processor) {
    p.resolution == q.resolution && p.threshold == q.threshold && p.out.disposed == q.out.disposed
  }

  lemma {:induction false} EmissionsSameConfig(ws: seq<seq<int>>, p: Processor, q: Processor, mag: Magnitude)
    requires SameConfig(p, q)
    ensures Emissions(ws, p, mag) == Emissions(ws, q, mag)
    decreases |ws|
  {
    if |ws| > 0 {
      EmissionsSameConfig(ws[1..], p, q, mag);
    }
  }

  /** A positive window size and a partial buffer. */
  predicate Streaming(p: Processor) {
    p.resolution > 0 && |p.batch| < p.resolution
  }

  function Feed(p: Processor, xs: seq<int>, mag: Magnitude): Processor
    decreases |xs|
  {
    if |xs| == 0 then p else Feed(AddData(p, xs[0], mag), xs[1..], mag)
  }

  lemma FeedUnfold(p: Processor, xs: seq<int>, mag: Magnitude)
    requires |xs| > 0
    ensures Feed(p, xs, mag) == Feed(AddData(p, xs[0], mag), xs[1..], mag)
  {
  }

  lemma AddDataStep(p: Processor, x: int, mag: Magnitude)
    requires Streaming(p)
    ensures var r := AddData(p, x, mag);
            && Streaming(r) && SameConfig(p, r)
            && r.batch == W.Remainder(p.batch + [x], p.resolution)
            && r.out.log == p.out.log + Emissions(W.Chunks(p.batch + [x], p.resolution), p, mag)
  {
    var n := p.resolution;
    W.RemainderShort(p.batch, n);
    W.RemainderStep(p.batch, x, n);
    if |p.batch| + 1 == n {
      W.ChunksOfFull(p.batch + [x], n);
      assert Emissions([p.batch + [x]], p, mag)
               == if Emits(p, p.batch + [x]) then [FixedRows(p.batch + [x], mag)] else [];
    } else {
      W.RemainderShort(p.batch + [x], n);
    }
  }

  /** Fed sample by sample, the buffer holds exactly the samples of the
      unfinished window. */
  lemma {:induction false} FeedBuffer(p: Processor, xs: seq<int>, mag: Magnitude)
    requires Streaming(p)
    ensures var r := Feed(p, xs, mag);
            && Streaming(r) && SameConfig(p, r)
            && r.batch == W.Remainder(p.batch + xs, p.resolution)
    decreases |xs|
  {
    if |xs| == 0 {
      assert p.batch + xs == p.batch;
      W.RemainderShort(p.batch, p.resolution);
    } else {
      FeedUnfold(p, xs, mag);
      AddDataStep(p, xs[0], mag);
      FeedBuffer(AddData(p, xs[0], mag), xs[1..], mag);
      W.ChunksAfterFirst(p.batch, xs, p.resolution);
    }
  }

  /** Fed sample by sample, the processor publishes the rows of every
      consecutive window of `data_resolution` samples that passes the gate,
      in order, and nothing else. */
  lemma {:induction false} FeedWindows(p: Processor, xs: seq<int>, mag: Magnitude)
    requires Streaming(p)
    ensures Feed(p, xs, mag).out.log
              == p.out.log + Emissions(W.Chunks(p.batch + xs, p.resolution), p, mag)
    decreases |xs|
  {
    if |xs| == 0 {
      assert p.batch + xs == p.batch;
      W.RemainderShort(p.batch, p.resolution);
    } else {
      var p' := AddData(p, xs[0], mag);
      FeedUnfold(p, xs, mag);
      AddDataStep(p, xs[0], mag);
      FeedWindows(p', xs[1..], mag);
      W.ChunksAfterFirst(p.batch, xs, p.resolution);
      var head := W.Chunks(p.batch + [xs[0]], p.resolution);
      var tail := W.Chunks(p'.batch + xs[1..], p.resolution);
      EmissionsConcat(head, tail, p, mag);
      EmissionsSameConfig(tail, p, p', mag);
      Seqs.AppendAssoc(p.out.log, Emissions(head, p, mag), Emissions(tail, p', mag));
    }
  }
}
