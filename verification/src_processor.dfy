/** The processor of `src/neurosky/processor.py`. Samples are buffered; a
    full buffer of `data_resolution` samples is copied out, emptied, passed
    through the artifact gate and turned into one magnitude vector, which is
    stored as `processed_data` and published on `data`. In batch mode the
    buffer is filled by `fft(batch)` instead, which runs exactly one
    transform. The transform runs synchronously here; its magnitudes are an
    abstract function of the window. */
module SrcProcessor {
  import opened Channels
  import opened Spectral
  import W = Windowing
  import Seqs
  import Rec = Recorder

  /** `abs(real(rfft(window)))[k]`: the magnitude of bin k, abstracted. */
  type Magnitude = (seq<int>, nat) -> real

  datatype Processor = Processor(
    live: bool,
    batchMode: bool,
    resolution: nat,
    threshold: int,
    fs: int,
    isOpen: bool,
    batch: seq<int>,
    processed: seq<real>,
    out: Channel<seq<real>>,
    recorder: Rec.Recorder<seq<real>>)

  function Init(batchMode: bool, live: bool): (p: Processor)
    ensures p.resolution == 250 && p.threshold == 50000000 && p.fs == 512
    ensures p.isOpen && p.batch == [] && !p.out.disposed && !p.recorder.isRecording
  {
    Processor(live, batchMode, 250, 50000000, 512, true, [], [], Open(), Rec.Idle())
  }

  /** What one run of `_fft` did: not run at all, window rejected by the
      gate, vector emitted, or an exception raised (a zero sampling rate
      divides by zero; publishing on a disposed subject raises). */
  datatype Outcome = NotRun | Rejected | Emitted(vector: seq<real>) | Raised

  datatype Step = Step(proc: Processor, outcome: Outcome)

  function MinNat(a: nat, b: nat): nat {
    if a < b then a else b
  }

  /** The magnitude vector of a window that passed the gate: the first
      `slice_size` bins of its spectrum. */
  function Vector(w: seq<int>, live: bool, fs: int, mag: Magnitude): (r: seq<real>)
    requires |w| > 0 && fs != 0
    ensures |r| == MinNat(SliceSize(live, |w|, fs), Bins(|w|))
    ensures forall k | 0 <= k < |r| :: r[k] == mag(w, k)
  {
    seq(MinNat(SliceSize(live, |w|, fs), Bins(|w|)), k requires k >= 0 => mag(w, k))
  }

  /** Whether a configuration emits a vector for window `w`. */
  predicate Emits(p: Processor, w: seq<int>) {
    PassesGate(w, p.threshold) && p.fs != 0 && !p.out.disposed
  }

  /** `_fft`: take the buffer and leave it empty, whatever happens next; a
      window that passes the gate becomes `processed_data` and is published
      once. */
  function Transform(p: Processor, mag: Magnitude): (r: Step)
    ensures r.proc.batch == [] && SameConfig(p, r.proc) && r.proc.out.disposed == p.out.disposed
    ensures r.outcome.Emitted? <==> Emits(p, p.batch)
    ensures r.outcome.Raised? <==> PassesGate(p.batch, p.threshold) && (p.fs == 0 || p.out.disposed)
    ensures r.outcome.Emitted? ==>
              && r.outcome.vector == Vector(p.batch, p.live, p.fs, mag)
              && r.proc.processed == r.outcome.vector
              && r.proc.out.log == p.out.log + [r.outcome.vector]
              && r.proc.recorder == Rec.Capture(p.recorder, [r.outcome.vector])
    ensures !r.outcome.Emitted? ==> r.proc.out == p.out && r.proc.recorder == p.recorder
    ensures r.outcome.Rejected? ==> r.proc.processed == p.processed
  {
    var w := p.batch;
    var p0 := p.(batch := []);
    if !PassesGate(w, p.threshold) then Step(p0, Rejected)
    else if p.fs == 0 then Step(p0, Raised)
    else
      var v := Vector(w, p.live, p.fs, mag);
      var p1 := p0.(processed := v);
      match Publish(p1.out, v)
      case None => Step(p1, Raised)
      case Some(o) => Step(p1.(out := o, recorder := Rec.Capture(p1.recorder, [v])), Emitted(v))
  }

  /** `add_data`: ignored in batch mode; otherwise the sample is appended,
      and a full buffer is transformed while `_is_open` holds. An exception
      in the transform ends its thread and is not seen here. */
  function AddData(p: Processor, x: int, mag: Magnitude): (r: Processor)
    ensures p.batchMode ==> r == p
    ensures !p.batchMode && (|p.batch| + 1 < p.resolution || !p.isOpen) ==>
              r == p.(batch := p.batch + [x])
    ensures !p.batchMode && |p.batch| + 1 >= p.resolution && p.isOpen ==>
              r == Transform(p.(batch := p.batch + [x]), mag).proc
  {
    if p.batchMode then p
    else
      var p' := p.(batch := p.batch + [x]);
      if |p'.batch| >= p.resolution && p.isOpen then Transform(p', mag).proc else p'
  }

  /** `fft(data_batch)`: in batch mode append every sample and run exactly
      one transform, whose exception reaches the caller; otherwise nothing. */
  function Fft(p: Processor, xs: seq<int>, mag: Magnitude): (r: Step)
    ensures !p.batchMode ==> r == Step(p, NotRun)
    ensures p.batchMode ==> r == Transform(p.(batch := p.batch + xs), mag)
    ensures p.batchMode ==> r.proc.batch == [] && !r.outcome.NotRun?
  {
    if p.batchMode then Transform(p.(batch := p.batch + xs), mag) else Step(p, NotRun)
  }

  /** A batch-mode processor with an empty buffer turns one `fft` call into
      exactly one gate decision on exactly the given samples. */
  lemma BatchFftOneVector(p: Processor, xs: seq<int>, mag: Magnitude)
    requires p.batchMode && p.batch == [] && !p.out.disposed && p.fs != 0
    ensures var r := Fft(p, xs, mag);
            && (PassesGate(xs, p.threshold) ==>
                  r.outcome == Emitted(Vector(xs, p.live, p.fs, mag)) && r.proc.out.log == p.out.log + [r.outcome.vector])
            && (!PassesGate(xs, p.threshold) ==> r.outcome == Rejected && r.proc.out == p.out)
  {
    assert [] + xs == xs;
  }

  function SetSamplingRate(p: Processor, fs: int): (r: Processor)
    ensures r.fs == fs && r.(fs := p.fs) == p
  {
    p.(fs := fs)
  }

  function Record(p: Processor): (r: Processor)
    ensures r.recorder == Rec.Start(p.recorder) && r.(recorder := p.recorder) == p
  {
    p.(recorder := Rec.Start(p.recorder))
  }

  function Save(p: Processor): (r: Processor)
    ensures !r.recorder.isRecording && r.recorder.recorded == p.recorder.recorded
    ensures r.(recorder := p.recorder) == p
  {
    p.(recorder := Rec.Save(p.recorder))
  }

  /** `close`: assigns `_is_open = True` and disposes the `data` subject
      (a repeated dispose is harmless). */
  function Close(p: Processor): (r: Processor)
    ensures r.isOpen && r.out.disposed && r.out.log == p.out.log
    ensures r.batch == p.batch && r.recorder == p.recorder
  {
    p.(isOpen := true, out := Dispose(p.out))
  }

  /** Because `close` sets the flag to true, closing never stops the
      buffer from being swapped out: `add_data` after `close` empties a full
      buffer exactly as before it. */
  lemma CloseKeepsSwapping(p: Processor, x: int, mag: Magnitude)
    requires p.isOpen
    ensures AddData(Close(p), x, mag).batch == AddData(p, x, mag).batch
    ensures !p.batchMode && |p.batch| + 1 >= p.resolution ==> AddData(Close(p), x, mag).batch == []
  {
  }

  /** What a sequence of windows emits under a fixed configuration. */
  function Emissions(ws: seq<seq<int>>, p: Processor, mag: Magnitude): seq<seq<real>>
    decreases |ws|
  {
    if |ws| == 0 then []
    else
      (if Emits(p, ws[0]) then [Vector(ws[0], p.live, p.fs, mag)] else [])
        + Emissions(ws[1..], p, mag)
  }

  lemma {:induction false} EmissionsConcat(a: seq<seq<int>>, b: seq<seq<int>>, p: Processor, mag: Magnitude)
    ensures Emissions(a + b, p, mag) == Emissions(a, p, mag) + Emissions(b, p, mag)
    decreases |a|
  {
    if |a| == 0 {
      assert a + b == b;
    } else {
      assert (a + b)[0] == a[0];
      assert (a + b)[1..] == a[1..] + b;
      EmissionsConcat(a[1..], b, p, mag);
    }
  }

  /** Streaming configuration: not batch mode, open, a positive window, a
      nonzero rate, an open subject and a partial buffer. */
  predicate Streaming(p: Processor) {
    !p.batchMode && p.isOpen && p.resolution > 0 && p.fs != 0 && !p.out.disposed
    && |p.batch| < p.resolution
  }

  function Feed(p: Processor, xs: seq<int>, mag: Magnitude): Processor
    decreases |xs|
  {
    if |xs| == 0 then p else Feed(AddData(p, xs[0], mag), xs[1..], mag)
  }

  /** Configuration fields that the transform never changes. */
  predicate SameConfig(p: Processor, q: Processor) {
    p.live == q.live && p.batchMode == q.batchMode && p.resolution == q.resolution
    && p.threshold == q.threshold && p.fs == q.fs && p.isOpen == q.isOpen
  }

  lemma AddDataStep(p: Processor, x: int, mag: Magnitude)
    requires Streaming(p)
    ensures var r := AddData(p, x, mag);
            && Streaming(r) && SameConfig(p, r)
            && r.batch == W.Remainder(p.batch + [x], p.resolution)
            && r.out.log == p.out.log + Emissions(W.Chunks(p.batch + [x], p.resolution), p, mag)
  {
    var n := p.resolution;
    W.RemainderShort(p.batch, n);
    W.RemainderStep(p.batch, x, n);
    if |p.batch| + 1 == n {
      W.ChunksOfFull(p.batch + [x], n);
      assert Emissions([p.batch + [x]], p, mag)
               == if Emits(p, p.batch + [x]) then [Vector(p.batch + [x], p.live, p.fs, mag)] else [];
    } else {
      W.RemainderShort(p.batch + [x], n);
    }
  }

  lemma FeedUnfold(p: Processor, xs: seq<int>, mag: Magnitude)
    requires |xs| > 0
    ensures Feed(p, xs, mag) == Feed(AddData(p, xs[0], mag), xs[1..], mag)
  {
  }

  /** Fed sample by sample, the processor keeps its configuration and its
      buffer holds exactly the samples of the unfinished window. */
  lemma {:induction false} FeedBuffer(p: Processor, xs: seq<int>, mag: Magnitude)
    requires Streaming(p)
    ensures var r := Feed(p, xs, mag);
            && Streaming(r) && SameConfig(p, r) && r.out.disposed == p.out.disposed
            && r.batch == W.Remainder(p.batch + xs, p.resolution)
    decreases |xs|
  {
    if |xs| == 0 {
      assert p.batch + xs == p.batch;
      W.RemainderShort(p.batch, p.resolution);
    } else {
      FeedUnfold(p, xs, mag);
      AddDataStep(p, xs[0], mag);
      FeedBuffer(AddData(p, xs[0], mag), xs[1..], mag);
      W.ChunksAfterFirst(p.batch, xs, p.resolution);
    }
  }

  /** Fed sample by sample, the processor publishes one vector for every
      consecutive window of `data_resolution` samples that passes the gate,
      in order. */
  lemma {:induction false} FeedWindows(p: Processor, xs: seq<int>, mag: Magnitude)
    requires Streaming(p)
    ensures Feed(p, xs, mag).out.log
              == p.out.log + Emissions(W.Chunks(p.batch + xs, p.resolution), p, mag)
    decreases |xs|
  {
    if |xs| == 0 {
      assert p.batch + xs == p.batch;
      W.RemainderShort(p.batch, p.resolution);
    } else {
      var p' := AddData(p, xs[0], mag);
      FeedUnfold(p, xs, mag);
      AddDataStep(p, xs[0], mag);
      FeedWindows(p', xs[1..], mag);
      W.ChunksAfterFirst(p.batch, xs, p.resolution);
      EmissionsAfterFirst(p, p', xs, mag);
      Seqs.AppendAssoc(p.out.log, Emissions(W.Chunks(p.batch + [xs[0]], p.resolution), p, mag),
                  Emissions(W.Chunks(p'.batch + xs[1..], p.resolution), p', mag));
    }
  }

  lemma EmissionsAfterFirst(p: Processor, p': Processor, xs: seq<int>, mag: Magnitude)
    requires p.resolution > 0 && |xs| > 0
    requires SameConfig(p, p') && p'.out.disposed == p.out.disposed
    requires p'.batch == W.Remainder(p.batch + [xs[0]], p.resolution)
    requires W.Chunks(p.batch + xs, p.resolution)
               == W.Chunks(p.batch + [xs[0]], p.resolution) + W.Chunks(p'.batch + xs[1..], p.resolution)
    ensures Emissions(W.Chunks(p.batch + xs, p.resolution), p, mag)
              == Emissions(W.Chunks(p.batch + [xs[0]], p.resolution), p, mag)
                 + Emissions(W.Chunks(p'.batch + xs[1..], p.resolution), p', mag)
  {
    var tail := W.Chunks(p'.batch + xs[1..], p.resolution);
    EmissionsConcat(W.Chunks(p.batch + [xs[0]], p.resolution), tail, p, mag);
    EmissionsSameConfig(tail, p, p', mag);
  }

  lemma {:induction false} EmissionsSameConfig(ws: seq<seq<int>>, p: Processor, q: Processor, mag: Magnitude)
    requires SameConfig(p, q) && p.out.disposed == q.out.disposed
    ensures Emissions(ws, p, mag) == Emissions(ws, q, mag)
    decreases |ws|
  {
    if |ws| > 0 {
      EmissionsSameConfig(ws[1..], p, q, mag);
    }
  }
}
