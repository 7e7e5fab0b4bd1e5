/** The processor of `neurosky/_processor.py`: the buffering, gate and
    `[2:50]` two-row output of the top-level processor, plus the `record` /
    `_save` pair, whose subscription collects every published array while a
    recording runs. */
module PkgProcessor {
  import Root = RootProcessor
  import Rec = Recorder
  import W = Windowing
  import Seqs

  datatype Processor = Processor(core: Root.Processor, recorder: Rec.Recorder<Root.Rows>)

  function Init(): (p: Processor)
    ensures p.core == Root.Init() && !p.recorder.isRecording
  {
    Processor(Root.Init(), Rec.Idle())
  }

  /** `add_data`, with the recording subscription seeing what it publishes. */
  function AddData(p: Processor, x: int, mag: Root.Magnitude): (r: Processor)
    ensures r.core == Root.AddData(p.core, x, mag)
    ensures r.recorder.isRecording == p.recorder.isRecording
    ensures p.recorder.isRecording ==>
              r.recorder.recorded == p.recorder.recorded + r.core.out.log[|p.core.out.log|..]
    ensures !p.recorder.isRecording ==> r.recorder == p.recorder
  {
    var c := Root.AddData(p.core, x, mag);
    Processor(c, Rec.Capture(p.recorder, c.out.log[|p.core.out.log|..]))
  }

  function Record(p: Processor): (r: Processor)
    ensures r.recorder == Rec.Start(p.recorder) && r.core == p.core
  {
    p.(recorder := Rec.Start(p.recorder))
  }

  function Save(p: Processor): (r: Processor)
    ensures !r.recorder.isRecording && r.recorder.recorded == p.recorder.recorded && r.core == p.core
  {
    p.(recorder := Rec.Save(p.recorder))
  }

  /** `close`: disposes the `data` subject; the recording flag is left. */
  function Close(p: Processor): (r: Processor)
    ensures r.core == Root.Close(p.core) && r.recorder == p.recorder
  {
    p.(core := Root.Close(p.core))
  }

  function Feed(p: Processor, xs: seq<int>, mag: Root.Magnitude): Processor
    decreases |xs|
  {
    if |xs| == 0 then p else Feed(AddData(p, xs[0], mag), xs[1..], mag)
  }

  /** Feeding the package processor feeds its core, and a running recording
      receives exactly what the core publishes meanwhile. */
  lemma {:induction false} FeedRecordsPublished(p: Processor, xs: seq<int>, mag: Root.Magnitude)
    ensures var r := Feed(p, xs, mag);
            && r.core == Root.Feed(p.core, xs, mag)
            && r.recorder.isRecording == p.recorder.isRecording
            && p.core.out.log <= r.core.out.log
            && (p.recorder.isRecording ==>
                  r.recorder.recorded == p.recorder.recorded + r.core.out.log[|p.core.out.log|..])
    decreases |xs|
  {
    if |xs| > 0 {
      var p' := AddData(p, xs[0], mag);
      FeedRecordsPublished(p', xs[1..], mag);
      var r := Feed(p', xs[1..], mag);
      var log0, log1, log2 := p.core.out.log, p'.core.out.log, r.core.out.log;
      SuffixSplit(log0, log1, log2);
      if p.recorder.isRecording {
        Seqs.AppendAssoc(p.recorder.recorded, log1[|log0|..], log2[|log1|..]);
      }
    }
  }

  /** The part of a log added over two steps is the parts added in each. */
  lemma SuffixSplit<T>(log0: seq<T>, log1: seq<T>, log2: seq<T>)
    requires log0 <= log1 <= log2
    ensures log0 <= log2
    ensures log2[|log0|..] == log1[|log0|..] + log2[|log1|..]
  {
    assert log1 == log2[..|log1|];
  }

  /** While recording, what is fed is recorded as the published arrays of
      its full windows that pass the gate. */
  lemma RecordingHoldsWindows(p: Processor, xs: seq<int>, mag: Root.Magnitude)
    requires p.recorder.isRecording && Root.Streaming(p.core)
    ensures Feed(p, xs, mag).recorder.recorded
              == p.recorder.recorded
                 + Root.Emissions(W.Chunks(p.core.batch + xs, p.core.resolution), p.core, mag)
  {
    FeedRecordsPublished(p, xs, mag);
    Root.FeedWindows(p.core, xs, mag);
    var e := Root.Emissions(W.Chunks(p.core.batch + xs, p.core.resolution), p.core, mag);
    assert (p.core.out.log + e)[|p.core.out.log|..] == e;
  }
}
