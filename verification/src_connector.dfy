/** The connector of `src/neurosky/connector.py`: reads the device stream (or
    a synthetic source in debug mode), republishes raw samples and quality
    values, publishes the sampling rate, and records the raw samples on
    request. */
module SrcConnector {
  import opened Wrappers
  import opened JsonValues
  import opened Channels
  import opened Framing
  import opened Rate
  import opened Routing
  import opened Ingest
  import Rec = Recorder
  import Seqs

  datatype Connector = Connector(
    debug: bool,
    streams: Streams,
    rate: Channel<nat>,
    isOpen: bool,
    recorder: Rec.Recorder<Json>,
    socketClosed: bool)

  /** A connector as constructed: open, subjects live, counter at 0. */
  function Init(debug: bool): (c: Connector)
    ensures Consistent(c) && c.isOpen && c.streams.meter.counter == 0
  {
    Connector(debug, Streams(Outlets(Open(), Open()), Meter(0)), Open(), true, Rec.Idle(), false)
  }

  /** While the connector is open its three subjects are live; `close` is
      the only thing that disposes them. */
  ghost predicate Consistent(c: Connector) {
    c.isOpen ==> BothOpen(c.streams.outlets) && !c.rate.disposed
  }

  /** `close`: clears both flags, disposes the three subjects (a subject
      already disposed is no error) and closes the socket. */
  function Close(c: Connector): (r: Connector)
    ensures !r.isOpen && !r.recorder.isRecording && r.socketClosed
    ensures r.streams.outlets.data.disposed && r.streams.outlets.quality.disposed && r.rate.disposed
    ensures r.streams.outlets.data.log == c.streams.outlets.data.log
    ensures r.streams.outlets.quality.log == c.streams.outlets.quality.log
    ensures r.rate.log == c.rate.log && r.streams.meter == c.streams.meter
    ensures r.recorder.recorded == c.recorder.recorded
    ensures Consistent(r)
  {
    c.(isOpen := false,
       recorder := Rec.Recorder(false, c.recorder.recorded),
       streams := Streams(Outlets(Dispose(c.streams.outlets.data), Dispose(c.streams.outlets.quality)),
                          c.streams.meter),
       rate := Dispose(c.rate),
       socketClosed := true)
  }

  /** Closing twice is closing once. */
  lemma CloseIdempotent(c: Connector)
    ensures Close(Close(c)) == Close(c)
  {
  }

  /** The samples newly published on `data`, also handed to a running
      recording. */
  function AfterIngest(c: Connector, s: Streams): (r: Connector)
    requires c.streams.outlets.data.log <= s.outlets.data.log
    ensures r.streams == s
    ensures r.recorder == Rec.Capture(c.recorder, s.outlets.data.log[|c.streams.outlets.data.log|..])
  {
    c.(streams := s,
       recorder := Rec.Capture(c.recorder, s.outlets.data.log[|c.streams.outlets.data.log|..]))
  }

  /** One received chunk through the framing and routing loop. */
  function ReceiveChunk(c: Connector, decode: Decoder, text: string): (r: Connector)
    ensures r.streams.meter.counter == c.streams.meter.counter + |Frame(text)|
    ensures r.isOpen == c.isOpen && r.rate == c.rate
    ensures Consistent(c) ==> Consistent(r)
    ensures BothOpen(c.streams.outlets) ==>
              && r.streams.outlets.data.log
                   == c.streams.outlets.data.log + SamplesOf(Outcomes(decode, Frame(text)))
              && r.streams.outlets.quality.log
                   == c.streams.outlets.quality.log + QualitiesOf(Outcomes(decode, Frame(text)))
              && r.recorder == Rec.Capture(c.recorder, SamplesOf(Outcomes(decode, Frame(text))))
  {
    var s := IngestChunk(c.streams, decode, text);
    var r := AfterIngest(c, s);
    assert BothOpen(c.streams.outlets) ==>
             s.outlets.data.log[|c.streams.outlets.data.log|..] == SamplesOf(Outcomes(decode, Frame(text)));
    r
  }

  /** What the socket delivers on one `recv`: a chunk (as its repr text), a
      connection error, or some other exception. */
  datatype Recv = Chunk(text: string) | ConnectionLost | OtherFailure

  /** How the read loop ends: it is still waiting for input, it left the loop
      because the connector was closed, it closed the connector and raised
      `ConnectionError`, or another exception ended the thread. */
  datatype Ending = Pending | LoopExit | ConnectionErrorRaised | Crashed

  datatype Run = Run(connector: Connector, ending: Ending)

  /** The `while self._is_open` read loop over a sequence of `recv` results.
      Only connection errors are caught, and they close the connector and
      are re-raised. */
  function Stream(c: Connector, decode: Decoder, recvs: seq<Recv>): (r: Run)
    ensures r.ending.ConnectionErrorRaised? ==> !r.connector.isOpen && r.connector.socketClosed
    ensures r.ending.Pending? ==> r.connector.isOpen
    ensures !c.isOpen ==> r == Run(c, LoopExit)
    ensures r.connector.streams.meter.counter >= c.streams.meter.counter
    ensures c.streams.outlets.data.log <= r.connector.streams.outlets.data.log
    ensures Consistent(c) ==> Consistent(r.connector)
    decreases |recvs|
  {
    if !c.isOpen then Run(c, LoopExit)
    else if |recvs| == 0 then Run(c, Pending)
    else match recvs[0]
      case Chunk(text) => Stream(ReceiveChunk(c, decode, text), decode, recvs[1..])
      case ConnectionLost => Run(Close(c), ConnectionErrorRaised)
      case OtherFailure => Run(c, Crashed)
  }

  /** The non-debug branch of `_generate_data`: a failed connect or
      handshake closes the connector and raises `ConnectionError`. */
  function Connect(c: Connector, decode: Decoder, connected: bool, recvs: seq<Recv>): (r: Run)
    ensures !connected ==> r == Run(Close(c), ConnectionErrorRaised)
    ensures connected ==> r == Stream(c, decode, recvs)
  {
    if !connected then Run(Close(c), ConnectionErrorRaised) else Stream(c, decode, recvs)
  }

  /** The samples of a run of chunks, in order. */
  function ChunkSamples(decode: Decoder, texts: seq<string>): seq<Json>
    decreases |texts|
  {
    if |texts| == 0 then []
    else SamplesOf(Outcomes(decode, Frame(texts[0]))) + ChunkSamples(decode, texts[1..])
  }

  function Chunks(texts: seq<string>): (r: seq<Recv>)
    ensures |r| == |texts| && forall i | 0 <= i < |texts| :: r[i] == Chunk(texts[i])
  {
    seq(|texts|, i requires 0 <= i < |texts| => Chunk(texts[i]))
  }

  /** How many segments the frames of a run of chunks hold in all. */
  function SegmentCount(texts: seq<string>): nat
    decreases |texts|
  {
    if |texts| == 0 then 0 else |Frame(texts[0])| + SegmentCount(texts[1..])
  }

  /** Receiving a run of chunks one after the other: every segment of every
      chunk is counted, and the loop never changes the open flag, the
      published rates or the connector's consistency. */
  function ReceiveAll(c: Connector, decode: Decoder, texts: seq<string>): (r: Connector)
    ensures r.streams.meter.counter == c.streams.meter.counter + SegmentCount(texts)
    ensures r.isOpen == c.isOpen && r.rate == c.rate
    ensures Consistent(c) ==> Consistent(r)
    decreases |texts|
  {
    if |texts| == 0 then c else ReceiveAll(ReceiveChunk(c, decode, texts[0]), decode, texts[1..])
  }

  lemma {:induction false} StreamOfChunks(c: Connector, decode: Decoder, texts: seq<string>)
    requires c.isOpen
    ensures Stream(c, decode, Chunks(texts)) == Run(ReceiveAll(c, decode, texts), Pending)
    decreases |texts|
  {
    if |texts| > 0 {
      assert Chunks(texts)[1..] == Chunks(texts[1..]);
      StreamOfChunks(ReceiveChunk(c, decode, texts[0]), decode, texts[1..]);
    }
  }

  lemma {:induction false} ReceiveAllPublishes(c: Connector, decode: Decoder, texts: seq<string>)
    requires c.isOpen && Consistent(c)
    ensures var r := ReceiveAll(c, decode, texts);
            && r.streams.outlets.data.log == c.streams.outlets.data.log + ChunkSamples(decode, texts)
            && (c.recorder.isRecording ==>
                  r.recorder.recorded == c.recorder.recorded + ChunkSamples(decode, texts))
    decreases |texts|
  {
    if |texts| > 0 {
      var c' := ReceiveChunk(c, decode, texts[0]);
      ReceiveAllPublishes(c', decode, texts[1..]);
      var s0 := SamplesOf(Outcomes(decode, Frame(texts[0])));
      var rest := ChunkSamples(decode, texts[1..]);
      assert ChunkSamples(decode, texts) == s0 + rest;
      Seqs.AppendAssoc(c.streams.outlets.data.log, s0, rest);
      Seqs.AppendAssoc(c.recorder.recorded, s0, rest);
    }
  }

  /** On an open connector a run of chunks publishes, on `data`, exactly the
      raw samples of its segments in arrival order, and the loop is left
      waiting for more. */
  lemma StreamPublishesSamples(c: Connector, decode: Decoder, texts: seq<string>)
    requires c.isOpen && Consistent(c)
    ensures var r := Stream(c, decode, Chunks(texts));
            && r.ending == Pending
            && r.connector.streams.outlets.data.log
                 == c.streams.outlets.data.log + ChunkSamples(decode, texts)
  {
    StreamOfChunks(c, decode, texts);
    ReceiveAllPublishes(c, decode, texts);
  }

  /** The debug branch of `_generate_data` on a run of draws. */
  method GenerateDebug(c: Connector, draws: seq<Draw>) returns (r: Connector)
    ensures !c.isOpen ==> r == c
    ensures c.isOpen && Consistent(c) ==>
              && r.streams.meter.counter == c.streams.meter.counter + |AcceptedDraws(draws)|
              && r.streams.outlets.data.log
                   == c.streams.outlets.data.log + SampleValues(AcceptedDraws(draws))
              && r.streams.outlets.quality.log
                   == c.streams.outlets.quality.log + QualityValues(AcceptedDraws(draws))
              && Consistent(r)
  {
    if !c.isOpen {
      return c;
    }
    var s := Generate(c.streams, draws);
    if c.streams.outlets.data.log <= s.outlets.data.log {
      r := AfterIngest(c, s);
    } else {
      r := c.(streams := s);
    }
  }

  /** One pass of `_generate_sampling_rate`: the count since the last reset
      is published, and the counter is reset if the loop goes round again. */
  function TimerTick(c: Connector): (r: Connector)
    ensures r.rate == Offer(c.rate, c.streams.meter.counter)
    ensures r.streams.meter.counter == if c.isOpen then 0 else c.streams.meter.counter
    ensures r.streams.outlets == c.streams.outlets && r.isOpen == c.isOpen
  {
    c.(rate := Offer(c.rate, c.streams.meter.counter),
       streams := c.streams.(meter := if c.isOpen then Meter(0) else c.streams.meter))
  }

  /** Chunks and timer ticks as they interleave on the two threads. */
  datatype Event = Receive(text: string) | TimerFires

  function Replay(c: Connector, decode: Decoder, events: seq<Event>): Connector
    decreases |events|
  {
    if |events| == 0 then c
    else match events[0]
      case Receive(text) => Replay(ReceiveChunk(c, decode, text), decode, events[1..])
      case TimerFires => Replay(TimerTick(c), decode, events[1..])
  }

  /** The meter's view of a run: a chunk is one increment per segment. */
  function RateEvents(events: seq<Event>): seq<Rate.Event>
    decreases |events|
  {
    if |events| == 0 then []
    else match events[0]
      case Receive(text) => Bumps(|Frame(text)|) + RateEvents(events[1..])
      case TimerFires => [Tick] + RateEvents(events[1..])
  }

  lemma ReplayUnfold(c: Connector, decode: Decoder, events: seq<Event>)
    requires |events| > 0
    ensures Replay(c, decode, events) == Replay(Replay(c, decode, [events[0]]), decode, events[1..])
    ensures RateEvents(events) == RateEvents([events[0]]) + RateEvents(events[1..])
  {
    assert [events[0]][1..] == [];
  }

  lemma ReceiveMeter(c: Connector, decode: Decoder, text: string)
    requires c.isOpen && Consistent(c)
    ensures var c' := Replay(c, decode, [Receive(text)]);
            var h := Rate.Replay(RateEvents([Receive(text)]), c.streams.meter);
            c'.rate.log == c.rate.log + h.reported && c'.streams.meter == h.meter
            && c'.isOpen && Consistent(c')
  {
    assert [Receive(text)][1..] == [];
    assert RateEvents([Receive(text)]) == Bumps(|Frame(text)|) + [];
    assert Bumps(|Frame(text)|) + [] == Bumps(|Frame(text)|);
    ReplayBumps(|Frame(text)|, c.streams.meter);
    assert Rate.Replay(RateEvents([Receive(text)]), c.streams.meter)
        == Trace([], Meter(c.streams.meter.counter + |Frame(text)|));
    var c' := ReceiveChunk(c, decode, text);
    assert Replay(c, decode, [Receive(text)]) == c';
    assert c'.rate.log == c.rate.log + [];
    assert c'.streams.meter == Meter(c.streams.meter.counter + |Frame(text)|);
  }

  lemma TickMeter(c: Connector, decode: Decoder)
    requires c.isOpen && Consistent(c)
    ensures var c' := Replay(c, decode, [TimerFires]);
            var h := Rate.Replay(RateEvents([TimerFires]), c.streams.meter);
            c'.rate.log == c.rate.log + h.reported && c'.streams.meter == h.meter
            && c'.isOpen && Consistent(c')
  {
    assert [TimerFires][1..] == [];
    assert RateEvents([TimerFires]) == [Tick] + [];
    assert Rate.Replay([Tick], c.streams.meter) == Trace([c.streams.meter.counter], Meter(0));
  }

  lemma {:induction false} ReplayRate(c: Connector, decode: Decoder, events: seq<Event>)
    requires c.isOpen && Consistent(c)
    ensures var t := Rate.Replay(RateEvents(events), c.streams.meter);
            var r := Replay(c, decode, events);
            r.rate.log == c.rate.log + t.reported && r.streams.meter == t.meter
            && r.isOpen && Consistent(r)
    decreases |events|
  {
    if |events| == 0 {
      assert RateEvents(events) == [];
    } else {
      ReplayUnfold(c, decode, events);
      match events[0] {
        case Receive(text) => ReceiveMeter(c, decode, text);
        case TimerFires => TickMeter(c, decode);
      }
      var c' := Replay(c, decode, [events[0]]);
      ReplayRate(c', decode, events[1..]);
      Rate.ReplayConcat(RateEvents([events[0]]), RateEvents(events[1..]), c.streams.meter);
      var h := Rate.Replay(RateEvents([events[0]]), c.streams.meter);
      Seqs.AppendAssoc(c.rate.log, h.reported, Rate.Replay(RateEvents(events[1..]), h.meter).reported);
    }
  }

  /** Every sampling rate the connector publishes equals the number of
      segments received since the counter was last reset: the k-th value on
      `sampling_rate` is the bump count of the k-th tick-free block. */
  lemma PublishedRatesCountSegments(decode: Decoder, debug: bool, events: seq<Event>)
    ensures var b := Blocks(RateEvents(events));
            Replay(Init(debug), decode, events).rate.log == b[..|b| - 1]
  {
    ReplayRate(Init(debug), decode, events);
    ReportsAreBlockCounts(RateEvents(events));
  }

  /** `record`: starts collecting the samples published on `data`; a second
      call while recording changes nothing. */
  function Record(c: Connector): (r: Connector)
    ensures r.recorder.isRecording
    ensures c.recorder.isRecording ==> r == c
    ensures !c.recorder.isRecording ==> r.recorder.recorded == [] && r == c.(recorder := r.recorder)
  {
    c.(recorder := Rec.Start(c.recorder))
  }

  /** `_save`: the end of the recording window. */
  function Save(c: Connector): (r: Connector)
    ensures !r.recorder.isRecording && r.recorder.recorded == c.recorder.recorded
    ensures r == c.(recorder := r.recorder)
  {
    c.(recorder := Rec.Save(c.recorder))
  }

  /** A recording started on an open connector holds exactly the raw samples
      of the chunks received while it ran. */
  lemma RecordingHoldsStreamedSamples(c: Connector, decode: Decoder, texts: seq<string>)
    requires c.isOpen && Consistent(c) && c.recorder.isRecording
    ensures Stream(c, decode, Chunks(texts)).connector.recorder.recorded
            == c.recorder.recorded + ChunkSamples(decode, texts)
  {
    StreamOfChunks(c, decode, texts);
    ReceiveAllPublishes(c, decode, texts);
  }
}
