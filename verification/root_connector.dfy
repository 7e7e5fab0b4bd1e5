/** The connector of the top-level `_connector.py`: the same framing and
    routing loop as the other connectors, but the sampling rate is stored in
    `_sampling_rate` instead of being published, there is no recording, and
    `close` disposes only the sample and quality subjects. Its read loop
    catches every exception and closes the connector. */
module RootConnector {
  import opened JsonValues
  import opened Channels
  import opened Framing
  import opened Rate
  import opened Routing
  import opened Ingest

  datatype Connector = Connector(
    debug: bool,
    streams: Streams,
    samplingRate: nat,
    isOpen: bool,
    socketClosed: bool)

  function Init(debug: bool): (c: Connector)
    ensures c.isOpen && BothOpen(c.streams.outlets) && c.samplingRate == 0
  {
    Connector(debug, Streams(Outlets(Open(), Open()), Meter(0)), 0, true, false)
  }

  ghost predicate Consistent(c: Connector) {
    c.isOpen ==> BothOpen(c.streams.outlets)
  }

  /** `close`: clears `is_open`, closes the socket and disposes `data` and
      `poor_signal_level`. */
  function Close(c: Connector): (r: Connector)
    ensures !r.isOpen && r.socketClosed
    ensures r.streams.outlets.data.disposed && r.streams.outlets.quality.disposed
    ensures r.streams.outlets.data.log == c.streams.outlets.data.log
    ensures r.streams.outlets.quality.log == c.streams.outlets.quality.log
    ensures r.samplingRate == c.samplingRate && r.streams.meter == c.streams.meter
  {
    c.(isOpen := false, socketClosed := true,
       streams := Streams(Outlets(Dispose(c.streams.outlets.data), Dispose(c.streams.outlets.quality)),
                          c.streams.meter))
  }

  lemma CloseIdempotent(c: Connector)
    ensures Close(Close(c)) == Close(c)
  {
  }

  function ReceiveChunk(c: Connector, decode: Decoder, text: string): (r: Connector)
    ensures r.streams.meter.counter == c.streams.meter.counter + |Frame(text)|
    ensures r.isOpen == c.isOpen && r.samplingRate == c.samplingRate
    ensures Consistent(c) ==> Consistent(r)
    ensures BothOpen(c.streams.outlets) ==>
              && r.streams.outlets.data.log
                   == c.streams.outlets.data.log + SamplesOf(Outcomes(decode, Frame(text)))
              && r.streams.outlets.quality.log
                   == c.streams.outlets.quality.log + QualitiesOf(Outcomes(decode, Frame(text)))
  {
    c.(streams := IngestChunk(c.streams, decode, text))
  }

  datatype Recv = Chunk(text: string) | Failure

  datatype Ending = Pending | LoopExit | ClosedOnError

  datatype Run = Run(connector: Connector, ending: Ending)

  /** `_generate_data` after a successful connect: the read loop under a
      catch-all handler that closes the connector. */
  function Stream(c: Connector, decode: Decoder, recvs: seq<Recv>): (r: Run)
    ensures r.ending.ClosedOnError? ==> !r.connector.isOpen && r.connector == Close(r.connector)
    ensures r.ending.Pending? ==> r.connector.isOpen
    ensures !c.isOpen ==> r == Run(c, LoopExit)
    ensures r.connector.streams.meter.counter >= c.streams.meter.counter
    ensures Consistent(c) ==> Consistent(r.connector)
    decreases |recvs|
  {
    if !c.isOpen then Run(c, LoopExit)
    else if |recvs| == 0 then Run(c, Pending)
    else match recvs[0]
      case Chunk(text) => Stream(ReceiveChunk(c, decode, text), decode, recvs[1..])
      case Failure =>
        CloseIdempotent(c);
        Run(Close(c), ClosedOnError)
  }

  function Connect(c: Connector, decode: Decoder, connected: bool, recvs: seq<Recv>): (r: Run)
    ensures !connected ==> r == Run(Close(c), ClosedOnError)
    ensures connected ==> r == Stream(c, decode, recvs)
  {
    if !connected then Run(Close(c), ClosedOnError) else Stream(c, decode, recvs)
  }

  /** The debug branch of `_generate_data`. */
  method GenerateDebug(c: Connector, draws: seq<Draw>) returns (r: Connector)
    ensures !c.isOpen ==> r == c
    ensures c.isOpen && Consistent(c) ==>
              && r.streams.meter.counter == c.streams.meter.counter + |AcceptedDraws(draws)|
              && r.streams.outlets.data.log
                   == c.streams.outlets.data.log + SampleValues(AcceptedDraws(draws))
              && r.streams.outlets.quality.log
                   == c.streams.outlets.quality.log + QualityValues(AcceptedDraws(draws))
              && Consistent(r)
  {
    if !c.isOpen {
      return c;
    }
    var s := Generate(c.streams, draws);
    r := c.(streams := s);
  }

  /** One pass of `_generate_sampling_rate`: the count is stored (not
      published) and the counter reset if the loop goes round again. */
  function TimerTick(c: Connector): (r: Connector)
    ensures r.samplingRate == c.streams.meter.counter
    ensures r.streams.meter.counter == if c.isOpen then 0 else c.streams.meter.counter
    ensures r.streams.outlets == c.streams.outlets && r.isOpen == c.isOpen
  {
    c.(samplingRate := c.streams.meter.counter,
       streams := c.streams.(meter := if c.isOpen then Meter(0) else c.streams.meter))
  }

  datatype Event = Receive(text: string) | TimerFires

  function Replay(c: Connector, decode: Decoder, events: seq<Event>): Connector
    decreases |events|
  {
    if |events| == 0 then c
    else match events[0]
      case Receive(text) => Replay(ReceiveChunk(c, decode, text), decode, events[1..])
      case TimerFires => Replay(TimerTick(c), decode, events[1..])
  }

  function RateEvents(events: seq<Event>): seq<Rate.Event>
    decreases |events|
  {
    if |events| == 0 then []
    else match events[0]
      case Receive(text) => Bumps(|Frame(text)|) + RateEvents(events[1..])
      case TimerFires => [Tick] + RateEvents(events[1..])
  }

  /** The value `_sampling_rate` holds: the last report, if any. */
  function Latest(reported: seq<nat>, before: nat): nat {
    if |reported| == 0 then before else reported[|reported| - 1]
  }

  lemma ReplayUnfold(c: Connector, decode: Decoder, events: seq<Event>)
    requires |events| > 0
    ensures Replay(c, decode, events) == Replay(Replay(c, decode, [events[0]]), decode, events[1..])
    ensures RateEvents(events) == RateEvents([events[0]]) + RateEvents(events[1..])
  {
    assert [events[0]][1..] == [];
  }

  lemma StepMeter(c: Connector, decode: Decoder, e: Event)
    requires c.isOpen && Consistent(c)
    ensures var c' := Replay(c, decode, [e]);
            var h := Rate.Replay(RateEvents([e]), c.streams.meter);
            c'.samplingRate == Latest(h.reported, c.samplingRate) && c'.streams.meter == h.meter
            && c'.isOpen && Consistent(c')
  {
    assert [e][1..] == [];
    match e {
      case Receive(text) =>
        assert RateEvents([e]) == Bumps(|Frame(text)|) + [];
        assert Bumps(|Frame(text)|) + [] == Bumps(|Frame(text)|);
        ReplayBumps(|Frame(text)|, c.streams.meter);
        var c' := ReceiveChunk(c, decode, text);
        assert Replay(c, decode, [e]) == c';
        assert c'.streams.meter == Meter(c.streams.meter.counter + |Frame(text)|);
      case TimerFires =>
        assert RateEvents([e]) == [Tick] + [];
        assert Rate.Replay([Tick], c.streams.meter) == Trace([c.streams.meter.counter], Meter(0));
    }
  }

  lemma {:induction false} ReplayStoresLatest(c: Connector, decode: Decoder, events: seq<Event>)
    requires c.isOpen && Consistent(c)
    ensures var t := Rate.Replay(RateEvents(events), c.streams.meter);
            var r := Replay(c, decode, events);
            r.samplingRate == Latest(t.reported, c.samplingRate) && r.streams.meter == t.meter
    decreases |events|
  {
    if |events| > 0 {
      ReplayUnfold(c, decode, events);
      StepMeter(c, decode, events[0]);
      var c' := Replay(c, decode, [events[0]]);
      ReplayStoresLatest(c', decode, events[1..]);
      Rate.ReplayConcat(RateEvents([events[0]]), RateEvents(events[1..]), c.streams.meter);
    }
  }

  /** `_sampling_rate` always holds the segment count of the most recently
      completed one-second interval: the last tick-free block before the
      last tick, or 0 before the first tick. */
  lemma StoredRateIsLastBlock(decode: Decoder, debug: bool, events: seq<Event>)
    ensures var b := Blocks(RateEvents(events));
            Replay(Init(debug), decode, events).samplingRate
              == if |b| == 1 then 0 else b[|b| - 2]
  {
    ReplayStoresLatest(Init(debug), decode, events);
    ReportsAreBlockCounts(RateEvents(events));
  }
}
