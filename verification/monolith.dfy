/** The single-class prototype of `neurosky.py`: one object holds the last
    value read, a batch of raw samples, the last spectrum, the last quality
    value and the per-second counter. Each decoded segment bumps the counter
    and is routed as in the connectors; a raw sample joins the batch, and
    once the batch holds 250 samples it is handed to `computer_fft`, which
    empties it. The spawned FFT thread is modelled as running at once. */
module Monolith {
  import opened Wrappers
  import opened JsonValues
  import opened Framing
  import opened Routing
  import opened Ingest
  import W = Windowing

  /** Batch length that triggers a spectrum. */
  const BatchSize: nat := 250

  /** Top of the frequency axis, `1 / (2 * (1 / 512))`: half of 512 Hz. */
  const AxisTop: real := 256.0

  /** `fft_data`: the frequency axis and the length of the complex spectrum
      (the spectrum values themselves are left out). */
  datatype Spectrum = Spectrum(freqs: seq<real>, bins: nat)

  datatype NeuroSky = NeuroSky(
    rawData: Json,
    batch: seq<Json>,
    fft: Option<Spectrum>,
    poorSignalLevel: Json,
    counter: nat,
    samplingRate: nat,
    closed: bool)

  function Init(): (s: NeuroSky)
    ensures s.batch == [] && s.fft.None? && !s.closed && s.counter == 0
  {
    NeuroSky(JNumber(0), [], None, JNumber(0), 0, 0, false)
  }

  /** `numpy.linspace(0, stop, m)`: the points `i * step` with
      `step = stop / (m - 1)`, the last one set to `stop` exactly. */
  function Linspace(stop: real, m: nat): (r: seq<real>)
    ensures |r| == m
    ensures m >= 1 ==> r[0] == 0.0
    ensures m >= 2 ==> r[m - 1] == stop
  {
    if m <= 1 then seq(m, i => 0.0)
    else seq(m, i requires 0 <= i < m => if i == m - 1 then stop else (i as real) * (stop / ((m - 1) as real)))
  }

  /** `k` steps of `stop / k` reach `stop`. */
  lemma StepsReachStop(stop: real, k: nat)
    requires k > 0
    ensures (k as real) * (stop / (k as real)) == stop
  {
  }

  lemma NextStep(i: nat, step: real)
    ensures ((i + 1) as real) * step - (i as real) * step == step
  {
  }

  /** Neighbouring points are one step apart, the last step included. */
  lemma LinspaceEvenlySpaced(stop: real, m: nat)
    requires m >= 2
    ensures forall i | 0 <= i < m - 1 :: Linspace(stop, m)[i + 1] - Linspace(stop, m)[i] == stop / ((m - 1) as real)
  {
    var r := Linspace(stop, m);
    var step := stop / ((m - 1) as real);
    forall i | 0 <= i < m - 1
      ensures r[i + 1] - r[i] == step
    {
      if i + 1 == m - 1 {
        StepsReachStop(stop, m - 1);
        NextStep(i, step);
      } else {
        NextStep(i, step);
      }
    }
  }

  /** `computer_fft`: the batch is taken and emptied; the spectrum has one
      bin per sample and an axis of half as many points over [0, 256]. */
  function ComputerFft(s: NeuroSky): (r: NeuroSky)
    ensures r.batch == []
    ensures r.fft.Some? && r.fft.value.bins == |s.batch| && |r.fft.value.freqs| == |s.batch| / 2
    ensures r.counter == s.counter && r.rawData == s.rawData && r.poorSignalLevel == s.poorSignalLevel
  {
    s.(batch := [], fft := Some(Spectrum(Linspace(AxisTop, |s.batch| / 2), |s.batch|)))
  }

  /** The window check after a routed record. */
  function CheckWindow(s: NeuroSky): NeuroSky {
    if |s.batch| >= BatchSize then ComputerFft(s) else s
  }

  /** One segment of `get_data`: counter bump, then the routing; a dropped
      segment `continue`s past the window check. */
  function Segment(s: NeuroSky, route: Route): (r: NeuroSky)
    ensures r.counter == s.counter + 1
    ensures |s.batch| < BatchSize ==> |r.batch| < BatchSize
  {
    var s := s.(counter := s.counter + 1);
    match route
    case ToSamples(v) => CheckWindow(s.(rawData := v, batch := s.batch + [v]))
    case ToQuality(q) => CheckWindow(s.(rawData := q, poorSignalLevel := q))
    case Dropped => s
  }

  function Feed(s: NeuroSky, routes: seq<Route>): NeuroSky
    decreases |routes|
  {
    if |routes| == 0 then s else Feed(Segment(s, routes[0]), routes[1..])
  }

  /** The value `raw_data` holds after the routes: the last routed value. */
  function LastRouted(routes: seq<Route>, before: Json): Json
    decreases |routes|
  {
    if |routes| == 0 then before
    else LastRouted(routes[1..], if routes[0].Dropped? then before else routes[0].value)
  }

  /** The value `poor_signal_level` holds: the last quality value. */
  function LastQuality(routes: seq<Route>, before: Json): Json
    decreases |routes|
  {
    if |routes| == 0 then before
    else LastQuality(routes[1..], if routes[0].ToQuality? then routes[0].value else before)
  }

  lemma SamplesOfHead(routes: seq<Route>)
    requires |routes| > 0
    ensures SamplesOf(routes) == RouteSample(routes[0]) + SamplesOf(routes[1..])
  {
  }

  lemma SegmentBatch(s: NeuroSky, route: Route)
    requires |s.batch| < BatchSize
    ensures var r := Segment(s, route);
            && r.batch == W.Remainder(s.batch + RouteSample(route), BatchSize)
            && (r.fft.Some? <==> s.fft.Some? || |s.batch + RouteSample(route)| >= BatchSize)
  {
    W.RemainderShort(s.batch, BatchSize);
    if route.ToSamples? {
      W.RemainderStep(s.batch, route.value, BatchSize);
    } else {
      assert s.batch + RouteSample(route) == s.batch;
    }
  }

  /** Feeding segments one by one keeps the batch equal to the samples not
      yet taken by a spectrum, fewer than 250 of them, and a spectrum exists
      exactly when 250 samples have been collected in all. */
  lemma {:induction false} FeedKeepsRemainder(s: NeuroSky, routes: seq<Route>)
    requires |s.batch| < BatchSize
    ensures var r := Feed(s, routes);
            && r.batch == W.Remainder(s.batch + SamplesOf(routes), BatchSize)
            && (r.fft.Some? <==> s.fft.Some? || |s.batch + SamplesOf(routes)| >= BatchSize)
    decreases |routes|
  {
    if |routes| == 0 {
      assert s.batch + SamplesOf(routes) == s.batch;
      W.RemainderShort(s.batch, BatchSize);
    } else {
      var s' := Segment(s, routes[0]);
      assert Feed(s, routes) == Feed(s', routes[1..]);
      SegmentBatch(s, routes[0]);
      FeedKeepsRemainder(s', routes[1..]);
      SamplesOfHead(routes);
      assert s.batch + SamplesOf(routes) == s.batch + RouteSample(routes[0]) + SamplesOf(routes[1..]);
      AfterHead(s.batch, RouteSample(routes[0]), SamplesOf(routes[1..]));
    }
  }

  /** Remainder bookkeeping for one fed segment followed by the rest. */
  lemma AfterHead<T>(b: seq<T>, h: seq<T>, rest: seq<T>)
    ensures W.Remainder(b + h + rest, BatchSize) == W.Remainder(W.Remainder(b + h, BatchSize) + rest, BatchSize)
    ensures |b + h| < BatchSize ==> W.Remainder(b + h, BatchSize) + rest == b + h + rest
  {
    W.ChunksConcat(b + h, rest, BatchSize);
    if |b + h| < BatchSize {
      W.RemainderShort(b + h, BatchSize);
    }
  }

  /** Every segment is counted, and `raw_data` and `poor_signal_level` hold
      the last routed and the last quality value; the reader never touches
      the stored rate or the closed flag. */
  lemma {:induction false} FeedCountsAndLatest(s: NeuroSky, routes: seq<Route>)
    ensures var r := Feed(s, routes);
            && r.counter == s.counter + |routes|
            && r.rawData == LastRouted(routes, s.rawData)
            && r.poorSignalLevel == LastQuality(routes, s.poorSignalLevel)
            && r.closed == s.closed && r.samplingRate == s.samplingRate
    decreases |routes|
  {
    if |routes| > 0 {
      FeedCountsAndLatest(Segment(s, routes[0]), routes[1..]);
    }
  }

  /** One chunk of `get_data`: every segment of the frame is counted,
      `raw_data` ends on the chunk's last routed value, and the chunk neither
      closes the program nor stores a rate. */
  function ReceiveChunk(s: NeuroSky, decode: Decoder, text: string): (r: NeuroSky)
    ensures r.counter == s.counter + |Frame(text)|
    ensures r.rawData == LastRouted(Outcomes(decode, Frame(text)), s.rawData)
    ensures r.closed == s.closed && r.samplingRate == s.samplingRate
  {
    FeedCountsAndLatest(s, Outcomes(decode, Frame(text)));
    Feed(s, Outcomes(decode, Frame(text)))
  }

  /** A chunk's samples are appended to the batch modulo whole spectra, and
      every segment of the chunk is counted. */
  lemma ChunkBatches(s: NeuroSky, decode: Decoder, text: string)
    requires |s.batch| < BatchSize
    ensures var r := ReceiveChunk(s, decode, text);
            var all := s.batch + SamplesOf(Outcomes(decode, Frame(text)));
            && r.batch == W.Remainder(all, BatchSize) && |r.batch| < BatchSize
            && r.counter == s.counter + |Frame(text)|
            && (r.fft.Some? <==> s.fft.Some? || |all| >= BatchSize)
  {
    FeedKeepsRemainder(s, Outcomes(decode, Frame(text)));
    FeedCountsAndLatest(s, Outcomes(decode, Frame(text)));
  }

  /** `get_random_data` on one draw: an accepted draw becomes the raw value
      and joins the batch, a random quality is stored and the counter bumped. */
  function DebugStep(s: NeuroSky, d: Draw): (r: NeuroSky)
    ensures !Accepted(d) ==> r == s
    ensures Accepted(d) ==> r.counter == s.counter + 1 && r.rawData == JNumber(d.sample)
                             && r.poorSignalLevel == JNumber(d.quality)
    ensures |s.batch| < BatchSize ==> |r.batch| < BatchSize
  {
    if Accepted(d) then
      CheckWindow(s.(rawData := JNumber(d.sample), batch := s.batch + [JNumber(d.sample)],
                     poorSignalLevel := JNumber(d.quality), counter := s.counter + 1))
    else s
  }

  /** The debug source takes the same batching path: its draws enter the
      batch exactly as raw-sample segments would. */
  lemma DebugStepIsSampleSegment(s: NeuroSky, d: Draw)
    requires Accepted(d)
    ensures DebugStep(s, d).batch == Segment(s, ToSamples(JNumber(d.sample))).batch
    ensures DebugStep(s, d).fft == Segment(s, ToSamples(JNumber(d.sample))).fft
  {
  }

  /** One pass of `get_sampling_rate`: store the count and, while not
      closed, start the next second from zero. */
  function TimerTick(s: NeuroSky): (r: NeuroSky)
    ensures r.samplingRate == s.counter
    ensures r.counter == if s.closed then s.counter else 0
    ensures r.batch == s.batch && r.fft == s.fft && r.closed == s.closed
  {
    s.(samplingRate := s.counter, counter := if s.closed then s.counter else 0)
  }

  /** `keypress_handler` seeing ESC (key code 27). */
  function KeyPress(s: NeuroSky, code: int): (r: NeuroSky)
    ensures r.closed <==> s.closed || code == 27
    ensures r.(closed := s.closed) == s
  {
    if code == 27 then s.(closed := true) else s
  }

  datatype Event = Receive(text: string) | TimerFires | Key(code: int)

  /** An interleaving of the reader, timer and keypress threads, with each
      FFT thread run as soon as it is started; once closed the reader stops
      receiving. The program ends up closed exactly when ESC was pressed. */
  function Run(s: NeuroSky, decode: Decoder, events: seq<Event>): (r: NeuroSky)
    ensures r.closed <==> s.closed || Key(27) in events
    decreases |events|
  {
    if |events| == 0 then s
    else
      assert events == [events[0]] + events[1..];
      match events[0]
      case Receive(text) =>
        Run(if s.closed then s else ReceiveChunk(s, decode, text), decode, events[1..])
      case TimerFires => Run(TimerTick(s), decode, events[1..])
      case Key(code) => Run(KeyPress(s, code), decode, events[1..])
  }

  /** With every FFT thread run synchronously, the batch never reaches 250
      samples under any order of chunks, timer ticks and key presses: every
      full batch is taken by a spectrum straight away. */
  lemma {:induction false} BatchStaysShort(s: NeuroSky, decode: Decoder, events: seq<Event>)
    requires |s.batch| < BatchSize
    ensures |Run(s, decode, events).batch| < BatchSize
    decreases |events|
  {
    if |events| > 0 {
      match events[0] {
        case Receive(text) =>
          if !s.closed {
            ChunkBatches(s, decode, text);
          }
          BatchStaysShort(if s.closed then s else ReceiveChunk(s, decode, text), decode, events[1..]);
        case TimerFires =>
          BatchStaysShort(TimerTick(s), decode, events[1..]);
        case Key(code) =>
          BatchStaysShort(KeyPress(s, code), decode, events[1..]);
      }
    }
  }

  /** Once ESC has been seen, no later chunk changes the batch. */
  lemma {:induction false} ClosedIgnoresChunks(s: NeuroSky, decode: Decoder, events: seq<Event>)
    requires s.closed
    ensures Run(s, decode, events).batch == s.batch
    ensures Run(s, decode, events).closed
    decreases |events|
  {
    if |events| > 0 {
      match events[0] {
        case Receive(text) => ClosedIgnoresChunks(s, decode, events[1..]);
        case TimerFires => ClosedIgnoresChunks(TimerTick(s), decode, events[1..]);
        case Key(code) => ClosedIgnoresChunks(KeyPress(s, code), decode, events[1..]);
      }
    }
  }
}
