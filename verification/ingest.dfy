/** The per-chunk loop of the subject-based connectors, shared by all three:
    every segment of the chunk bumps the sampling-rate counter, is decoded,
    and is delivered to the sample or quality subject or dropped; a failure
    on one segment never stops the loop. Also the synthetic (debug) source. */
module Ingest {
  import opened Wrappers
  import opened JsonValues
  import opened Channels
  import opened Framing
  import opened Rate
  import opened Routing
  import Seqs

  datatype Streams = Streams(outlets: Outlets, meter: Meter)

  /** `loads`, abstracted: None when decoding raises. */
  type Decoder = string -> Option<Json>

  /** The routing decision of every segment, in order. */
  function Outcomes(decode: Decoder, segs: seq<string>): (r: seq<Route>)
    ensures |r| == |segs|
  {
    seq(|segs|, i requires 0 <= i < |segs| => Classify(decode(segs[i])))
  }

  /** The value a route publishes on the sample subject, if any. */
  function RouteSample(route: Route): seq<Json> {
    if route.ToSamples? then [route.value] else []
  }

  /** The value a route publishes on the quality subject, if any. */
  function RouteQuality(route: Route): seq<Json> {
    if route.ToQuality? then [route.value] else []
  }

  function SamplesOf(routes: seq<Route>): seq<Json>
    decreases |routes|
  {
    if |routes| == 0 then [] else RouteSample(routes[0]) + SamplesOf(routes[1..])
  }

  function QualitiesOf(routes: seq<Route>): seq<Json>
    decreases |routes|
  {
    if |routes| == 0 then [] else RouteQuality(routes[0]) + QualitiesOf(routes[1..])
  }

  function DroppedCount(routes: seq<Route>): nat
    decreases |routes|
  {
    if |routes| == 0 then 0
    else (if routes[0].Dropped? then 1 else 0) + DroppedCount(routes[1..])
  }

  /** Every segment has exactly one outcome: published as a sample,
      published as a quality value, or dropped. */
  lemma {:induction false} OneOutcomePerSegment(routes: seq<Route>)
    ensures |SamplesOf(routes)| + |QualitiesOf(routes)| + DroppedCount(routes) == |routes|
    decreases |routes|
  {
    if |routes| > 0 {
      OneOutcomePerSegment(routes[1..]);
    }
  }

  lemma OutcomesTail(decode: Decoder, segs: seq<string>)
    requires |segs| > 0
    ensures Outcomes(decode, segs)[0] == Classify(decode(segs[0]))
    ensures Outcomes(decode, segs)[1..] == Outcomes(decode, segs[1..])
  {
  }

  /** One segment: the counter is bumped, then the decoded record (if any)
      is delivered. */
  function SegmentStep(st: Streams, decode: Decoder, seg: string): (r: Streams)
    ensures r.meter.counter == st.meter.counter + 1
    ensures r.outlets.data.disposed == st.outlets.data.disposed
    ensures r.outlets.quality.disposed == st.outlets.quality.disposed
    ensures st.outlets.data.log <= r.outlets.data.log
    ensures st.outlets.quality.log <= r.outlets.quality.log
    ensures BothOpen(st.outlets) ==>
              r.outlets.data.log == st.outlets.data.log + RouteSample(Classify(decode(seg)))
              && r.outlets.quality.log == st.outlets.quality.log + RouteQuality(Classify(decode(seg)))
  {
    var bumped := BumpMeter(st.meter);
    match decode(seg)
    case Some(j) => Streams(Deliver(st.outlets, j), bumped)
    case None => Streams(st.outlets, bumped)
  }

  /** The loop over the segments of one chunk. With both subjects open the
      sample subject gains exactly the sample values and the quality subject
      exactly the quality values, in segment order; the counter grows by the
      number of segments whatever their fate. */
  function IngestSegments(st: Streams, decode: Decoder, segs: seq<string>): (r: Streams)
    ensures r.meter.counter == st.meter.counter + |segs|
    ensures r.outlets.data.disposed == st.outlets.data.disposed
    ensures r.outlets.quality.disposed == st.outlets.quality.disposed
    ensures st.outlets.data.log <= r.outlets.data.log
    ensures st.outlets.quality.log <= r.outlets.quality.log
    ensures BothOpen(st.outlets) ==>
              r.outlets.data.log == st.outlets.data.log + SamplesOf(Outcomes(decode, segs))
              && r.outlets.quality.log == st.outlets.quality.log + QualitiesOf(Outcomes(decode, segs))
    decreases |segs|
  {
    if |segs| == 0 then st
    else
      var next := SegmentStep(st, decode, segs[0]);
      var r := IngestSegments(next, decode, segs[1..]);
      LogsAfterFirst(st, next, r, decode, segs);
      r
  }

  lemma LogsAfterFirst(st: Streams, next: Streams, r: Streams, decode: Decoder, segs: seq<string>)
    requires |segs| > 0 && next == SegmentStep(st, decode, segs[0])
    requires BothOpen(next.outlets) ==>
               r.outlets.data.log == next.outlets.data.log + SamplesOf(Outcomes(decode, segs[1..]))
               && r.outlets.quality.log == next.outlets.quality.log + QualitiesOf(Outcomes(decode, segs[1..]))
    ensures BothOpen(st.outlets) ==>
              r.outlets.data.log == st.outlets.data.log + SamplesOf(Outcomes(decode, segs))
              && r.outlets.quality.log == st.outlets.quality.log + QualitiesOf(Outcomes(decode, segs))
  {
    if BothOpen(st.outlets) {
      var rs := Outcomes(decode, segs);
      OutcomesTail(decode, segs);
      assert SamplesOf(rs) == RouteSample(rs[0]) + SamplesOf(rs[1..]);
      assert QualitiesOf(rs) == RouteQuality(rs[0]) + QualitiesOf(rs[1..]);
      Seqs.AppendAssoc(st.outlets.data.log, RouteSample(rs[0]), SamplesOf(rs[1..]));
      Seqs.AppendAssoc(st.outlets.quality.log, RouteQuality(rs[0]), QualitiesOf(rs[1..]));
    }
  }

  /** One received chunk: framed, then every segment routed. */
  function IngestChunk(st: Streams, decode: Decoder, text: string): (r: Streams)
    ensures r.meter.counter == st.meter.counter + |Frame(text)|
    ensures r.outlets.data.disposed == st.outlets.data.disposed
    ensures r.outlets.quality.disposed == st.outlets.quality.disposed
    ensures st.outlets.data.log <= r.outlets.data.log
    ensures st.outlets.quality.log <= r.outlets.quality.log
    ensures BothOpen(st.outlets) ==>
              r.outlets.data.log == st.outlets.data.log + SamplesOf(Outcomes(decode, Frame(text)))
              && r.outlets.quality.log == st.outlets.quality.log + QualitiesOf(Outcomes(decode, Frame(text)))
  {
    IngestSegments(st, decode, Frame(text))
  }

  /** A value of `np.random.randint(0, 100)`. */
  type Percent = q: int | 0 <= q < 100

  /** One pass of the synthetic generator: the floored Gaussian draw and the
      quality value drawn alongside it. */
  datatype Draw = Draw(sample: int, quality: Percent)

  predicate Accepted(d: Draw) {
    -150 < d.sample < 150
  }

  /** The draws the generator keeps, in order. */
  function AcceptedDraws(draws: seq<Draw>): (r: seq<Draw>)
    ensures |r| <= |draws|
    ensures forall i | 0 <= i < |r| :: Accepted(r[i])
    decreases |draws|
  {
    if |draws| == 0 then []
    else (if Accepted(draws[0]) then [draws[0]] else []) + AcceptedDraws(draws[1..])
  }

  function SampleValues(ds: seq<Draw>): (r: seq<Json>)
    ensures |r| == |ds|
    ensures forall i | 0 <= i < |ds| :: r[i] == JNumber(ds[i].sample)
  {
    seq(|ds|, i requires 0 <= i < |ds| => JNumber(ds[i].sample))
  }

  function QualityValues(ds: seq<Draw>): (r: seq<Json>)
    ensures |r| == |ds|
    ensures forall i | 0 <= i < |ds| :: r[i] == JNumber(ds[i].quality)
  {
    seq(|ds|, i requires 0 <= i < |ds| => JNumber(ds[i].quality))
  }

  lemma ValuesAppend(ds: seq<Draw>, d: Draw)
    ensures SampleValues(ds + [d]) == SampleValues(ds) + [JNumber(d.sample)]
    ensures QualityValues(ds + [d]) == QualityValues(ds) + [JNumber(d.quality)]
  {
  }

  lemma AcceptedDrawsAppend(draws: seq<Draw>, d: Draw)
    ensures AcceptedDraws(draws + [d]) == AcceptedDraws(draws) + (if Accepted(d) then [d] else [])
    decreases |draws|
  {
    if |draws| > 0 {
      assert (draws + [d])[1..] == draws[1..] + [d];
      AcceptedDrawsAppend(draws[1..], d);
    }
  }

  lemma {:induction false} AcceptedDrawsConcat(a: seq<Draw>, b: seq<Draw>)
    ensures AcceptedDraws(a + b) == AcceptedDraws(a) + AcceptedDraws(b)
    decreases |a|
  {
    if |a| > 0 {
      assert (a + b)[1..] == a[1..] + b;
      AcceptedDrawsConcat(a[1..], b);
      assert (a + b)[0] == a[0];
      var h := if Accepted(a[0]) then [a[0]] else [];
      assert AcceptedDraws(a + b) == h + AcceptedDraws(a[1..] + b);
      assert AcceptedDraws(a) == h + AcceptedDraws(a[1..]);
    } else {
      assert a + b == b;
    }
  }

  /** The debug branch of `_generate_data`: only draws strictly inside
      (-150, 150) are published, each with one quality value in [0, 100) and
      one counter increment. Publishing on a disposed subject raises and ends
      the generator thread, which the loop models by stopping. */
  method Generate(st: Streams, draws: seq<Draw>) returns (r: Streams)
    ensures r.meter.counter <= st.meter.counter + |AcceptedDraws(draws)|
    ensures BothOpen(st.outlets) ==>
              && r.meter.counter == st.meter.counter + |AcceptedDraws(draws)|
              && r.outlets.data.log == st.outlets.data.log + SampleValues(AcceptedDraws(draws))
              && r.outlets.quality.log == st.outlets.quality.log + QualityValues(AcceptedDraws(draws))
              && BothOpen(r.outlets)
  {
    r := st;
    var i := 0;
    while i < |draws|
      invariant 0 <= i <= |draws|
      invariant r.meter.counter <= st.meter.counter + |AcceptedDraws(draws[..i])|
      invariant r.outlets.data.disposed == st.outlets.data.disposed
      invariant r.outlets.quality.disposed == st.outlets.quality.disposed
      invariant BothOpen(st.outlets) ==>
                  && r.meter.counter == st.meter.counter + |AcceptedDraws(draws[..i])|
                  && r.outlets.data.log == st.outlets.data.log + SampleValues(AcceptedDraws(draws[..i]))
                  && r.outlets.quality.log == st.outlets.quality.log + QualityValues(AcceptedDraws(draws[..i]))
    {
      var d := draws[i];
      assert draws[..i + 1] == draws[..i] + [d];
      AcceptedDrawsAppend(draws[..i], d);
      if Accepted(d) {
        ValuesAppend(AcceptedDraws(draws[..i]), d);
        var data := Publish(r.outlets.data, JNumber(d.sample));
        if data.None? {
          break;
        }
        var quality := Publish(r.outlets.quality, JNumber(d.quality));
        if quality.None? {
          r := r.(outlets := Outlets(data.value, r.outlets.quality));
          break;
        }
        r := Streams(Outlets(data.value, quality.value), BumpMeter(r.meter));
      }
      i := i + 1;
    }
    assert draws == draws[..i] + draws[i..];
    AcceptedDrawsConcat(draws[..i], draws[i..]);
  }
}
