/** Routing of one decoded device record, shared by every connector: a record
    with `rawEeg` is a raw sample, any other record is a signal-quality record
    whose `poorSignalLevel` sits under `eSense` when the record has more than
    three keys and at top level otherwise, and a record on which a lookup
    raises is dropped. */
module Routing {
  import opened Wrappers
  import opened JsonValues
  import opened Channels

  datatype Route = ToSamples(value: Json) | ToQuality(value: Json) | Dropped

  /** The nested-or-flat quality lookup of the `except` branch: `len(j)`
      decides the shape, and any lookup that raises gives None. */
  function QualityOf(j: Json): (r: Option<Json>)
    ensures r.Some? ==> j.JObject?
    ensures j.JObject? && |j.fields| > 3 ==>
              (r.Some? <==> "eSense" in j.fields && j.fields["eSense"].JObject?
                            && "poorSignalLevel" in j.fields["eSense"].fields)
    ensures j.JObject? && |j.fields| > 3 && r.Some? ==>
              r.value == j.fields["eSense"].fields["poorSignalLevel"]
    ensures j.JObject? && |j.fields| <= 3 ==>
              r == (if "poorSignalLevel" in j.fields then Some(j.fields["poorSignalLevel"]) else None)
  {
    match Size(j)
    case None => None
    case Some(n) =>
      if n > 3 then
        match Get(j, "eSense")
        case Some(e) => Get(e, "poorSignalLevel")
        case None => None
      else Get(j, "poorSignalLevel")
  }

  /** The routing decision for one segment, given what decoding it produced
      (None when `loads` raised). */
  function Classify(decoded: Option<Json>): (r: Route)
    ensures r.ToSamples? <==> decoded.Some? && Get(decoded.value, "rawEeg").Some?
    ensures r.ToSamples? ==> r.value == decoded.value.fields["rawEeg"]
    ensures r.ToQuality? <==> decoded.Some? && Get(decoded.value, "rawEeg").None?
                              && QualityOf(decoded.value).Some?
    ensures r.ToQuality? ==> r.value == QualityOf(decoded.value).value
    ensures decoded.None? ==> r.Dropped?
  {
    match decoded
    case None => Dropped
    case Some(j) =>
      match Get(j, "rawEeg")
      case Some(v) => ToSamples(v)
      case None =>
        match QualityOf(j)
        case Some(q) => ToQuality(q)
        case None => Dropped
  }

  /** The sample and quality subjects of a connector. */
  datatype Outlets = Outlets(data: Channel<Json>, quality: Channel<Json>)

  predicate BothOpen(o: Outlets) {
    !o.data.disposed && !o.quality.disposed
  }

  /** What a route does to open subjects. */
  function Apply(o: Outlets, route: Route): Outlets {
    match route
    case ToSamples(v) => Outlets(Offer(o.data, v), o.quality)
    case ToQuality(q) => Outlets(o.data, Offer(o.quality, q))
    case Dropped => o
  }

  /** The connectors' nested `try` blocks on one decoded record. Publishing
      on a disposed subject raises, so a raw sample meeting a disposed `data`
      subject falls into the quality branch, exactly as a missing `rawEeg`
      key does. On open subjects this is `Classify` followed by `Apply`:
      one record reaches at most one subject. */
  function Deliver(o: Outlets, j: Json): (r: Outlets)
    ensures r.data.disposed == o.data.disposed && r.quality.disposed == o.quality.disposed
    ensures o.data.log <= r.data.log && o.quality.log <= r.quality.log
    ensures BothOpen(o) ==> r == Apply(o, Classify(Some(j)))
    ensures o.data.disposed ==>
              r.data == o.data
              && r.quality == (match QualityOf(j)
                               case Some(q) => Offer(o.quality, q)
                               case None => o.quality)
    ensures o.data.disposed && o.quality.disposed ==> r == o
  {
    var published := match Get(j, "rawEeg")
      case Some(v) => Publish(o.data, v)
      case None => None;
    match published
    case Some(d) => Outlets(d, o.quality)
    case None =>
      match QualityOf(j)
      case Some(q) =>
        (match Publish(o.quality, q)
         case Some(c) => Outlets(o.data, c)
         case None => o)
      case None => o
  }

  /** A concrete consequence of the fall-through: once `data` is disposed, a
      short raw record that also carries `poorSignalLevel` is published as a
      quality value. */
  lemma DisposedDataRoutesRawToQuality(o: Outlets)
    requires o.data.disposed && !o.quality.disposed
    ensures var j := JObject(map["rawEeg" := JNumber(7), "poorSignalLevel" := JNumber(0)]);
            Deliver(o, j).quality.log == o.quality.log + [JNumber(0)]
  {
    var j := JObject(map["rawEeg" := JNumber(7), "poorSignalLevel" := JNumber(0)]);
    assert |j.fields| == 2 by {
      assert j.fields.Keys == {"rawEeg", "poorSignalLevel"};
    }
  }
}
