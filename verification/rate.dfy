/** The sampling-rate meter every connector keeps: each received segment (or
    accepted debug sample) bumps a counter, and a one-second timer reports
    the counter and resets it to 0. */
module Rate {

  datatype Meter = Meter(counter: nat)

  datatype Event = Bump | Tick

  /** One increment of `_sampling_rate_counter`. */
  function BumpMeter(m: Meter): (r: Meter)
    ensures r.counter == m.counter + 1
  {
    Meter(m.counter + 1)
  }

  /** What a meter reports over a run of events, and where it ends. */
  datatype Trace = Trace(reported: seq<nat>, meter: Meter)

  /** Runs the timer and the increments in the order given: a tick reports
      the current count and resets the counter for the next interval. */
  function Replay(events: seq<Event>, m: Meter): Trace
    decreases |events|
  {
    if |events| == 0 then Trace([], m)
    else match events[0]
      case Bump => Replay(events[1..], BumpMeter(m))
      case Tick =>
        var t := Replay(events[1..], Meter(0));
        Trace([m.counter] + t.reported, t.meter)
  }

  function CountBumps(events: seq<Event>): nat
    decreases |events|
  {
    if |events| == 0 then 0
    else (if events[0] == Bump then 1 else 0) + CountBumps(events[1..])
  }

  function CountTicks(events: seq<Event>): nat
    decreases |events|
  {
    if |events| == 0 then 0
    else (if events[0] == Tick then 1 else 0) + CountTicks(events[1..])
  }

  function Sum(xs: seq<nat>): nat
    decreases |xs|
  {
    if |xs| == 0 then 0 else xs[0] + Sum(xs[1..])
  }

  /** The reference reading of a run: the number of bumps in each maximal
      tick-free block of the run, the blocks in order. There is one block
      more than there are ticks, and together they hold every bump. */
  function Blocks(events: seq<Event>): (r: seq<nat>)
    ensures |r| == CountTicks(events) + 1
    ensures Sum(r) == CountBumps(events)
    decreases |events|
  {
    if |events| == 0 then [0]
    else
      var rest := Blocks(events[1..]);
      if events[0] == Tick then
        assert ([0] + rest)[1..] == rest;
        [0] + rest
      else
        var r := [rest[0] + 1] + rest[1..];
        assert r[1..] == rest[1..];
        assert Sum(rest) == rest[0] + Sum(rest[1..]);
        r
  }

  /** Adds `c` to the first block: the count a meter already held. */
  function CarryIn(b: seq<nat>, c: nat): (r: seq<nat>)
    requires |b| >= 1
    ensures |r| == |b| && r[0] == b[0] + c && r[1..] == b[1..]
  {
    [b[0] + c] + b[1..]
  }

  lemma {:induction false} ReplayCarry(events: seq<Event>, c: nat)
    ensures var b := CarryIn(Blocks(events), c);
            Replay(events, Meter(c)) == Trace(b[..|b| - 1], Meter(b[|b| - 1]))
    decreases |events|
  {
    if |events| > 0 {
      var rest := Blocks(events[1..]);
      var b := CarryIn(Blocks(events), c);
      if events[0] == Bump {
        ReplayCarry(events[1..], c + 1);
        assert Replay(events, Meter(c)) == Replay(events[1..], Meter(c + 1));
        assert Blocks(events) == [rest[0] + 1] + rest[1..];
        assert b == CarryIn(rest, c + 1);
      } else {
        ReplayCarry(events[1..], 0);
        ReplayCarryTick(events, c);
      }
    }
  }

  /** The tick case of `ReplayCarry`, given the claim for the tail. */
  lemma ReplayCarryTick(events: seq<Event>, c: nat)
    requires |events| > 0 && events[0] == Tick
    requires var b := CarryIn(Blocks(events[1..]), 0);
             Replay(events[1..], Meter(0)) == Trace(b[..|b| - 1], Meter(b[|b| - 1]))
    ensures var b := CarryIn(Blocks(events), c);
            Replay(events, Meter(c)) == Trace(b[..|b| - 1], Meter(b[|b| - 1]))
  {
    var rest := Blocks(events[1..]);
    var b := CarryIn(Blocks(events), c);
    var t := Replay(events[1..], Meter(0));
    assert Replay(events, Meter(c)) == Trace([c] + t.reported, t.meter);
    assert CarryIn(rest, 0) == rest;
    assert t == Trace(rest[..|rest| - 1], Meter(rest[|rest| - 1]));
    assert Blocks(events) == [0] + rest;
    assert b == [c] + rest;
    assert b[..|b| - 1] == [c] + rest[..|rest| - 1];
    assert b[|b| - 1] == rest[|rest| - 1];
  }

  /** Every reported rate is exactly the number of increments since the
      counter was last reset: the k-th report is the bump count of the k-th
      block, and the counter left over is the bump count of the last block. */
  lemma ReportsAreBlockCounts(events: seq<Event>)
    ensures var b := Blocks(events);
            && Replay(events, Meter(0)).reported == b[..|b| - 1]
            && Replay(events, Meter(0)).meter.counter == b[|b| - 1]
  {
    ReplayCarry(events, 0);
    assert CarryIn(Blocks(events), 0) == Blocks(events);
  }

  /** Over any run, the reported rates plus the pending count account for
      every increment, and there is one report per tick. */
  lemma ReportsAccountForEveryBump(events: seq<Event>)
    ensures |Replay(events, Meter(0)).reported| == CountTicks(events)
    ensures Sum(Replay(events, Meter(0)).reported) + Replay(events, Meter(0)).meter.counter
            == CountBumps(events)
  {
    ReportsAreBlockCounts(events);
    var b := Blocks(events);
    SumSplitLast(b);
  }

  lemma {:induction false} SumSplitLast(xs: seq<nat>)
    requires |xs| >= 1
    ensures Sum(xs) == Sum(xs[..|xs| - 1]) + xs[|xs| - 1]
    decreases |xs|
  {
    if |xs| > 1 {
      SumSplitLast(xs[1..]);
      assert xs[1..][..|xs| - 2] == xs[..|xs| - 1][1..];
    }
  }

  /** `k` increments in a row. */
  function Bumps(k: nat): (r: seq<Event>)
    ensures |r| == k && forall i | 0 <= i < k :: r[i] == Bump
  {
    seq(k, _ => Bump)
  }

  /** Replaying two runs one after the other is replaying their
      concatenation: the reports add up and the meter carries over. */
  lemma {:induction false} ReplayConcat(a: seq<Event>, b: seq<Event>, m: Meter)
    ensures var t := Replay(a, m);
            var u := Replay(b, t.meter);
            Replay(a + b, m) == Trace(t.reported + u.reported, u.meter)
    decreases |a|
  {
    if |a| == 0 {
      assert a + b == b;
    } else {
      assert (a + b)[1..] == a[1..] + b;
      assert (a + b)[0] == a[0];
      if a[0] == Bump {
        ReplayConcat(a[1..], b, BumpMeter(m));
      } else {
        ReplayConcat(a[1..], b, Meter(0));
      }
    }
  }

  /** A run of increments reports nothing and adds its length to the counter. */
  lemma {:induction false} ReplayBumps(k: nat, m: Meter)
    ensures Replay(Bumps(k), m) == Trace([], Meter(m.counter + k))
    decreases k
  {
    if k > 0 {
      assert Bumps(k)[1..] == Bumps(k - 1);
      ReplayBumps(k - 1, BumpMeter(m));
    }
  }
}
