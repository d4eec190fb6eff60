/** Traffic counters and the rolling per-minute series, against an unbounded log (internal/metrics/metrics.go). */
module Metrics {

  const SERIES_MINUTES := 60

  datatype Counters = Counters(requests: int, bytesIn: int, bytesOut: int) {
    function Plus(other: Counters): Counters {
      Counters(requests + other.requests, bytesIn + other.bytesIn, bytesOut + other.bytesOut)
    }
  }

  const ZERO := Counters(0, 0, 0)

  datatype Sample = Sample(unix: int, counters: Counters)

  /** One observation, with the clock read before it was recorded. */
  datatype Observation = Observation(routeId: string, unix: nat, counters: Counters) {
    function Minute(): nat { unix / 60 }
  }

  // ---- The log ----

  function Latest(log: seq<Observation>): (latest: nat)
    ensures forall i :: 0 <= i < |log| ==> log[i].Minute() <= latest
  {
    if log == [] then 0
    else
      var before, last := Latest(log[..|log| - 1]), log[|log| - 1].Minute();
      if last > before then last else before
  }

  /** What was observed in a minute. */
  function SumAt(log: seq<Observation>, minute: int): Counters {
    if log == [] then ZERO
    else
      var before, last := SumAt(log[..|log| - 1], minute), log[|log| - 1];
      if last.Minute() == minute then before.Plus(last.counters) else before
  }

  function Sum(log: seq<Observation>): Counters {
    if log == [] then ZERO else Sum(log[..|log| - 1]).Plus(log[|log| - 1].counters)
  }

  /** The series that the log gives for the hour that ends with a minute. */
  function TrueSeries(log: seq<Observation>, minute: int): seq<Sample> {
    seq(SERIES_MINUTES, i => Sample((minute - 59 + i) * 60, SumAt(log, minute - 59 + i)))
  }

  // ---- The ring ----

  /** Recording in a ring of slots: a slot of another minute is started over. */
  function Recorded(slots: seq<Sample>, minute: nat, c: Counters): (after: seq<Sample>)
    requires |slots| == SERIES_MINUTES
    ensures |after| == SERIES_MINUTES
  {
    var k := minute % SERIES_MINUTES;
    var slot := if slots[k].unix != minute * 60 then Sample(minute * 60, ZERO) else slots[k];
    slots[k := slot.(counters := slot.counters.Plus(c))]
  }

  function Slots(log: seq<Observation>): (slots: seq<Sample>)
    ensures |slots| == SERIES_MINUTES
  {
    if log == [] then seq(SERIES_MINUTES, _ => Sample(0, ZERO))
    else Recorded(Slots(log[..|log| - 1]), log[|log| - 1].Minute(), log[|log| - 1].counters)
  }

  function SampleOf(slots: seq<Sample>, target: nat): Sample
    requires |slots| == SERIES_MINUTES
  {
    var slot := slots[target % SERIES_MINUTES];
    if slot.unix == target * 60 then slot else Sample(target * 60, ZERO)
  }

  /** The last hour as the ring has it, oldest minute first. */
  function Series(slots: seq<Sample>, minute: nat): seq<Sample>
    requires |slots| == SERIES_MINUTES && minute >= 59
  {
    seq(SERIES_MINUTES, i requires 0 <= i < SERIES_MINUTES => SampleOf(slots, minute - 59 + i))
  }

  // ---- Sums over routes ----

  ghost function SumRoutes(m: map<string, Counters>): Counters
    decreases |m|
  {
    if m == map[] then ZERO
    else
      var k :| k in m;
      Removed(m, k);
      SumRoutes(m - {k}).Plus(m[k])
  }

  lemma Removed<V>(m: map<string, V>, k: string)
    requires k in m
    ensures |m - {k}| < |m|
  {
    assert (m - {k}).Keys == m.Keys - {k};
  }

  /** The sum does not depend on the order in which routes are added up. */
  lemma {:induction false} SumRoutesSplits(m: map<string, Counters>, k: string)
    requires k in m
    ensures SumRoutes(m) == SumRoutes(m - {k}).Plus(m[k])
    decreases |m|
  {
    var first :| k in m && first in m && SumRoutes(m) == SumRoutes(m - {first}).Plus(m[first]);
    if first != k {
      Removed(m, first);
      Removed(m, k);
      SumRoutesSplits(m - {first}, k);
      SumRoutesSplits(m - {k}, first);
      assert (m - {first}) - {k} == (m - {k}) - {first};
      var rest := SumRoutes((m - {k}) - {first});
      assert SumRoutes(m - {first}) == rest.Plus(m[k]);
      assert SumRoutes(m - {k}) == rest.Plus(m[first]);
      assert SumRoutes(m) == rest.Plus(m[k]).Plus(m[first]);
    }
  }

  lemma SumRoutesAdds(m: map<string, Counters>, k: string, c: Counters)
    ensures SumRoutes(m[k := (if k in m then m[k] else ZERO).Plus(c)]) == SumRoutes(m).Plus(c)
  {
    var after := m[k := (if k in m then m[k] else ZERO).Plus(c)];
    SumRoutesSplits(after, k);
    assert after - {k} == m - {k};
    if k in m {
      SumRoutesSplits(m, k);
    } else {
      assert m - {k} == m;
    }
  }

  // ---- The registry ----

  lemma LogGrows(log: seq<Observation>, o: Observation)
    ensures Slots(log + [o]) == Recorded(Slots(log), o.Minute(), o.counters)
    ensures Sum(log + [o]) == Sum(log).Plus(o.counters)
    ensures forall t :: SumAt(log + [o], t) == if t == o.Minute() then SumAt(log, t).Plus(o.counters) else SumAt(log, t)
    ensures Latest(log + [o]) == if o.Minute() > Latest(log) then o.Minute() else Latest(log)
  {
    assert (log + [o])[..|log|] == log;
  }

  datatype Snapshot = Snapshot(total: Counters, routes: map<string, Counters>, series: seq<Sample>)

  class Registry {
    var total: Counters
    var perRoute: map<string, Counters>
    var slots: array<Sample>
    /** Everything ever observed, and the counters of forgotten routes. */
    ghost var log: seq<Observation>
    ghost var forgotten: Counters

    ghost predicate Valid()
      reads this, slots
    {
      && slots.Length == SERIES_MINUTES && slots[..] == Slots(log)
      && total == Sum(log)
      && total == SumRoutes(perRoute).Plus(forgotten)
    }

    constructor ()
      ensures Valid() && fresh(slots) && log == [] && forgotten == ZERO && perRoute == map[]
    {
      total, perRoute, log, forgotten := ZERO, map[], [], ZERO;
      slots := new Sample[SERIES_MINUTES](_ => Sample(0, ZERO));
      new;
      assert slots[..] == Slots([]);
    }

    /** The slot of a minute is started over when it holds another one. */
    method Record(minute: nat, c: Counters)
      requires slots.Length == SERIES_MINUTES
      modifies slots
      ensures slots[..] == Recorded(old(slots[..]), minute, c)
    {
      var k := minute % SERIES_MINUTES;
      if slots[k].unix != minute * 60 {
        slots[k] := Sample(minute * 60, ZERO);
      }
      slots[k] := slots[k].(counters := slots[k].counters.Plus(c));
    }

    method Observe(routeId: string, unix: nat, requests: int, bytesIn: int, bytesOut: int)
      requires Valid()
      modifies this, slots
      ensures Valid() && slots == old(slots)
      ensures var c := Counters(requests, bytesIn, bytesOut);
        && log == old(log) + [Observation(routeId, unix, c)] && forgotten == old(forgotten)
        && perRoute == old(perRoute)[routeId := (if routeId in old(perRoute) then old(perRoute)[routeId] else ZERO).Plus(c)]
    {
      hide SumRoutes, Slots, Sum, SumAt, Latest, Recorded;
      var minute := unix / 60;
      var c := Counters(requests, bytesIn, bytesOut);
      SumRoutesAdds(perRoute, routeId, c);
      LogGrows(log, Observation(routeId, unix, c));
      var counters := if routeId in perRoute then perRoute[routeId] else ZERO;
      perRoute := perRoute[routeId := counters.Plus(c)];
      total := total.Plus(c);
      Record(minute, c);
      log := log + [Observation(routeId, unix, c)];
    }

    method Forget(routeId: string)
      requires Valid()
      modifies this
      ensures Valid() && slots == old(slots) && log == old(log) && total == old(total)
      ensures perRoute == old(perRoute) - {routeId}
      ensures forgotten == if routeId in old(perRoute) then old(forgotten).Plus(old(perRoute)[routeId]) else old(forgotten)
    {
      if routeId in perRoute {
        SumRoutesSplits(perRoute, routeId);
        forgotten := forgotten.Plus(perRoute[routeId]);
      } else {
        assert perRoute - {routeId} == perRoute;
      }
      perRoute := perRoute - {routeId};
    }

    /** The slot of a minute, or a zero sample if it holds another one. */
    method SampleAt(target: nat) returns (sample: Sample)
      requires slots.Length == SERIES_MINUTES
      ensures sample == SampleOf(slots[..], target)
    {
      var slot := slots[target % SERIES_MINUTES];
      sample := if slot.unix == target * 60 then slot else Sample(target * 60, ZERO);
    }

    /** Taken in an hour that has begun after the epoch: an earlier clock would index outside the ring. */
    method TakeSnapshot(unix: nat) returns (s: Snapshot)
      requires Valid() && unix / 60 >= 59
      ensures s == Snapshot(total, perRoute, Series(Slots(log), unix / 60))
    {
      hide SampleOf, Slots, Sum, SumRoutes;
      var minute := unix / 60;
      var series: seq<Sample> := [];
      for i := 0 to SERIES_MINUTES
        invariant |series| == i
        invariant forall j :: 0 <= j < i ==> series[j] == SampleOf(slots[..], minute - 59 + j)
      {
        var sample := SampleAt(minute - (59 - i));
        series := series + [sample];
      }
      s := Snapshot(total, perRoute, series);
    }
  }

  // ---- When the ring agrees with the log ----

  /** An observation may be late, but not so late that it starts a slot of the last hour over. */
  ghost predicate InOrder(log: seq<Observation>) {
    forall i, j :: 0 <= i < j < |log| ==> !Displaces(log, i, j)
  }

  /** Observation j goes to the slot of the later minute of observation i, which is still within the last hour. */
  predicate Displaces(log: seq<Observation>, i: nat, j: nat)
    requires i < j < |log|
  {
    && log[i].Minute() % SERIES_MINUTES == log[j].Minute() % SERIES_MINUTES
    && log[i].Minute() > log[j].Minute() && log[i].Minute() > Latest(log[..j]) - SERIES_MINUTES
  }

  ghost predicate AllCount(log: seq<Observation>) {
    forall i :: 0 <= i < |log| ==> log[i].counters.requests >= 1
  }

  /** Every snapshot, taken after any of the observations and not before the latest, shows what the log says. */
  ghost predicate Exact(log: seq<Observation>) {
    forall n, m :: 0 <= n <= |log| && m >= 59 && m >= Latest(log[..n]) ==> ExactAt(log[..n], m)
  }

  predicate ExactAt(log: seq<Observation>, minute: nat)
    requires minute >= 59
  {
    Series(Slots(log), minute) == TrueSeries(log, minute)
  }

  lemma {:induction false} NothingAt(log: seq<Observation>, t: int)
    requires forall i :: 0 <= i < |log| ==> log[i].Minute() != t
    ensures SumAt(log, t) == ZERO
  {
    if log != [] { NothingAt(log[..|log| - 1], t); }
  }

  lemma {:induction false} SomethingAt(log: seq<Observation>, i: nat, t: int)
    requires AllCount(log) && i < |log| && log[i].Minute() == t
    ensures SumAt(log, t).requests >= 1
  {
    var before := log[..|log| - 1];
    if i < |log| - 1 {
      SomethingAt(before, i, t);
    } else {
      NotNegative(before, t);
    }
  }

  lemma {:induction false} NotNegative(log: seq<Observation>, t: int)
    requires AllCount(log)
    ensures SumAt(log, t).requests >= 0
  {
    if log != [] { NotNegative(log[..|log| - 1], t); }
  }

  /** No slot is ahead of the log, and each minute of the hour up to the latest one has its sum. */
  ghost predicate RingTrue(slots: seq<Sample>, log: seq<Observation>)
    requires |slots| == SERIES_MINUTES
  {
    && (forall k :: 0 <= k < SERIES_MINUTES ==> slots[k].unix <= Latest(log) * 60)
    && (forall t: nat :: Latest(log) - SERIES_MINUTES < t <= Latest(log) ==>
          SampleOf(slots, t) == Sample(t * 60, SumAt(log, t)))
  }

  lemma AheadIsEmpty(slots: seq<Sample>, log: seq<Observation>, t: nat)
    requires |slots| == SERIES_MINUTES && RingTrue(slots, log) && t > Latest(log)
    ensures SampleOf(slots, t) == Sample(t * 60, ZERO) && SumAt(log, t) == ZERO
  {
    NothingAt(log, t);
  }

  lemma RecordedSample(slots: seq<Sample>, m: nat, c: Counters, t: nat)
    requires |slots| == SERIES_MINUTES
    ensures SampleOf(Recorded(slots, m, c), t)
         == if t == m then Sample(t * 60, SampleOf(slots, t).counters.Plus(c))
            else if t % SERIES_MINUTES == m % SERIES_MINUTES then Sample(t * 60, ZERO)
            else SampleOf(slots, t)
  {}

  lemma RecordedNotAhead(slots: seq<Sample>, m: nat, c: Counters, bound: nat)
    requires |slots| == SERIES_MINUTES && m <= bound && forall k :: 0 <= k < SERIES_MINUTES ==> slots[k].unix <= bound * 60
    ensures forall k :: 0 <= k < SERIES_MINUTES ==> Recorded(slots, m, c)[k].unix <= bound * 60
  {}

  lemma RecordingKeepsTrue(slots: seq<Sample>, log: seq<Observation>, o: Observation)
    requires |slots| == SERIES_MINUTES && RingTrue(slots, log)
    requires forall i :: 0 <= i < |log| ==> !Displaces(log + [o], i, |log|)
    ensures RingTrue(Recorded(slots, o.Minute(), o.counters), log + [o])
  {
    hide SumAt, Latest, Slots, Recorded, SampleOf, Displaces;
    LogGrows(log, o);
    var latest := Latest(log + [o]);
    RecordedNotAhead(slots, o.Minute(), o.counters, latest);
    forall t: nat | latest - SERIES_MINUTES < t <= latest
      ensures SampleOf(Recorded(slots, o.Minute(), o.counters), t) == Sample(t * 60, SumAt(log + [o], t))
    {
      MinuteStaysTrue(slots, log, o, t);
    }
  }

  lemma MinuteStaysTrue(slots: seq<Sample>, log: seq<Observation>, o: Observation, t: nat)
    requires |slots| == SERIES_MINUTES && RingTrue(slots, log)
    requires forall i :: 0 <= i < |log| ==> !Displaces(log + [o], i, |log|)
    requires var latest := Latest(log + [o]); latest - SERIES_MINUTES < t <= latest
    ensures SampleOf(Recorded(slots, o.Minute(), o.counters), t) == Sample(t * 60, SumAt(log + [o], t))
  {
    hide SumAt, Latest, Slots, Sum, Recorded, Displaces, SampleOf;
    LogGrows(log, o);
    var m := o.Minute();
    RecordedSample(slots, m, o.counters, t);
    if t > Latest(log) {
      AheadIsEmpty(slots, log, t);
    } else {
      assert SampleOf(slots, t) == Sample(t * 60, SumAt(log, t));
    }
    hide RingTrue;
    if t != m && t % SERIES_MINUTES == m % SERIES_MINUTES {
      DisplacedIsEmpty(log, o, t);
    }
  }

  /** The minute whose slot a late observation takes was not observed. */
  lemma DisplacedIsEmpty(log: seq<Observation>, o: Observation, t: nat)
    requires forall i :: 0 <= i < |log| ==> !Displaces(log + [o], i, |log|)
    requires var latest := Latest(log + [o]); latest - SERIES_MINUTES < t <= latest
    requires t != o.Minute() && t % SERIES_MINUTES == o.Minute() % SERIES_MINUTES
    ensures SumAt(log, t) == ZERO
  {
    hide SumAt, Latest, Slots, Sum, Recorded;
    LogGrows(log, o);
    var all := log + [o];
    assert all[..|log|] == log;
    forall i | 0 <= i < |log| ensures log[i].Minute() != t {
      assert !Displaces(all, i, |log|) && all[i] == log[i] && all[|log|] == o;
    }
    NothingAt(log, t);
  }

  lemma {:induction false} InOrderMeansTrue(log: seq<Observation>)
    requires InOrder(log)
    ensures RingTrue(Slots(log), log)
  {
    hide SumAt, Recorded;
    if log == [] {
      forall t: nat ensures SumAt([], t) == ZERO { NothingAt([], t); }
    } else {
      var before, o := log[..|log| - 1], log[|log| - 1];
      assert log == before + [o];
      InOrderPrefix(log, |log| - 1);
      InOrderMeansTrue(before);
      LogGrows(before, o);
      assert forall i :: 0 <= i < |before| ==> !Displaces(log, i, |before|);
      RecordingKeepsTrue(Slots(before), before, o);
    }
  }

  lemma InOrderPrefix(log: seq<Observation>, n: nat)
    requires InOrder(log) && n <= |log|
    ensures InOrder(log[..n])
  {
    forall i, j | 0 <= i < j < n ensures !Displaces(log[..n], i, j) {
      assert log[..n][..j] == log[..j];
      assert !Displaces(log, i, j);
    }
  }

  lemma TrueMeansExact(log: seq<Observation>, m: nat)
    requires RingTrue(Slots(log), log) && m >= 59 && m >= Latest(log)
    ensures ExactAt(log, m)
  {
    hide SumAt, Slots, Latest;
    var slots := Slots(log);
    forall i | 0 <= i < SERIES_MINUTES ensures SampleOf(slots, m - 59 + i) == TrueSeries(log, m)[i] {
      if m - 59 + i > Latest(log) { AheadIsEmpty(slots, log, m - 59 + i); }
    }
  }

  /** An observation that displaces another one makes a snapshot wrong. */
  lemma DisplacingIsSeen(log: seq<Observation>, i: nat, j: nat)
    requires AllCount(log) && i < j < |log| && Displaces(log, i, j)
    ensures Latest(log[..j + 1]) >= 59 && !ExactAt(log[..j + 1], Latest(log[..j + 1]))
  {
    hide SumAt, Latest, Slots;
    var before, o := log[..j], log[j];
    var after := log[..j + 1];
    assert after == before + [o];
    LogGrows(before, o);
    var t, m := log[i].Minute(), Latest(after);
    assert before[i] == log[i] && after[i] == log[i];
    SomethingAt(after, i, t);
    assert m == Latest(before);
    var at := t - (m - 59);
    assert Series(Slots(after), m)[at] == SampleOf(Slots(after), t);
    assert TrueSeries(after, m)[at] == Sample(t * 60, SumAt(after, t));
  }

  /** The series is exact in every snapshot if and only if no observation displaces one of the last hour. */
  lemma ExactIffInOrder(log: seq<Observation>)
    requires AllCount(log)
    ensures Exact(log) <==> InOrder(log)
  {
    hide Displaces, ExactAt, Latest, RingTrue;
    if InOrder(log) {
      forall n, m | 0 <= n <= |log| && m >= 59 && m >= Latest(log[..n]) ensures ExactAt(log[..n], m) {
        InOrderPrefix(log, n);
        InOrderMeansTrue(log[..n]);
        TrueMeansExact(log[..n], m);
      }
    } else {
      var i, j :| 0 <= i < j < |log| && Displaces(log, i, j);
      DisplacingIsSeen(log, i, j);
    }
  }

  /** It is enough that each clock reading is less than an hour behind the latest one. */
  lemma PromptIsInOrder(log: seq<Observation>)
    requires forall j :: 0 <= j < |log| ==> log[j].Minute() > Latest(log[..j]) - SERIES_MINUTES
    ensures InOrder(log)
  {
    forall i, j | 0 <= i < j < |log| ensures !Displaces(log, i, j) {
      assert log[..j][i] == log[i];
    }
  }

  // ---- The sums, number by number ----

  /** What one number of the observations from one time until another comes to. */
  function Tally(log: seq<Observation>, from: int, until: int, number: Counters -> int): int {
    if log == [] then 0
    else
      var before, last := Tally(log[..|log| - 1], from, until, number), log[|log| - 1];
      if from <= last.unix < until then before + number(last.counters) else before
  }

  /** A sample counts requests and bytes of exactly the observations of its sixty seconds. */
  lemma {:induction false} SampleCounts(log: seq<Observation>, minute: int)
    ensures SumAt(log, minute) == Counters(
      Tally(log, minute * 60, minute * 60 + 60, (c: Counters) => c.requests),
      Tally(log, minute * 60, minute * 60 + 60, (c: Counters) => c.bytesIn),
      Tally(log, minute * 60, minute * 60 + 60, (c: Counters) => c.bytesOut))
  {
    if log != [] { SampleCounts(log[..|log| - 1], minute); }
  }

  /** The total counts all of them. */
  lemma {:induction false} TotalCounts(log: seq<Observation>, until: int)
    requires forall i :: 0 <= i < |log| ==> log[i].unix < until
    ensures Sum(log) == Counters(
      Tally(log, 0, until, (c: Counters) => c.requests),
      Tally(log, 0, until, (c: Counters) => c.bytesIn),
      Tally(log, 0, until, (c: Counters) => c.bytesOut))
  {
    if log != [] { TotalCounts(log[..|log| - 1], until); }
  }
}
