/** The agent's synchronization: accepting fetched states, replaying a cached one (internal/agent/sync.go). */
module Syncer {
  import opened Results
  import opened Routes
  import opened Reconciler

  /** The answer to a fetch; a failure is recoverable or not, as its error was classified. */
  datatype Fetch = Fetched(desired: Desired) | FetchFailed(recoverable: bool)

  /** One synchronization: the fetch's answer, whether the context was cancelled, and the clock. */
  datatype Event = Event(fetch: Fetch, cancelled: bool, now: int)

  datatype Cached = Cached(desired: Desired, at: int)

  /** What a syncer remembers: the last accepted state, normalized, and the state it may replay. */
  datatype Memory = Memory(accepted: Option<Desired>, cached: Option<Cached>)

  const EMPTY := Memory(None, None)

  /** A state handed to the reconciler, when, and since when it was known. */
  datatype Handed = Handed(desired: Desired, replay: bool, fetchedAt: int, at: int)

  /** A route stripped of everything that observation writes. */
  function NormalizedRoute(r: Route): Route {
    r.(observedRevision := 0, localStatus := "", tunnelStatus := "", lastError := "",
       agentLastSeenAt := None, publicStatus := "", createdAt := 0, updatedAt := 0)
  }

  /** Two routes have the same content exactly if they agree in everything that an administrator or the store writes, but
      for the times of writing. */
  lemma SameContentIff(a: Route, b: Route)
    ensures NormalizedRoute(a) == NormalizedRoute(b) <==>
      && a.id == b.id && a.clientId == b.clientId && a.name == b.name && a.protocol == b.protocol
      && a.domain == b.domain && a.pathPrefix == b.pathPrefix && a.stripPath == b.stripPath
      && a.localHost == b.localHost && a.localPort == b.localPort && a.remotePort == b.remotePort
      && a.publicPort == b.publicPort && a.tunnelGroup == b.tunnelGroup && a.enabled == b.enabled
      && a.desiredRevision == b.desiredRevision
  {
    var n, m := NormalizedRoute(a), NormalizedRoute(b);
    assert n.name == a.name && m.name == b.name && n.domain == a.domain && m.domain == b.domain;
  }

  function NormalizedRoutes(routes: seq<Route>): (n: seq<Route>)
    ensures |n| == |routes|
    ensures forall i :: 0 <= i < |routes| ==> n[i] == NormalizedRoute(routes[i])
  {
    seq(|routes|, i requires 0 <= i < |routes| => NormalizedRoute(routes[i]))
  }

  function Normalized(d: Desired): Desired {
    Desired(d.revision, NormalizedRoutes(d.routes))
  }

  /** The rewriting of a cloned slice. */
  method Normalize(d: Desired) returns (n: Desired)
    ensures n == Normalized(d)
  {
    var routes := d.routes;
    for i := 0 to |routes|
      invariant |routes| == |d.routes|
      invariant forall j :: 0 <= j < i ==> routes[j] == NormalizedRoute(d.routes[j])
      invariant forall j :: i <= j < |routes| ==> routes[j] == d.routes[j]
    {
      routes := routes[i := NormalizedRoute(routes[i])];
    }
    assert routes == NormalizedRoutes(d.routes);
    return Desired(d.revision, routes);
  }

  /** Whether a fetched state may follow the accepted one. */
  predicate Accepts(m: Memory, d: Desired) {
    && 0 <= d.revision
    && (m.accepted.Some? ==>
          || m.accepted.value.revision < d.revision
          || (m.accepted.value.revision == d.revision && Normalized(d) == m.accepted.value))
  }

  function Age(now: int, at: int): int { if now < at then 0 else now - at }

  /** The memory after one synchronization and the state it hands to the reconciler, if any. */
  function Step(m: Memory, ttl: int, e: Event): (Memory, Option<Handed>) {
    match e.fetch
    case Fetched(d) =>
      if Accepts(m, d) then (Memory(Some(Normalized(d)), Some(Cached(d, e.now))), Some(Handed(d, false, e.now, e.now)))
      else (m, None)
    case FetchFailed(recoverable) =>
      if e.cancelled then (m, None)
      else if !recoverable then (m.(cached := None), None)
      else if m.cached.None? then (m, None)
      else if Age(e.now, m.cached.value.at) <= ttl then
        (m, Some(Handed(m.cached.value.desired, true, m.cached.value.at, e.now)))
      else (m.(cached := None), None)
  }

  class Syncer {
    const reconciler: Reconciler
    const ttl: int
    var observedRevision: int
    var acceptedDesired: Desired
    var hasAccepted: bool
    var cachedDesired: Desired
    var cachedDesiredAt: int
    var hasCachedDesired: bool

    constructor (reconciler: Reconciler, ttl: int)
      ensures this.reconciler == reconciler && this.ttl == ttl
      ensures Remembered() == EMPTY && observedRevision == 0
    {
      this.reconciler := reconciler;
      this.ttl := ttl;
      observedRevision := 0;
      acceptedDesired, hasAccepted := Desired(0, []), false;
      cachedDesired, cachedDesiredAt, hasCachedDesired := Desired(0, []), 0, false;
    }

    ghost function Remembered(): Memory
      reads this
    {
      Memory(if hasAccepted then Some(acceptedDesired) else None,
             if hasCachedDesired then Some(Cached(cachedDesired, cachedDesiredAt)) else None)
    }

    method AcceptDesired(desired: Desired) returns (ok: bool)
      modifies this`acceptedDesired, this`hasAccepted
      ensures ok == Accepts(old(Remembered()), desired)
      ensures Remembered() == if ok then old(Remembered()).(accepted := Some(Normalized(desired))) else old(Remembered())
    {
      if desired.revision < 0 { return false; }
      var normalized := Normalize(desired);
      if hasAccepted {
        if desired.revision < acceptedDesired.revision { return false; }
        if desired.revision == acceptedDesired.revision && normalized != acceptedDesired { return false; }
        if desired.revision == acceptedDesired.revision { return true; }
      }
      acceptedDesired := normalized;
      hasAccepted := true;
      return true;
    }

    method DropCache()
      modifies this`cachedDesired, this`cachedDesiredAt, this`hasCachedDesired
      ensures !hasCachedDesired
    {
      cachedDesired, cachedDesiredAt, hasCachedDesired := Desired(0, []), 0, false;
    }

    /** One synchronization. `delivered` says whether the report got through; the report is sent only for
        a state that was just fetched. */
    method SyncOnce(e: Event, env: PassEnv, delivered: bool) returns (handed: Option<Desired>, report: Option<Observed>)
      modifies this, reconciler, reconciler.runner
      ensures Remembered() == Step(old(Remembered()), ttl, e).0
      ensures var h := Step(old(Remembered()), ttl, e).1;
        && (handed.Some? <==> h.Some?) && (h.Some? ==> handed.value == h.value.desired)
        && (report.Some? <==> h.Some? && !h.value.replay)
        && (h.Some? ==> reconciler.Current() == ReconcilePass(old(reconciler.Current()), h.value.desired, env).s)
        && (h.None? ==> reconciler.Current() == old(reconciler.Current()))
        && (report.Some? ==> Reported(report.value, ReconcilePass(old(reconciler.Current()), h.value.desired, env)))
        && observedRevision == if report.Some? && delivered then report.value.revision else old(observedRevision)
    {
      hide ReconcilePass, Reported;
      handed, report := None, None;
      if e.fetch.FetchFailed? {
        if e.fetch.recoverable && hasCachedDesired && !e.cancelled {
          var age := e.now - cachedDesiredAt;
          if age < 0 { age := 0; }
          if age <= ttl {
            var _ := reconciler.Reconcile(cachedDesired, env);
            return Some(cachedDesired), None;
          }
          DropCache();
          return;
        }
        if !e.fetch.recoverable && !e.cancelled {
          DropCache();
        }
        return;
      }
      var desired := e.fetch.desired;
      var ok := AcceptDesired(desired);
      if !ok { return; }
      cachedDesired, cachedDesiredAt, hasCachedDesired := desired, e.now, true;
      var observed := reconciler.Reconcile(desired, env);
      if delivered {
        observedRevision := observed.revision;
      }
      return Some(desired), Some(observed);
    }
  }

  // ---- Every run ----

  datatype History = History(memory: Memory, log: seq<Handed>)

  function Advance(h: History, ttl: int, e: Event): History {
    var (memory, handed) := Step(h.memory, ttl, e);
    History(memory, if handed.Some? then h.log + [handed.value] else h.log)
  }

  function Run(ttl: int, events: seq<Event>): History {
    if events == [] then History(EMPTY, [])
    else Advance(Run(ttl, events[..|events| - 1]), ttl, events[|events| - 1])
  }

  /** Revisions handed to the reconciler never decrease, and equal revisions carry equal content. */
  predicate Monotone(log: seq<Handed>) {
    forall i, j :: 0 <= i < j < |log| ==>
      && log[i].desired.revision <= log[j].desired.revision
      && (log[i].desired.revision == log[j].desired.revision ==> Normalized(log[i].desired) == Normalized(log[j].desired))
  }

  /** Entry j is the fetch that entry i replays: the latest fetch before it, young enough when replayed. */
  predicate ReplayOf(log: seq<Handed>, i: int, j: int, ttl: int) {
    && 0 <= j < i < |log| && !log[j].replay
    && log[i].desired == log[j].desired && log[i].fetchedAt == log[j].at
    && Age(log[i].at, log[j].at) <= ttl
    && forall k :: j < k <= i ==> log[k].replay
  }

  ghost predicate ReplaysJustified(log: seq<Handed>, ttl: int) {
    forall i :: 0 <= i < |log| && log[i].replay ==> exists j :: ReplayOf(log, i, j, ttl)
  }

  /** The memory in terms of the log: nothing handed exceeds what is accepted, and the cache is the
      latest fetch. */
  ghost predicate Remembers(h: History) {
    && (h.log != [] ==> h.memory.accepted.Some?)
    && (forall i :: 0 <= i < |h.log| ==>
          && h.log[i].desired.revision <= h.memory.accepted.value.revision
          && (h.log[i].desired.revision == h.memory.accepted.value.revision ==>
                Normalized(h.log[i].desired) == h.memory.accepted.value))
    && (h.memory.cached.Some? ==>
          && h.memory.accepted == Some(Normalized(h.memory.cached.value.desired))
          && exists j :: LatestFetch(h.log, j, h.memory.cached.value))
  }

  predicate LatestFetch(log: seq<Handed>, j: int, c: Cached) {
    && 0 <= j < |log| && !log[j].replay && log[j].desired == c.desired && log[j].at == c.at
    && forall k :: j < k < |log| ==> log[k].replay
  }

  lemma FetchKeeps(h: History, ttl: int, d: Desired, now: int)
    requires Remembers(h) && Monotone(h.log) && ReplaysJustified(h.log, ttl) && Accepts(h.memory, d)
    ensures var h' := History(Memory(Some(Normalized(d)), Some(Cached(d, now))), h.log + [Handed(d, false, now, now)]);
      Remembers(h') && Monotone(h'.log) && ReplaysJustified(h'.log, ttl)
  {
    hide Normalized;
    assert Normalized(d).revision == d.revision by { NormalizedRevision(d); }
    var h' := History(Memory(Some(Normalized(d)), Some(Cached(d, now))), h.log + [Handed(d, false, now, now)]);
    assert LatestFetch(h'.log, |h.log|, Cached(d, now));
    OldReplays(h.log, Handed(d, false, now, now), ttl);
  }

  lemma NormalizedRevision(d: Desired)
    ensures Normalized(d).revision == d.revision
  {}

  lemma OldReplays(log: seq<Handed>, last: Handed, ttl: int)
    requires ReplaysJustified(log, ttl)
    ensures forall i :: 0 <= i < |log| && (log + [last])[i].replay ==> exists j :: ReplayOf(log + [last], i, j, ttl)
  {
    forall i | 0 <= i < |log| && (log + [last])[i].replay ensures exists j :: ReplayOf(log + [last], i, j, ttl) {
      assert log[i].replay;
      var j :| ReplayOf(log, i, j, ttl);
      assert ReplayOf(log + [last], i, j, ttl);
    }
  }

  lemma ReplayKeeps(h: History, ttl: int, now: int)
    requires Remembers(h) && Monotone(h.log) && ReplaysJustified(h.log, ttl)
    requires h.memory.cached.Some? && Age(now, h.memory.cached.value.at) <= ttl
    ensures var c := h.memory.cached.value;
      var h' := h.(log := h.log + [Handed(c.desired, true, c.at, now)]);
      Remembers(h') && Monotone(h'.log) && ReplaysJustified(h'.log, ttl)
  {
    hide Normalized;
    var c := h.memory.cached.value;
    NormalizedRevision(c.desired);
    var h' := h.(log := h.log + [Handed(c.desired, true, c.at, now)]);
    var j :| LatestFetch(h.log, j, c);
    assert LatestFetch(h'.log, j, c);
    assert ReplayOf(h'.log, |h.log|, j, ttl);
    OldReplays(h.log, Handed(c.desired, true, c.at, now), ttl);
  }

  /** In every run: what is handed over never goes back, and every replay is the latest fetch, in time. */
  lemma {:induction false} RunIsSafe(ttl: int, events: seq<Event>)
    ensures var h := Run(ttl, events);
      Remembers(h) && Monotone(h.log) && ReplaysJustified(h.log, ttl)
  {
    hide Accepts, Normalized;
    if events != [] {
      var h, e := Run(ttl, events[..|events| - 1]), events[|events| - 1];
      RunIsSafe(ttl, events[..|events| - 1]);
      if e.fetch.Fetched? {
        if Accepts(h.memory, e.fetch.desired) { FetchKeeps(h, ttl, e.fetch.desired, e.now); }
      } else if !e.cancelled && e.fetch.recoverable && h.memory.cached.Some?
          && Age(e.now, h.memory.cached.value.at) <= ttl {
        ReplayKeeps(h, ttl, e.now);
      }
    }
  }

  /** What is accepted was handed over. */
  lemma {:induction false} AcceptedWasHanded(ttl: int, events: seq<Event>)
    ensures var h := Run(ttl, events);
      h.memory.accepted.Some? ==> exists j :: 0 <= j < |h.log| && Normalized(h.log[j].desired) == h.memory.accepted.value
  {
    hide Accepts, Normalized;
    if events != [] {
      var h, e := Run(ttl, events[..|events| - 1]), events[|events| - 1];
      var h' := Advance(h, ttl, e);
      AcceptedWasHanded(ttl, events[..|events| - 1]);
      if e.fetch.Fetched? && Accepts(h.memory, e.fetch.desired) {
        assert h'.log[|h.log|].desired == e.fetch.desired;
      } else if h.memory.accepted.Some? {
        var j :| 0 <= j < |h.log| && Normalized(h.log[j].desired) == h.memory.accepted.value;
        assert h'.log[j] == h.log[j];
      }
    }
  }

  /** The state contradicts what was handed over before: it is older than some of it, or other content at its revision. */
  predicate Contradicts(log: seq<Handed>, d: Desired) {
    exists j :: 0 <= j < |log| && (d.revision < log[j].desired.revision
      || (d.revision == log[j].desired.revision && Normalized(d) != Normalized(log[j].desired)))
  }

  /** In every run a fetched state is refused exactly if its revision is negative or it contradicts what was handed over,
      and is handed over itself if not. */
  lemma RefusedIffContradicts(ttl: int, events: seq<Event>, e: Event)
    requires e.fetch.Fetched?
    ensures var h := Run(ttl, events);
      Step(h.memory, ttl, e).1 ==
        if e.fetch.desired.revision < 0 || Contradicts(h.log, e.fetch.desired) then None
        else Some(Handed(e.fetch.desired, false, e.now, e.now))
  {
    hide Run, ReplaysJustified, NormalizedRoutes;
    var h := Run(ttl, events);
    RunIsSafe(ttl, events);
    AcceptedWasHanded(ttl, events);
  }

  /** And then the run goes on as if it had never been fetched. */
  lemma {:induction false} RefusedLeavesNoTrace(ttl: int, before: seq<Event>, e: Event, after: seq<Event>)
    requires e.fetch.Fetched? && Step(Run(ttl, before).memory, ttl, e).1.None?
    ensures Run(ttl, before + [e] + after) == Run(ttl, before + after)
  {
    hide Accepts, Normalized;
    if after == [] {
      assert before + [e] + after == before + [e] && before + after == before;
      assert (before + [e])[..|before|] == before;
    } else {
      var n := |after| - 1;
      RefusedLeavesNoTrace(ttl, before, e, after[..n]);
      assert (before + [e] + after)[..|before| + 1 + n] == before + [e] + after[..n];
      assert (before + after)[..|before| + n] == before + after[..n];
    }
  }

  // ---- Replays ----

  /** Event k is a fetch that was accepted. */
  predicate FetchedAt(ttl: int, events: seq<Event>, k: int) {
    0 <= k < |events| && events[k].fetch.Fetched? && Accepts(Run(ttl, events[..k]).memory, events[k].fetch.desired)
  }

  /** A failure after which a state fetched at that time is not kept: one that cannot be recovered from, or an attempt to
      replay the state when it has expired. Under a cancelled context neither is looked at. */
  predicate Forgets(e: Event, fetchedAt: int, ttl: int) {
    e.fetch.FetchFailed? && !e.cancelled && (!e.fetch.recoverable || Age(e.now, fetchedAt) > ttl)
  }

  /** Event k is the latest accepted fetch, and no failure since then made its state forgotten. */
  ghost predicate KeptAt(ttl: int, events: seq<Event>, k: int) {
    && FetchedAt(ttl, events, k)
    && (forall j :: FetchedAt(ttl, events, j) ==> j <= k)
    && (forall j :: k < j < |events| ==> !Forgets(events[j], events[k].now, ttl))
  }

  lemma FetchedLast(ttl: int, events: seq<Event>, e: Event)
    ensures FetchedAt(ttl, events + [e], |events|) <==> e.fetch.Fetched? && Accepts(Run(ttl, events).memory, e.fetch.desired)
    ensures forall k :: FetchedAt(ttl, events + [e], k) ==> 0 <= k <= |events|
    ensures forall k :: k < |events| ==> (FetchedAt(ttl, events + [e], k) <==> FetchedAt(ttl, events, k))
  {
    hide Run, Accepts;
    var more := events + [e];
    assert more[..|events|] == events;
    forall k | k < |events| ensures FetchedAt(ttl, more, k) <==> FetchedAt(ttl, events, k) {
      if 0 <= k { assert more[..k] == events[..k]; }
    }
  }

  lemma KeptStep(ttl: int, events: seq<Event>, e: Event)
    ensures var fetched := e.fetch.Fetched? && Accepts(Run(ttl, events).memory, e.fetch.desired);
      && (fetched ==> KeptAt(ttl, events + [e], |events|) && forall k :: k < |events| ==> !KeptAt(ttl, events + [e], k))
      && (!fetched ==> forall k :: KeptAt(ttl, events + [e], k) <==>
            KeptAt(ttl, events, k) && !Forgets(e, events[k].now, ttl))
  {
    hide Run, Accepts, FetchedAt, Forgets;
    var more := events + [e];
    FetchedLast(ttl, events, e);
    FetchedInRange(ttl, events);
    assert more[|events|] == e && forall j :: 0 <= j < |events| ==> more[j] == events[j];
    if !(e.fetch.Fetched? && Accepts(Run(ttl, events).memory, e.fetch.desired)) {
      forall k ensures KeptAt(ttl, more, k) <==> KeptAt(ttl, events, k) && !Forgets(e, events[k].now, ttl) {
        if KeptAt(ttl, more, k) {
          assert k < |events| && more[k] == events[k];
          assert !Forgets(more[|events|], more[k].now, ttl);
          forall j | k < j < |events| ensures !Forgets(events[j], events[k].now, ttl) { assert more[j] == events[j]; }
        }
      }
    }
  }

  lemma FetchedInRange(ttl: int, events: seq<Event>)
    ensures forall k :: FetchedAt(ttl, events, k) ==> 0 <= k < |events|
  {}

  /** In every run the cache holds the latest accepted fetch, unless a failure since then made it forgotten. */
  lemma {:induction false} CacheIff(ttl: int, events: seq<Event>)
    ensures var cached := Run(ttl, events).memory.cached;
      && (cached.Some? <==> exists k :: KeptAt(ttl, events, k))
      && forall k :: KeptAt(ttl, events, k) ==>
           events[k].fetch.Fetched? && cached == Some(Cached(events[k].fetch.desired, events[k].now))
  {
    if events != [] {
      var n := |events| - 1;
      var earlier, e := events[..n], events[n];
      assert events == earlier + [e];
      CacheIff(ttl, earlier);
      KeptStep(ttl, earlier, e);
      KeptIsFetched(ttl, earlier);
      KeptIsFetched(ttl, events);
      hide KeptAt, Accepts, Normalized;
      var m := Run(ttl, earlier).memory;
      if k :| KeptAt(ttl, earlier, k) { assert events[k] == earlier[k]; }
    }
  }

  lemma KeptIsFetched(ttl: int, events: seq<Event>)
    ensures forall k :: KeptAt(ttl, events, k) ==> 0 <= k < |events| && events[k].fetch.Fetched?
  {
    hide Run, Accepts;
  }

  /** In every run a failed fetch hands over the state of the latest accepted fetch, as a replay, if and only if the
      failure can be recovered from, the context is not cancelled, that fetch is at most the time to live old, and no
      failure since then made its state forgotten. */
  lemma ReplayIff(ttl: int, events: seq<Event>, e: Event)
    requires e.fetch.FetchFailed?
    ensures var handed := Step(Run(ttl, events).memory, ttl, e).1;
      && (handed.Some? <==>
            && e.fetch.recoverable && !e.cancelled
            && exists k :: KeptAt(ttl, events, k) && Age(e.now, events[k].now) <= ttl)
      && forall k :: KeptAt(ttl, events, k) && handed.Some? ==>
           events[k].fetch.Fetched? && handed == Some(Handed(events[k].fetch.desired, true, events[k].now, e.now))
  {
    hide Run, KeptAt;
    CacheIff(ttl, events);
    KeptIsFetched(ttl, events);
    if Run(ttl, events).memory.cached.Some? {
      var k :| KeptAt(ttl, events, k);
    }
  }
}
