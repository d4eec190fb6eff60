/** Which stream listeners exist: the reconciling pass of the stream edge (internal/tcpedge/manager.go). */
module StreamManager {
  import opened Results
  import opened Routes
  import Text

  datatype PortKey = PortKey(protocol: Protocol, port: int)

  /** A worker is told apart from its successors by its serial number. */
  datatype Worker = Worker(route: Route, serial: nat)

  datatype Status = Disabled | Invalid | WaitingAgent | Pending | Conflict | BindError | Published

  datatype Publication = Publication(status: Status, worker: Option<nat>)

  datatype Event = Stopped(key: PortKey) | Started(key: PortKey, serial: nat)

  /** What a pass meets: the clock, ports other processes hold, workers that have ended by themselves, and whether
      agents have isolated addresses. */
  datatype World = World(now: int, busy: set<PortKey>, ended: set<nat>, isolated: bool)

  function KeyOf(r: Route): PortKey { PortKey(r.protocol, r.publicPort) }

  predicate SameTarget(current: Route, desired: Route) {
    && current.id == desired.id && current.clientId == desired.clientId && current.protocol == desired.protocol
    && current.remotePort == desired.remotePort && current.publicPort == desired.publicPort
  }

  /** A listener could be opened for the route if nobody of ours held the port. */
  predicate Listenable(r: Route, world: World) {
    && (world.isolated ==> Text.TrimSpace(r.clientId) != "")
    && KeyOf(r) !in world.busy
  }

  /** An enabled stream route with a port whose agent serves it. */
  predicate Claims(r: Route, now: int) {
    r.protocol.IsStream() && r.enabled && r.publicPort >= 1 && PublicationReadyAt(r, now)
  }

  /** The routes that claim a port, in list order. */
  function Candidates(routes: seq<Route>, now: int, key: PortKey): (c: seq<Route>)
    ensures forall r :: r in c <==> r in routes && Claims(r, now) && KeyOf(r) == key
  {
    if routes == [] then []
    else
      var before, last := Candidates(routes[..|routes| - 1], now, key), routes[|routes| - 1];
      if Claims(last, now) && KeyOf(last) == key then before + [last] else before
  }

  predicate DistinctIds(routes: seq<Route>) {
    forall i, j :: 0 <= i < j < |routes| ==> routes[i].id != routes[j].id
  }

  /** The state of a route before listeners are looked at. */
  function ScanStatus(r: Route, now: int): Status {
    if !r.enabled then Disabled
    else if r.publicPort < 1 then Invalid
    else if !PublicationReadyAt(r, now) then WaitingAgent
    else Pending
  }

  predicate Sole(routes: seq<Route>, now: int, key: PortKey) { |Candidates(routes, now, key)| == 1 }

  function SoleRoute(routes: seq<Route>, now: int, key: PortKey): (r: Route)
    requires Sole(routes, now, key)
    ensures r in routes && Claims(r, now) && KeyOf(r) == key
  {
    Candidates(routes, now, key)[0]
  }

  /** A worker that a pass leaves alone. */
  predicate Keeps(w: Worker, routes: seq<Route>, key: PortKey, world: World) {
    Sole(routes, world.now, key) && SameTarget(w.route, SoleRoute(routes, world.now, key)) && w.serial !in world.ended
  }

  /** What a key's worker is after a pass, given what it was before. `fresh` numbers are those not used before. */
  ghost predicate KeyServed(routes: seq<Route>, world: World, before: map<PortKey, Worker>, unused: nat,
                            after: map<PortKey, Worker>, key: PortKey) {
    if !Sole(routes, world.now, key) then key !in after
    else if key in before && Keeps(before[key], routes, key, world) then key in after && after[key] == before[key]
    else if Listenable(SoleRoute(routes, world.now, key), world) then
      key in after && after[key].route == SoleRoute(routes, world.now, key) && after[key].serial >= unused
    else key !in after
  }

  /** The status a stream route is given. */
  function FinalStatus(r: Route, routes: seq<Route>, now: int, workers: map<PortKey, Worker>): Publication {
    if !Claims(r, now) then Publication(ScanStatus(r, now), None)
    else if !Sole(routes, now, KeyOf(r)) then Publication(Conflict, None)
    else if KeyOf(r) in workers then Publication(Published, Some(workers[KeyOf(r)].serial))
    else Publication(BindError, None)
  }

  function StreamIds(routes: seq<Route>): set<string> {
    set i | 0 <= i < |routes| && routes[i].protocol.IsStream() :: routes[i].id
  }

  predicate StopsThenStarts(events: seq<Event>) {
    forall i, j :: 0 <= i < j < |events| && events[i].Started? ==> events[j].Started?
  }

  ghost predicate WorkersFit(workers: map<PortKey, Worker>, serials: nat) {
    && (forall key :: key in workers ==> KeyOf(workers[key].route) == key && workers[key].serial < serials)
    && (forall a, b :: a in workers && b in workers && workers[a].serial == workers[b].serial ==> a == b)
  }

  /** The new events are stops of workers that are not kept. */
  ghost predicate OnlyStopped(before: seq<Event>, after: seq<Event>, workers: map<PortKey, Worker>, routes: seq<Route>,
                              world: World) {
    && before <= after
    && forall i :: |before| <= i < |after| ==>
         after[i].Stopped? && after[i].key in workers && !Keeps(workers[after[i].key], routes, after[i].key, world)
  }

  /** The new events are starts on ports without a worker. */
  ghost predicate OnlyStarted(before: seq<Event>, after: seq<Event>, workers: map<PortKey, Worker>) {
    && before <= after
    && forall i :: |before| <= i < |after| ==> after[i].Started? && after[i].key !in workers
  }

  /** A worker that can stay is neither stopped nor started again. */
  ghost predicate KeptUntouched(before: seq<Event>, after: seq<Event>, workers: map<PortKey, Worker>, routes: seq<Route>,
                                world: World) {
    && before <= after
    && forall i :: |before| <= i < |after| && after[i].key in workers ==>
         !Keeps(workers[after[i].key], routes, after[i].key, world)
  }

  /** Exactly the stream routes have a status, and it is the one that fits the workers. */
  ghost predicate StatusesTold(statuses: map<string, Publication>, routes: seq<Route>, now: int, workers: map<PortKey, Worker>) {
    && statuses.Keys == StreamIds(routes)
    && (DistinctIds(routes) ==> forall r :: r in routes && r.protocol.IsStream() ==>
          r.id in statuses && statuses[r.id] == FinalStatus(r, routes, now, workers))
  }

  class Manager {
    var workers: map<PortKey, Worker>
    var statuses: map<string, Publication>
    var serials: nat
    /** The ports on which the system has a listener of this process open. */
    var listening: set<PortKey>
    ghost var events: seq<Event>

    ghost predicate Valid()
      reads this
    {
      listening == workers.Keys && WorkersFit(workers, serials)
    }

    constructor ()
      ensures Valid() && workers == map[] && statuses == map[] && events == []
    {
      workers, statuses, serials, listening, events := map[], map[], 0, {}, [];
    }

    /** Opening a listener fails exactly when the port is taken, by others or by a worker of our own; a started
        worker is visible at once. */
    method Start(route: Route, world: World) returns (worker: Option<Worker>)
      modifies this
      ensures workers == old(workers)
      ensures worker.Some? <==> Listenable(route, world) && KeyOf(route) !in old(listening)
      ensures worker.None? ==> listening == old(listening) && events == old(events) && serials == old(serials)
      ensures worker.Some? ==>
        && worker.value == Worker(route, old(serials)) && serials == old(serials) + 1
        && listening == old(listening) + {KeyOf(route)}
        && events == old(events) + [Started(KeyOf(route), old(serials))]
    {
      if world.isolated && Text.TrimSpace(route.clientId) == "" { return None; }
      if KeyOf(route) in world.busy || KeyOf(route) in listening { return None; }
      var started := Worker(route, serials);
      listening := listening + {KeyOf(route)};
      events := events + [Started(KeyOf(route), serials)];
      statuses := statuses[route.id := Publication(Published, Some(serials))];
      serials := serials + 1;
      return Some(started);
    }

    /** Stopping closes the listener. */
    method Stop(key: PortKey)
      modifies this
      ensures listening == old(listening) - {key} && workers == old(workers) - {key} && serials == old(serials)
      ensures events == old(events) + [Stopped(key)]
    {
      listening := listening - {key};
      events := events + [Stopped(key)];
      workers := workers - {key};
    }

    method StopAll()
      requires Valid()
      modifies this
      ensures Valid() && workers == map[] && statuses == map[] && serials == old(serials)
      ensures old(events) <= events && forall i :: |old(events)| <= i < |events| ==> events[i].Stopped?
    {
      hide WorkersFit;
      while workers != map[]
        invariant Valid() && serials == old(serials)
        invariant old(events) <= events && forall i :: |old(events)| <= i < |events| ==> events[i].Stopped?
        decreases |workers|
      {
        var key :| key in workers;
        Fewer(workers, key);
        StillFit(workers, serials, key);
        Stop(key);
      }
      statuses := map[];
    }

    /** Stops every worker that is not wanted as it is. */
    method StopUnwanted(routes: seq<Route>, world: World, desired: map<PortKey, Route>)
      requires Valid() && Wanted(desired, routes, world.now)
      modifies this
      ensures Valid() && serials == old(serials)
      ensures StoppedUpTo(old(workers), workers, {}, routes, world)
      ensures OnlyStopped(old(events), events, old(workers), routes, world)
    {
      hide Sole, SoleRoute, WorkersFit, StoppedUpTo;
      var todo := workers.Keys;
      NothingStopped(workers, routes, world);
      while todo != {}
        invariant Valid() && serials == old(serials) && todo <= workers.Keys <= old(workers).Keys
        invariant StoppedUpTo(old(workers), workers, todo, routes, world)
        invariant OnlyStopped(old(events), events, old(workers), routes, world)
        decreases todo
      {
        var key :| key in todo;
        var current := workers[key];
        StopStep(old(workers), workers, todo, routes, world, key);
        if key !in desired || !SameTarget(current.route, desired[key]) || current.serial in world.ended {
          StillFit(workers, serials, key);
          Stop(key);
        }
        todo := todo - {key};
      }
    }

    /** Starts a worker for each desired port that has none, and gives each desired route its status. */
    method StartMissing(routes: seq<Route>, world: World, desired: map<PortKey, Route>, chosen: map<string, Publication>)
      returns (found: map<string, Publication>)
      requires Valid() && Wanted(desired, routes, world.now) && workers.Keys <= desired.Keys
      requires StatusesFinal(chosen, routes, world.now, {}, workers)
      modifies this
      ensures Valid() && serials >= old(serials)
      ensures StartedUpTo(old(workers), workers, desired, {}, world, old(serials))
      ensures StatusesFinal(found, routes, world.now, desired.Keys, workers)
      ensures OnlyStarted(old(events), events, old(workers))
    {
      hide Sole, SoleRoute, Listenable, WorkersFit, StatusesFinal, StartedUpTo, SameTarget;
      found := chosen;
      var todo := desired.Keys;
      NothingStarted(workers, desired, world, serials);
      assert desired.Keys - todo == {};
      while todo != {}
        invariant Valid() && serials >= old(serials) && todo <= desired.Keys
        invariant StartedUpTo(old(workers), workers, desired, todo, world, old(serials))
        invariant StatusesFinal(found, routes, world.now, desired.Keys - todo, workers)
        invariant OnlyStarted(old(events), events, old(workers))
        decreases todo
      {
        var key :| key in todo;
        var route := desired[key];
        DesiredKeys(desired, routes, world.now, key);
        StartStep(old(workers), workers, desired, todo, world, old(serials), key, serials);
        StatusStep(found, routes, world.now, desired.Keys - todo, workers, route, serials);
        if key in workers {
          found := found[route.id := Publication(Published, Some(workers[key].serial))];
        } else {
          var worker := Start(route, world);
          if worker.None? {
            found := found[route.id := Publication(BindError, None)];
          } else {
            AlsoFit(workers, old(serials), serials - 1, worker.value);
            workers := workers[key := worker.value];
            found := found[route.id := Publication(Published, Some(worker.value.serial))];
          }
        }
        assert desired.Keys - (todo - {key}) == desired.Keys - todo + {key};
        todo := todo - {key};
      }
      assert desired.Keys - todo == desired.Keys;
    }

    /** What a status query answers, in between or after passes; None for a route that is not a stream route. */
    function PublicStatus(route: Route, now: int, ended: set<nat>): Option<Status>
      reads this
    {
      if !route.protocol.IsStream() then None
      else if ScanStatus(route, now) != Pending then Some(ScanStatus(route, now))
      else if route.id !in statuses then Some(Pending)
      else
        var state := statuses[route.id];
        if state.status == Published && (state.worker.None? || state.worker.value in ended) then Some(Pending)
        else Some(state.status)
    }

    /** One pass. A failing list of routes stops everything. */
    method Reconcile(list: Option<seq<Route>>, world: World) returns (ok: bool)
      requires Valid()
      modifies this
      ensures Valid() && ok == list.Some?
      ensures list.None? ==> workers == map[] && statuses == map[]
      ensures list.Some? ==> forall key :: KeyServed(list.value, world, old(workers), old(serials), workers, key)
      ensures list.Some? ==> StatusesTold(statuses, list.value, world.now, workers)
      ensures old(events) <= events && StopsThenStarts(events[|old(events)|..])
      ensures list.Some? ==> KeptUntouched(old(events), events, old(workers), list.value, world)
    {
      hide Claims, Candidates, Sole, SoleRoute, Keeps, KeyServed, StatusesFinal, StatusesTold, WorkersFit, Wanted,
        StoppedUpTo, StartedUpTo, KeptUntouched, StatusesChosen, OnlyStopped, OnlyStarted, Scanned;
      if list.None? {
        StopAll();
        return false;
      }
      var routes := list.value;
      var scanned, byPort := Scan(routes, world.now);
      ScannedChosen(routes, world.now);
      var chosen, desired := Choose(routes, world.now, scanned, byPort);
      StopUnwanted(routes, world, desired);
      ghost var remaining, halfway := workers, events;
      StoppedAreWanted(old(workers), workers, desired, routes, world);
      ChosenAreFinal(chosen, routes, world.now, byPort.Keys, workers) by { ClaimedPortsSeen(byPort, routes, world.now); }
      var found := StartMissing(routes, world, desired, chosen);
      statuses := found;
      AllServed(old(workers), remaining, workers, desired, routes, world, old(serials));
      AllTold(found, desired, routes, world.now, workers);
      StopsBeforeStarts(old(events), halfway, events, old(workers), remaining, routes, world);
      return true;
    }
  }

  // ---- Steps of the loops ----

  ghost predicate Wanted(desired: map<PortKey, Route>, routes: seq<Route>, now: int) {
    && (forall key :: key in desired <==> Sole(routes, now, key))
    && (forall key :: key in desired ==> desired[key] == SoleRoute(routes, now, key))
  }

  lemma DesiredKeys(desired: map<PortKey, Route>, routes: seq<Route>, now: int, key: PortKey)
    requires Wanted(desired, routes, now) && key in desired
    ensures KeyOf(desired[key]) == key && desired[key] in routes && Claims(desired[key], now) && Sole(routes, now, key)
  {}

  ghost predicate StoppedUpTo(before: map<PortKey, Worker>, after: map<PortKey, Worker>, todo: set<PortKey>,
                              routes: seq<Route>, world: World) {
    && (forall key :: key in after ==> key in before && after[key] == before[key])
    && (forall key :: key in before ==> (key in after <==> key in todo || Keeps(before[key], routes, key, world)))
  }

  lemma NothingStopped(workers: map<PortKey, Worker>, routes: seq<Route>, world: World)
    ensures StoppedUpTo(workers, workers, workers.Keys, routes, world)
  {}

  lemma StopStep(before: map<PortKey, Worker>, after: map<PortKey, Worker>, todo: set<PortKey>,
                 routes: seq<Route>, world: World, key: PortKey)
    requires StoppedUpTo(before, after, todo, routes, world) && key in todo && key in after
    ensures key in before && before[key] == after[key]
    ensures if Keeps(before[key], routes, key, world) then StoppedUpTo(before, after, todo - {key}, routes, world)
            else StoppedUpTo(before, after - {key}, todo - {key}, routes, world)
  {
    hide Keeps;
  }

  lemma StillFit(workers: map<PortKey, Worker>, serials: nat, key: PortKey)
    requires WorkersFit(workers, serials)
    ensures WorkersFit(workers - {key}, serials)
  {}

  lemma AlsoFit(workers: map<PortKey, Worker>, first: nat, serials: nat, w: Worker)
    requires WorkersFit(workers, serials) && w.serial == serials
    ensures WorkersFit(workers[KeyOf(w.route) := w], serials + 1)
  {}

  ghost predicate StartedUpTo(before: map<PortKey, Worker>, after: map<PortKey, Worker>, desired: map<PortKey, Route>,
                              todo: set<PortKey>, world: World, unused: nat) {
    && (forall key :: key in before ==> key in after && after[key] == before[key])
    && (forall key :: key !in before ==>
          (key in after <==> key in desired && key !in todo && Listenable(desired[key], world)))
    && (forall key :: key in after && key !in before ==>
          key in desired && after[key].route == desired[key] && after[key].serial >= unused)
  }

  lemma NothingStarted(workers: map<PortKey, Worker>, desired: map<PortKey, Route>, world: World, unused: nat)
    ensures StartedUpTo(workers, workers, desired, desired.Keys, world, unused)
  {}

  lemma StartStep(before: map<PortKey, Worker>, after: map<PortKey, Worker>, desired: map<PortKey, Route>,
                  todo: set<PortKey>, world: World, unused: nat, key: PortKey, serial: nat)
    requires StartedUpTo(before, after, desired, todo, world, unused) && key in todo && key in desired && serial >= unused
    ensures key in after ==> key in before && StartedUpTo(before, after, desired, todo - {key}, world, unused)
    ensures key !in after ==> key !in before
    ensures key !in after && Listenable(desired[key], world) ==>
      StartedUpTo(before, after[key := Worker(desired[key], serial)], desired, todo - {key}, world, unused)
    ensures key !in after && !Listenable(desired[key], world) ==>
      StartedUpTo(before, after, desired, todo - {key}, world, unused)
  {
    hide Listenable;
  }

  /** The statuses when the desired ports in `done` have been served. */
  ghost predicate StatusesFinal(statuses: map<string, Publication>, routes: seq<Route>, now: int, done: set<PortKey>,
                                workers: map<PortKey, Worker>) {
    && statuses.Keys == StreamIds(routes)
    && (DistinctIds(routes) ==> forall r :: r in routes && r.protocol.IsStream() ==>
          && r.id in statuses
          && (KeyOf(r) in done || !Claims(r, now) || !Sole(routes, now, KeyOf(r)) ==>
                statuses[r.id] == FinalStatus(r, routes, now, workers)))
  }

  lemma StatusStep(statuses: map<string, Publication>, routes: seq<Route>, now: int, done: set<PortKey>,
                   workers: map<PortKey, Worker>, route: Route, serial: nat)
    requires StatusesFinal(statuses, routes, now, done, workers) && KeyOf(route) !in done
    requires route in routes && Claims(route, now) && Sole(routes, now, KeyOf(route))
    ensures var key := KeyOf(route);
      && (key in workers ==>
            StatusesFinal(statuses[route.id := Publication(Published, Some(workers[key].serial))],
                          routes, now, done + {key}, workers))
      && (key !in workers ==>
            && StatusesFinal(statuses[route.id := Publication(BindError, None)], routes, now, done + {key}, workers)
            && StatusesFinal(statuses[route.id := Publication(Published, Some(serial))],
                             routes, now, done + {key}, workers[key := Worker(route, serial)]))
  {
    hide Claims, ScanStatus, StreamIds;
    assert route.id in StreamIds(routes) by { ClaimantHasStatus(routes, route, now); }
    if DistinctIds(routes) {
      SameIdSameRoute(routes);
      SoleIsOnly(routes, now, route);
    }
    hide DistinctIds, Sole;
  }

  lemma ClaimantHasStatus(routes: seq<Route>, route: Route, now: int)
    requires route in routes && Claims(route, now)
    ensures route.id in StreamIds(routes)
  {
    hide PublicationReadyAt;
  }

  lemma SoleIsOnly(routes: seq<Route>, now: int, route: Route)
    requires route in routes && Claims(route, now) && Sole(routes, now, KeyOf(route))
    ensures forall r :: r in routes && Claims(r, now) && KeyOf(r) == KeyOf(route) ==> r == route
  {
    hide Claims;
    var c := Candidates(routes, now, KeyOf(route));
    assert forall r :: r in c ==> r == c[0];
  }

  lemma Fewer<K, V>(m: map<K, V>, k: K)
    requires k in m
    ensures |m - {k}| < |m|
  {
    assert (m - {k}).Keys == m.Keys - {k};
  }

  // ---- The pieces of a pass ----

  /** The statuses the first loop leaves. */
  function Scanned(routes: seq<Route>, now: int): map<string, Publication> {
    if routes == [] then map[]
    else
      var before, last := Scanned(routes[..|routes| - 1], now), routes[|routes| - 1];
      if last.protocol.IsStream() then before[last.id := Publication(ScanStatus(last, now), None)] else before
  }

  lemma ScannedGrows(routes: seq<Route>, r: Route, now: int)
    ensures Scanned(routes + [r], now) ==
      if r.protocol.IsStream() then Scanned(routes, now)[r.id := Publication(ScanStatus(r, now), None)]
      else Scanned(routes, now)
  {
    hide ScanStatus;
    assert (routes + [r])[..|routes|] == routes;
  }

  lemma {:induction false} ScannedStatuses(routes: seq<Route>, now: int)
    ensures Scanned(routes, now).Keys == StreamIds(routes)
    ensures DistinctIds(routes) ==> forall r :: r in routes && r.protocol.IsStream() ==>
      r.id in Scanned(routes, now) && Scanned(routes, now)[r.id] == Publication(ScanStatus(r, now), None)
  {
    hide ScanStatus, Scanned;
    if routes == [] {
      NothingScanned(now);
    } else {
      var prefix, last := routes[..|routes| - 1], routes[|routes| - 1];
      assert routes == prefix + [last];
      ScannedStatuses(prefix, now);
      ScannedGrows(prefix, last, now);
      StreamIdsGrow(prefix, last);
      hide StreamIds;
      if DistinctIds(routes) { DistinctPrefix(prefix, last); }
      hide DistinctIds;
    }
  }

  lemma DistinctPrefix(routes: seq<Route>, r: Route)
    requires DistinctIds(routes + [r])
    ensures DistinctIds(routes) && forall q :: q in routes ==> q.id != r.id
  {
    var all := routes + [r];
    assert all[|routes|] == r && forall i :: 0 <= i < |routes| ==> all[i] == routes[i];
    forall q | q in routes ensures q.id != r.id {
      var i :| 0 <= i < |routes| && routes[i] == q;
      assert all[i] == q;
    }
  }

  lemma StreamIdsGrow(routes: seq<Route>, r: Route)
    ensures StreamIds(routes + [r]) == StreamIds(routes) + if r.protocol.IsStream() then {r.id} else {}
  {
    var all := routes + [r];
    assert all[|routes|] == r;
    forall id | id in StreamIds(routes) ensures id in StreamIds(all) {
      var i :| 0 <= i < |routes| && routes[i].protocol.IsStream() && routes[i].id == id;
      assert all[i] == routes[i];
    }
  }

  /** The claiming routes, grouped by port. */
  ghost predicate Grouped(byPort: map<PortKey, seq<Route>>, routes: seq<Route>, now: int) {
    forall key :: (key in byPort <==> Candidates(routes, now, key) != [])
                  && (key in byPort ==> byPort[key] == Candidates(routes, now, key))
  }

  lemma GroupedGrows(byPort: map<PortKey, seq<Route>>, routes: seq<Route>, r: Route, now: int)
    requires Grouped(byPort, routes, now)
    ensures !Claims(r, now) ==> Grouped(byPort, routes + [r], now)
    ensures Claims(r, now) ==>
      Grouped(byPort[KeyOf(r) := (if KeyOf(r) in byPort then byPort[KeyOf(r)] else []) + [r]], routes + [r], now)
  {
    hide Claims;
    assert (routes + [r])[..|routes|] == routes;
    forall key
      ensures Candidates(routes + [r], now, key)
           == Candidates(routes, now, key) + if Claims(r, now) && KeyOf(r) == key then [r] else []
    {}
  }

  /** The first loop: a status for each stream route, and the claiming routes by port. */
  method Scan(routes: seq<Route>, now: int)
    returns (statuses: map<string, Publication>, byPort: map<PortKey, seq<Route>>)
    ensures statuses == Scanned(routes, now) && Grouped(byPort, routes, now)
  {
    hide PublicationReadyAt, Grouped, Candidates, Scanned;
    statuses, byPort := map[], map[];
    NothingScanned(now);
    for i := 0 to |routes|
      invariant statuses == Scanned(routes[..i], now) && Grouped(byPort, routes[..i], now)
    {
      var route := routes[i];
      assert routes[..i + 1] == routes[..i] + [route];
      ScannedGrows(routes[..i], route, now);
      GroupedGrows(byPort, routes[..i], route, now);
      if route.protocol.IsStream() {
        if !route.enabled {
          statuses := statuses[route.id := Publication(Disabled, None)];
        } else if route.publicPort < 1 {
          statuses := statuses[route.id := Publication(Invalid, None)];
        } else if !PublicationReadyAt(route, now) {
          statuses := statuses[route.id := Publication(WaitingAgent, None)];
        } else {
          statuses := statuses[route.id := Publication(Pending, None)];
          var key := KeyOf(route);
          byPort := byPort[key := (if key in byPort then byPort[key] else []) + [route]];
        }
      }
    }
    assert routes[..|routes|] == routes;
  }

  lemma NothingScanned(now: int)
    ensures Scanned([], now) == map[] && Grouped(map[], [], now)
  {}

  /** The inner conflict loop. */
  method MarkConflicts(given: map<string, Publication>, candidates: seq<Route>) returns (statuses: map<string, Publication>)
    requires forall r :: r in candidates ==> r.id in given
    ensures statuses.Keys == given.Keys
    ensures forall r :: r in candidates ==> statuses[r.id] == Publication(Conflict, None)
    ensures forall id :: id in given && (forall r :: r in candidates ==> r.id != id) ==> statuses[id] == given[id]
  {
    statuses := given;
    for i := 0 to |candidates|
      invariant statuses.Keys == given.Keys
      invariant forall j :: 0 <= j < i ==> statuses[candidates[j].id] == Publication(Conflict, None)
      invariant forall id :: id in given && (forall j :: 0 <= j < i ==> candidates[j].id != id) ==> statuses[id] == given[id]
    {
      statuses := statuses[candidates[i].id := Publication(Conflict, None)];
    }
  }

  /** The status of a route when the ports in `seen` have been looked at. */
  function ChosenStatus(r: Route, routes: seq<Route>, now: int, seen: set<PortKey>): Publication {
    if Claims(r, now) && KeyOf(r) in seen && !Sole(routes, now, KeyOf(r)) then Publication(Conflict, None)
    else Publication(ScanStatus(r, now), None)
  }

  ghost predicate StatusesChosen(statuses: map<string, Publication>, routes: seq<Route>, now: int, seen: set<PortKey>) {
    && statuses.Keys == StreamIds(routes)
    && (DistinctIds(routes) ==> forall r :: r in routes && r.protocol.IsStream() ==>
          r.id in statuses && statuses[r.id] == ChosenStatus(r, routes, now, seen))
  }

  lemma ConflictsMarked(before: map<string, Publication>, after: map<string, Publication>, routes: seq<Route>, now: int,
                        seen: set<PortKey>, key: PortKey)
    requires StatusesChosen(before, routes, now, seen) && key !in seen && !Sole(routes, now, key)
    requires after.Keys == before.Keys
    requires forall r :: r in Candidates(routes, now, key) ==> r.id in after && after[r.id] == Publication(Conflict, None)
    requires forall id ::
      id in before && (forall r :: r in Candidates(routes, now, key) ==> r.id != id) ==> after[id] == before[id]
    ensures StatusesChosen(after, routes, now, seen + {key})
  {
    hide Claims, Candidates, StreamIds, ScanStatus, Sole;
    if DistinctIds(routes) {
      forall r | r in routes && r.protocol.IsStream()
        ensures r.id in after && after[r.id] == ChosenStatus(r, routes, now, seen + {key})
      {
        if r !in Candidates(routes, now, key) {
          SameIdSameRoute(routes);
        }
      }
    }
  }

  lemma SameIdSameRoute(routes: seq<Route>)
    requires DistinctIds(routes)
    ensures forall a, b :: a in routes && b in routes && a.id == b.id ==> a == b
  {}

  /** The second loop: a port with one claimant is desired, the claimants of any other port are in conflict. */
  method Choose(routes: seq<Route>, now: int, scanned: map<string, Publication>, byPort: map<PortKey, seq<Route>>)
    returns (statuses: map<string, Publication>, desired: map<PortKey, Route>)
    requires StatusesChosen(scanned, routes, now, {}) && Grouped(byPort, routes, now)
    ensures StatusesChosen(statuses, routes, now, byPort.Keys)
    ensures Wanted(desired, routes, now)
  {
    hide Claims, Candidates, StreamIds, ScanStatus;
    statuses, desired := scanned, map[];
    var seen: set<PortKey> := {};
    while seen != byPort.Keys
      invariant seen <= byPort.Keys && StatusesChosen(statuses, routes, now, seen)
      invariant forall key :: key in desired <==> key in seen && Sole(routes, now, key)
      invariant forall key :: key in desired ==> desired[key] == SoleRoute(routes, now, key)
      decreases byPort.Keys - seen
    {
      var key :| key in byPort && key !in seen;
      var candidates := byPort[key];
      if |candidates| != 1 {
        CandidatesHaveStatus(routes, now, key);
        var marked := MarkConflicts(statuses, candidates);
        ConflictsMarked(statuses, marked, routes, now, seen, key);
        statuses := marked;
      } else {
        desired := desired[key := candidates[0]];
        assert StatusesChosen(statuses, routes, now, seen + {key});
      }
      seen := seen + {key};
    }
  }

  lemma CandidatesHaveStatus(routes: seq<Route>, now: int, key: PortKey)
    ensures forall r :: r in Candidates(routes, now, key) ==> r.id in StreamIds(routes)
  {
    hide PublicationReadyAt;
  }

  // ---- From the pieces to the pass ----

  lemma ScannedChosen(routes: seq<Route>, now: int)
    ensures StatusesChosen(Scanned(routes, now), routes, now, {})
  {
    hide ScanStatus, Scanned;
    ScannedStatuses(routes, now);
  }

  lemma ClaimedPortsSeen(byPort: map<PortKey, seq<Route>>, routes: seq<Route>, now: int)
    requires Grouped(byPort, routes, now)
    ensures forall r :: r in routes && Claims(r, now) ==> KeyOf(r) in byPort
  {
    hide Claims, KeyOf;
    forall r | r in routes && Claims(r, now) ensures KeyOf(r) in byPort {
      assert r in Candidates(routes, now, KeyOf(r));
    }
  }

  lemma ChosenAreFinal(statuses: map<string, Publication>, routes: seq<Route>, now: int, seen: set<PortKey>,
                       workers: map<PortKey, Worker>)
    requires StatusesChosen(statuses, routes, now, seen)
    requires forall r :: r in routes && Claims(r, now) ==> KeyOf(r) in seen
    ensures StatusesFinal(statuses, routes, now, {}, workers)
  {
    hide Claims, ScanStatus, StreamIds, Sole, DistinctIds;
  }

  lemma StoppedAreWanted(before: map<PortKey, Worker>, after: map<PortKey, Worker>, desired: map<PortKey, Route>,
                         routes: seq<Route>, world: World)
    requires StoppedUpTo(before, after, {}, routes, world) && Wanted(desired, routes, world.now)
    ensures after.Keys <= desired.Keys
  {
    hide Sole, SoleRoute;
  }

  lemma AllServed(before: map<PortKey, Worker>, remaining: map<PortKey, Worker>, after: map<PortKey, Worker>,
                  desired: map<PortKey, Route>, routes: seq<Route>, world: World, unused: nat)
    requires StoppedUpTo(before, remaining, {}, routes, world) && Wanted(desired, routes, world.now)
    requires StartedUpTo(remaining, after, desired, {}, world, unused)
    ensures forall key :: KeyServed(routes, world, before, unused, after, key)
  {
    hide Sole, SoleRoute, Listenable, SameTarget;
  }

  lemma AllTold(statuses: map<string, Publication>, desired: map<PortKey, Route>, routes: seq<Route>, now: int,
                workers: map<PortKey, Worker>)
    requires StatusesFinal(statuses, routes, now, desired.Keys, workers) && Wanted(desired, routes, now)
    ensures StatusesTold(statuses, routes, now, workers)
  {
    hide Claims, FinalStatus, StreamIds, Sole, SoleRoute, DistinctIds;
  }

  lemma StopsBeforeStarts(start: seq<Event>, middle: seq<Event>, end: seq<Event>, before: map<PortKey, Worker>,
                          remaining: map<PortKey, Worker>, routes: seq<Route>, world: World)
    requires StoppedUpTo(before, remaining, {}, routes, world)
    requires OnlyStopped(start, middle, before, routes, world) && OnlyStarted(middle, end, remaining)
    ensures start <= end && StopsThenStarts(end[|start|..])
    ensures KeptUntouched(start, end, before, routes, world)
  {
    hide Keeps;
    assert forall i :: |start| <= i < |middle| ==> end[i] == middle[i];
  }

  // ---- What a pass achieves ----

  /** After a pass a route with its port for itself has a live worker for its own target, or somebody else holds the
      port or its agent has no address. A worker of ours never stands in the way, so ports can be swapped. */
  lemma ServedOrBlocked(routes: seq<Route>, world: World, before: map<PortKey, Worker>, serials: nat,
                        after: map<PortKey, Worker>, statuses: map<string, Publication>, r: Route)
    requires forall key :: KeyServed(routes, world, before, serials, after, key)
    requires StatusesTold(statuses, routes, world.now, after) && DistinctIds(routes)
    requires r in routes && Claims(r, world.now)
    requires Sole(routes, world.now, KeyOf(r))
    requires WorkersFit(before, serials) && forall n :: n in world.ended ==> n < serials
    ensures r.id in statuses
    ensures KeyOf(r) in after ==>
      var w := after[KeyOf(r)];
      && w.route.id == r.id && w.route.clientId == r.clientId && w.route.remotePort == r.remotePort
      && w.serial !in world.ended && statuses[r.id] == Publication(Published, Some(w.serial))
    ensures KeyOf(r) !in after ==>
      && (KeyOf(r) in world.busy || (world.isolated && Text.TrimSpace(r.clientId) == ""))
      && statuses[r.id] == Publication(BindError, None)
  {
    hide DistinctIds, StreamIds;
    SoleIsOnly(routes, world.now, r);
    assert SoleRoute(routes, world.now, KeyOf(r)) == r;
    hide Claims, Sole, SoleRoute;
    assert KeyServed(routes, world, before, serials, after, KeyOf(r));
  }

  /** What a route's status says: why the route is not served, or that it is. */
  lemma StatusTells(routes: seq<Route>, now: int, workers: map<PortKey, Worker>, statuses: map<string, Publication>, r: Route)
    requires StatusesTold(statuses, routes, now, workers) && DistinctIds(routes)
    requires r in routes && r.protocol.IsStream()
    ensures r.id in statuses
    ensures var status, live := statuses[r.id].status, PublicationReadyAt(r, now);
      if !r.enabled then status == Disabled
      else if r.publicPort < 1 then status == Invalid
      else if !live then status == WaitingAgent
      else if exists q :: q in routes && q != r && Claims(q, now) && KeyOf(q) == KeyOf(r) then status == Conflict
      else if KeyOf(r) in workers then status == Published
      else status == BindError
  {
    hide StreamIds, PublicationReadyAt, Candidates;
    var c := Candidates(routes, now, KeyOf(r));
    if Claims(r, now) {
      assert r in c;
      if Sole(routes, now, KeyOf(r)) { SoleIsOnly(routes, now, r); }
      else { Others(routes, now, r); }
    }
  }

  /** A claimant that is not alone has another one beside it. */
  lemma Others(routes: seq<Route>, now: int, r: Route)
    requires DistinctIds(routes) && r in routes && Claims(r, now) && !Sole(routes, now, KeyOf(r))
    ensures exists q :: q in routes && q != r && Claims(q, now) && KeyOf(q) == KeyOf(r)
  {
    hide Claims;
    var c := Candidates(routes, now, KeyOf(r));
    CandidatesDiffer(routes, now, KeyOf(r));
    hide Candidates;
    assert r in c;
    var q := if c[0] == r then c[1] else c[0];
    assert q in c;
  }

  lemma {:induction false} CandidatesDiffer(routes: seq<Route>, now: int, key: PortKey)
    requires DistinctIds(routes)
    ensures DistinctIds(Candidates(routes, now, key))
  {
    hide Claims;
    if routes != [] {
      var earlier, last := routes[..|routes| - 1], routes[|routes| - 1];
      assert routes == earlier + [last];
      DistinctPrefix(earlier, last);
      CandidatesDiffer(earlier, now, key);
      var before := Candidates(earlier, now, key);
      assert forall i :: 0 <= i < |before| ==> before[i] in before;
    }
  }

  /** No worker outlives its claim: a worker after a pass serves the one route that claims its port. */
  lemma NoOtherWorker(routes: seq<Route>, world: World, before: map<PortKey, Worker>, serials: nat,
                      after: map<PortKey, Worker>, key: PortKey)
    requires forall k :: KeyServed(routes, world, before, serials, after, k)
    requires key in after
    ensures Sole(routes, world.now, key)
    ensures var r := SoleRoute(routes, world.now, key);
      && SameTarget(after[key].route, r) && r.enabled && r.tunnelStatus == "up" && r.observedRevision >= r.desiredRevision
      && after[key].route.id == r.id && after[key].route.clientId == r.clientId && after[key].route.remotePort == r.remotePort
  {
    hide Sole, Listenable;
    assert KeyServed(routes, world, before, serials, after, key);
  }

  /** With the same routes and no worker ended, the next pass keeps every worker. */
  lemma SecondPassKeeps(routes: seq<Route>, world: World, before: map<PortKey, Worker>, serials: nat,
                        after: map<PortKey, Worker>, key: PortKey, ended: set<nat>)
    requires forall k :: KeyServed(routes, world, before, serials, after, k)
    requires key in after && after[key].serial !in ended
    ensures Keeps(after[key], routes, key, world.(ended := ended))
  {
    NoOtherWorker(routes, world, before, serials, after, key);
  }

  /** Between passes a query answers what the last pass found, except that an ended worker is pending. */
  lemma PublicStatusAgrees(m: Manager, routes: seq<Route>, now: int, r: Route, ended: set<nat>)
    requires StatusesTold(m.statuses, routes, now, m.workers) && DistinctIds(routes)
    requires r in routes && r.protocol.IsStream()
    ensures var final := FinalStatus(r, routes, now, m.workers);
      m.PublicStatus(r, now, ended) == Some(
        if final.status == Published && m.workers[KeyOf(r)].serial in ended then Pending else final.status)
  {
    hide StreamIds, PublicationReadyAt, Sole;
  }
}
