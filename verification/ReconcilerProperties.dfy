/** What every reconcile pass guarantees, whatever the environment answers. */
module ReconcilerProperties {
  import opened Results
  import opened Routes
  import opened Reconciler

  // ---- What the desired state asks for ----

  /** The route that counts for an ID: its first occurrence. */
  function FirstRoute(routes: seq<Route>, id: string): Option<Route> {
    if routes == [] || id == "" then None
    else
      match FirstRoute(routes[..|routes| - 1], id)
      case Some(r) => Some(r)
      case None => if routes[|routes| - 1].id == id then Some(routes[|routes| - 1]) else None
  }

  /** The forward a route asks for, if it is enabled, valid and its relay can be had. */
  function WantedBy(s: State, route: Route, ports: map<string, int>): Option<Forward> {
    if !route.enabled then None
    else
      match Validate(route)
      case Err(_) => None
      case Ok(r) =>
        if !ValidPort(r.remotePort) then None
        else if r.protocol.UDP? then
          match RelayFor(s.relays, r, ports)
          case None => None
          case Some(relay) => Some(ViaRelay(s.bindHost, r, relay))
        else Some(Direct(s.bindHost, r))
  }

  function Wanted(s: State, routes: seq<Route>, ports: map<string, int>, id: string): Option<Forward> {
    match FirstRoute(routes, id)
    case None => None
    case Some(route) => WantedBy(s, route, ports)
  }

  /** The state forwards exactly this route: its remote port to its local target, over a relay for UDP. */
  predicate Serves(s: State, r: Route) {
    && r.id in s.active
    && if r.protocol.UDP? then
         r.id in s.relays && s.relays[r.id].host == r.localHost && s.relays[r.id].targetPort == r.localPort
         && s.active[r.id] == Forward(s.bindHost, r.remotePort, "127.0.0.1", s.relays[r.id].port)
       else s.active[r.id] == Forward(s.bindHost, r.remotePort, r.localHost, r.localPort)
  }

  predicate ServesRequest(s: State, route: Route) {
    route.enabled && Validate(route).Ok? && Serves(s, Validate(route).value)
  }

  // ---- One route ----

  predicate SameEntry<V(==)>(a: map<string, V>, b: map<string, V>, id: string) {
    (id in a <==> id in b) && (id in a ==> a[id] == b[id])
  }

  /** From p to q only the forward of `id` may have changed: to what is wanted, or to nothing,
      or a failed cancel left it; and the one new report says "up" only for the wanted forward. */
  ghost predicate Touched(p: Pass, q: Pass, id: string, want: Option<Forward>) {
    && q.seen == p.seen && q.s.bindHost == p.s.bindHost && q.s.relays == p.s.relays
    && q.s.observedRevision == p.s.observedRevision
    && (p.cancelFailed ==> q.cancelFailed)
    && (p.s.masterReady ==> q.s.masterReady)
    && ((!p.s.masterReady ==> p.s.active == map[]) ==> (!q.s.masterReady ==> q.s.active == map[]))
    && (forall k :: k != id ==> SameEntry(p.s.active, q.s.active, k))
    && (id in q.s.active ==> want == Some(q.s.active[id]) || (q.cancelFailed && SameEntry(p.s.active, q.s.active, id)))
    && |q.reports| == |p.reports| + 1 && q.reports[..|p.reports|] == p.reports
    && var last := q.reports[|p.reports|];
       last.routeId == id && (last.tunnelStatus == "up" ==> id in q.s.active && want == Some(q.s.active[id]))
  }

  lemma CancelTouches(p: Pass, id: string, env: PassEnv, local: string, tunnel: string, error: string)
    requires tunnel != "up"
    ensures Touched(p, CancelAndReport(p, id, env, local, tunnel, error), id, None)
  {}

  /** A successful cancel leaves exactly the route's own forward out. */
  lemma CancelledForward(p: Pass, id: string, env: PassEnv)
    requires CancelSucceeds(p.s, id, env)
    ensures Cancelled(p, id, env) ==
      p.(s := p.s.(active := p.s.active - {id}, master := Cancelled(p, id, env).s.master))
  {
    assert id !in p.s.active ==> p.s.active - {id} == p.s.active;
  }

  lemma EstablishTouches(p: Pass, id: string, forward: Forward, env: PassEnv)
    ensures Touched(p, Establish(p, id, forward, env), id, Some(forward))
  {
    if CancelSucceeds(p.s, id, env) {
      hide Cancelled, CancelSucceeds;
      CancelledForward(p, id, env);
    }
  }

  /** A route's own relay is the one it was to have; every other relay is untouched. */
  ghost predicate RelayKept(before: State, after: State, route: Route, ports: map<string, int>) {
    && (forall k :: k != route.id ==> SameEntry(before.relays, after.relays, k))
    && (route.enabled && Validate(route).Ok? && ValidPort(route.remotePort) && route.protocol.UDP? ==>
          var relay := RelayFor(before.relays, Validate(route).value, ports);
          if relay.Some? then route.id in after.relays && after.relays[route.id] == relay.value
          else route.id !in after.relays)
  }

  /** Handling a new ID touches its forward and its relay and nothing else. */
  lemma HandledTouches(p: Pass, route: Route, env: PassEnv)
    requires route.id != "" && route.id !in p.seen
    ensures var q := HandledNow(p, route, env);
      && Touched(p.(seen := p.seen + {route.id}, s := p.s.(relays := q.s.relays)), q, route.id,
                 WantedBy(p.s, route, env.relayPorts))
      && RelayKept(p.s, q.s, route, env.relayPorts)
  {
    hide Validate, Establish, CancelAndReport, Touched;
    var id, ports := route.id, env.relayPorts;
    var q := p.(seen := p.seen + {id});
    if !route.enabled {
      CancelTouches(q, id, env, "disabled", "disabled", "");
      NoRelayChange(q, id, env, "disabled", "disabled", "");
    } else if Validate(route).Err? {
      CancelTouches(q, id, env, "error", "error", Validate(route).error);
      NoRelayChange(q, id, env, "error", "error", Validate(route).error);
    } else {
      var r := Validate(route).value;
      ValidateKeeps(route);
      if !ValidPort(r.remotePort) {
        CancelTouches(q, id, env, "error", "error", "remote port must be between 1 and 65535");
        NoRelayChange(q, id, env, "error", "error", "remote port must be between 1 and 65535");
      } else if r.protocol.UDP? {
        var relayed := q.(s := q.s.(relays := WithRelay(q.s.relays, r, ports)));
        match RelayFor(q.s.relays, r, ports) {
          case None =>
            CancelTouches(relayed, id, env, "error", "error", "listen UDP relay");
            NoRelayChange(relayed, id, env, "error", "error", "listen UDP relay");
          case Some(relay) =>
            EstablishTouches(relayed, id, ViaRelay(q.s.bindHost, r, relay), env);
            EstablishKeepsRelays(relayed, id, ViaRelay(q.s.bindHost, r, relay), env);
        }
      } else if id !in env.healthy {
        CancelTouches(q, id, env, "down", "down", "connect to local service");
        NoRelayChange(q, id, env, "down", "down", "connect to local service");
        assert HandledNow(p, route, env) == CancelAndReport(q, id, env, "down", "down", "connect to local service");
        WeakerWant(q, HandledNow(p, route, env), id, WantedBy(p.s, route, ports));
      } else {
        EstablishTouches(q, id, Direct(q.s.bindHost, r), env);
        EstablishKeepsRelays(q, id, Direct(q.s.bindHost, r), env);
      }
    }
  }

  lemma NoRelayChange(p: Pass, id: string, env: PassEnv, local: string, tunnel: string, error: string)
    ensures CancelAndReport(p, id, env, local, tunnel, error).s.relays == p.s.relays
  {}

  lemma EstablishKeepsRelays(p: Pass, id: string, forward: Forward, env: PassEnv)
    ensures Establish(p, id, forward, env).s.relays == p.s.relays
  {}

  lemma WeakerWant(p: Pass, q: Pass, id: string, want: Option<Forward>)
    requires Touched(p, q, id, None)
    ensures Touched(p, q, id, want)
  {}

  // ---- The route loop ----

  ghost predicate RelayInstalled(before: State, after: State, route: Route, ports: map<string, int>) {
    route.enabled && Validate(route).Ok? && ValidPort(route.remotePort) && route.protocol.UDP? ==>
      var relay := RelayFor(before.relays, Validate(route).value, ports);
      if relay.Some? then route.id in after.relays && after.relays[route.id] == relay.value
      else route.id !in after.relays
  }

  /** The forwards and relays of the IDs handled so far, against the state s0 the loop started from. */
  ghost predicate Settled(s0: State, p: Pass, routes: seq<Route>, ports: map<string, int>) {
    && p.seen == Ids(routes) && p.s.bindHost == s0.bindHost && p.s.observedRevision == s0.observedRevision
    && (forall id :: id !in p.seen ==> SameEntry(s0.active, p.s.active, id) && SameEntry(s0.relays, p.s.relays, id))
    && (forall id :: id in p.seen && id in p.s.active ==>
          || Wanted(s0, routes, ports, id) == Some(p.s.active[id])
          || (p.cancelFailed && SameEntry(s0.active, p.s.active, id)))
    && (forall id :: id in p.seen ==>
          FirstRoute(routes, id).Some? && RelayInstalled(s0, p.s, FirstRoute(routes, id).value, ports))
  }

  ghost predicate UpReportsHold(s0: State, p: Pass, routes: seq<Route>, ports: map<string, int>) {
    forall i :: 0 <= i < |p.reports| && p.reports[i].tunnelStatus == "up" ==>
      var id := p.reports[i].routeId;
      id in p.seen && id in p.s.active && Wanted(s0, routes, ports, id) == Some(p.s.active[id])
  }

  predicate ReadyOrIdle(s: State) { !s.masterReady ==> s.active == map[] }

  lemma {:induction false} FirstRouteInIds(routes: seq<Route>, id: string)
    ensures FirstRoute(routes, id).Some? <==> id in Ids(routes)
    ensures FirstRoute(routes, id).Some? ==>
      FirstRoute(routes, id).value in routes && FirstRoute(routes, id).value.id == id
  {
    if routes != [] {
      FirstRouteInIds(routes[..|routes| - 1], id);
      IdsExtend(routes[..|routes| - 1], routes[|routes| - 1]);
      assert routes == routes[..|routes| - 1] + [routes[|routes| - 1]];
    }
  }

  lemma IdsExtend(routes: seq<Route>, route: Route)
    ensures Ids(routes + [route]) == Ids(routes) + (if route.id == "" then {} else {route.id})
  {
    var more := routes + [route];
    assert forall r :: r in more <==> r in routes || r == route;
    assert route in more;
  }

  lemma FirstRouteExtends(routes: seq<Route>, route: Route, id: string)
    ensures id in Ids(routes) ==> FirstRoute(routes + [route], id) == FirstRoute(routes, id)
    ensures id !in Ids(routes) && id != "" ==>
      FirstRoute(routes + [route], id) == if route.id == id then Some(route) else None
    ensures id == "" ==> FirstRoute(routes + [route], id) == None
  {
    FirstRouteInIds(routes, id);
    assert (routes + [route])[..|routes|] == routes;
  }

  lemma WantedByIsLocal(s0: State, s: State, route: Route, ports: map<string, int>)
    requires s.bindHost == s0.bindHost && SameEntry(s0.relays, s.relays, route.id)
    ensures WantedBy(s0, route, ports) == WantedBy(s, route, ports)
    ensures Validate(route).Ok? ==>
      RelayFor(s0.relays, Validate(route).value, ports) == RelayFor(s.relays, Validate(route).value, ports)
  {
    hide Validate;
    if Validate(route).Ok? { ValidateKeeps(route); }
  }

  lemma SettledStep(s0: State, p: Pass, routes: seq<Route>, route: Route, env: PassEnv)
    requires Settled(s0, p, routes, env.relayPorts) && UpReportsHold(s0, p, routes, env.relayPorts)
    ensures Settled(s0, HandledNow(p, route, env), routes + [route], env.relayPorts)
    ensures UpReportsHold(s0, HandledNow(p, route, env), routes + [route], env.relayPorts)
    ensures ReadyOrIdle(p.s) ==> ReadyOrIdle(HandledNow(p, route, env).s)
    ensures p.cancelFailed ==> HandledNow(p, route, env).cancelFailed
  {
    hide Validate, HandledNow, FirstRoute, WantedBy, Ids;
    var ports, q := env.relayPorts, HandledNow(p, route, env);
    IdsExtend(routes, route);
    forall id ensures id in Ids(routes) ==> FirstRoute(routes + [route], id) == FirstRoute(routes, id) {
      FirstRouteExtends(routes, route, id);
    }
    if route.id == "" || route.id in p.seen {
      HandledDuplicate(p, route, env);
    } else {
      FirstRouteExtends(routes, route, route.id);
      assert SameEntry(s0.relays, p.s.relays, route.id);
      WantedByIsLocal(s0, p.s, route, ports);
      HandledTouches(p, route, env);
      assert Extends(s0, p, routes, route, ports);
      hide Touched, RelayKept, Extends;
      SettledNewId(s0, p, q, routes, route, ports);
      UpReportsNewId(s0, p, q, routes, route, ports);
    }
  }

  /** The handled route extends the IDs and the first occurrences by itself and changes no other want. */
  ghost predicate Extends(s0: State, p: Pass, routes: seq<Route>, route: Route, ports: map<string, int>) {
    var more := routes + [route];
    && Ids(more) == Ids(routes) + {route.id}
    && FirstRoute(more, route.id) == Some(route)
    && Wanted(s0, more, ports, route.id) == WantedBy(p.s, route, ports)
    && (forall id :: id in Ids(routes) ==>
          FirstRoute(more, id) == FirstRoute(routes, id) && Wanted(s0, more, ports, id) == Wanted(s0, routes, ports, id))
  }

  lemma SettledNewId(s0: State, p: Pass, q: Pass, routes: seq<Route>, route: Route, ports: map<string, int>)
    requires Settled(s0, p, routes, ports) && route.id != "" && route.id !in p.seen
    requires Touched(p.(seen := p.seen + {route.id}, s := p.s.(relays := q.s.relays)), q, route.id,
                     WantedBy(p.s, route, ports))
    requires RelayKept(p.s, q.s, route, ports)
    requires Extends(s0, p, routes, route, ports)
    requires Validate(route).Ok? ==>
      RelayFor(s0.relays, Validate(route).value, ports) == RelayFor(p.s.relays, Validate(route).value, ports)
    ensures Settled(s0, q, routes + [route], ports)
    ensures ReadyOrIdle(p.s) ==> ReadyOrIdle(q.s)
    ensures p.cancelFailed ==> q.cancelFailed
  {
    hide Validate, FirstRoute, Wanted, WantedBy, Ids, RelayFor;
    var more := routes + [route];
    forall id | id !in q.seen ensures SameEntry(s0.active, q.s.active, id) && SameEntry(s0.relays, q.s.relays, id) {
      assert SameEntry(s0.active, p.s.active, id) && SameEntry(s0.relays, p.s.relays, id);
      assert SameEntry(p.s.active, q.s.active, id) && SameEntry(p.s.relays, q.s.relays, id);
    }
    assert SameEntry(s0.active, p.s.active, route.id);
    forall id | id in q.seen && id in q.s.active
      ensures Wanted(s0, more, ports, id) == Some(q.s.active[id]) || (q.cancelFailed && SameEntry(s0.active, q.s.active, id))
    {
      assert id != route.id ==> SameEntry(p.s.active, q.s.active, id);
    }
    forall id | id in q.seen ensures RelayInstalled(s0, q.s, FirstRoute(more, id).value, ports) {
      if id != route.id {
        FirstRouteInIds(routes, id);
        assert SameEntry(p.s.relays, q.s.relays, id);
      }
    }
  }

  lemma UpReportsNewId(s0: State, p: Pass, q: Pass, routes: seq<Route>, route: Route, ports: map<string, int>)
    requires p.seen == Ids(routes) && UpReportsHold(s0, p, routes, ports) && route.id !in p.seen
    requires Touched(p.(seen := p.seen + {route.id}, s := p.s.(relays := q.s.relays)), q, route.id,
                     WantedBy(p.s, route, ports))
    requires Extends(s0, p, routes, route, ports)
    ensures UpReportsHold(s0, q, routes + [route], ports)
  {
    hide Validate, FirstRoute, Wanted, WantedBy, Ids, RelayFor;
    forall i | 0 <= i < |q.reports| && q.reports[i].tunnelStatus == "up"
      ensures var id := q.reports[i].routeId;
        id in q.seen && id in q.s.active && Wanted(s0, routes + [route], ports, id) == Some(q.s.active[id])
    {
      if i < |p.reports| {
        assert q.reports[i] == q.reports[..|p.reports|][i] == p.reports[i];
        assert SameEntry(p.s.active, q.s.active, q.reports[i].routeId);
      }
    }
  }

  lemma {:induction false} LoopSettles(s0: State, routes: seq<Route>, env: PassEnv)
    ensures var p := HandleAll(Start(s0), routes, env);
      && Settled(s0, p, routes, env.relayPorts) && UpReportsHold(s0, p, routes, env.relayPorts)
      && (ReadyOrIdle(s0) ==> ReadyOrIdle(p.s))
  {
    hide HandledNow;
    if routes != [] {
      var earlier, route := routes[..|routes| - 1], routes[|routes| - 1];
      LoopSettles(s0, earlier, env);
      assert routes == earlier + [route];
      var p := HandleAll(Start(s0), earlier, env);
      hide Settled, UpReportsHold;
      DeathSettles(s0, p, earlier, env.relayPorts);
      SettledStep(s0, if route.id in env.dies then WithMasterDead(p) else p, earlier, route, env);
    }
  }

  lemma DeathSettles(s0: State, p: Pass, routes: seq<Route>, ports: map<string, int>)
    requires Settled(s0, p, routes, ports) && UpReportsHold(s0, p, routes, ports)
    ensures Settled(s0, WithMasterDead(p), routes, ports) && UpReportsHold(s0, WithMasterDead(p), routes, ports)
  {
    hide RelayFor, WantedBy, Validate;
  }

  // ---- Whole passes ----

  lemma SweepKeepsSeen(p: Pass, env: PassEnv)
    ensures var q := Swept(p, env);
      && q.s.bindHost == p.s.bindHost && q.s.masterReady == p.s.masterReady
      && (p.cancelFailed ==> q.cancelFailed)
      && (forall id :: id in p.seen ==> SameEntry(p.s.active, q.s.active, id) && SameEntry(p.s.relays, q.s.relays, id))
      && (forall id :: id in q.s.active ==> id in p.s.active && q.s.active[id] == p.s.active[id])
      && (!q.cancelFailed ==> forall id :: id in q.s.active ==> id in p.seen)
  {
    hide ForwardsOf;
    forall id | id in p.s.active && id !in p.seen && !Swept(p, env).cancelFailed
      ensures id !in Swept(p, env).s.active
    {
      assert id !in FailedStaleIds(BeforeSweep(p, env), env);
    }
  }

  lemma WantedIsServed(s0: State, s: State, route: Route, ports: map<string, int>)
    requires WantedBy(s0, route, ports).Some?
    requires s.bindHost == s0.bindHost && route.id in s.active && s.active[route.id] == WantedBy(s0, route, ports).value
    requires RelayInstalled(s0, s, route, ports)
    ensures ServesRequest(s, route)
  {
    hide Validate;
    ValidateKeeps(route);
  }

  /** The loop's pass, for a desired state whose master check did not fail for good. */
  function LoopOf(s: State, desired: Desired, env: PassEnv): Pass {
    HandleAll(Start(AfterCheck(s, env)), desired.routes, env)
  }

  /** Every route reported "up" is forwarded, exactly as requested, when the pass ends. */
  lemma UpMeansServed(s: State, desired: Desired, env: PassEnv, i: nat)
    requires i < |ReconcilePass(s, desired, env).reports|
    requires ReconcilePass(s, desired, env).reports[i].tunnelStatus == "up"
    ensures var o := ReconcilePass(s, desired, env);
      var route := FirstRoute(desired.routes, o.reports[i].routeId);
      route.Some? && route.value in desired.routes && ServesRequest(o.s, route.value)
  {
    hide HandleAll, Swept, FirstRoute, WantedBy, Ids, RelayInstalled;
    if MasterUnknown(s, env) {
      FailureReportsAreErrors(desired.routes, "SSH ControlMaster state is unknown");
    } else {
      var s0, p, o := AfterCheck(s, env), LoopOf(s, desired, env), ReconcilePass(s, desired, env);
      LoopSettles(s0, desired.routes, env);
      SweepKeepsSeen(p, env);
      SweepKeepsReports(p, env);
      var id := o.reports[i].routeId;
      assert SameEntry(p.s.active, o.s.active, id) && SameEntry(p.s.relays, o.s.relays, id);
      FirstRouteInIds(desired.routes, id);
      var route := FirstRoute(desired.routes, id).value;
      InstalledSurvives(s0, p.s, o.s, route, env.relayPorts);
      WantedIsServed(s0, o.s, route, env.relayPorts);
    }
  }

  lemma InstalledSurvives(s0: State, s: State, s': State, route: Route, ports: map<string, int>)
    requires RelayInstalled(s0, s, route, ports) && SameEntry(s.relays, s'.relays, route.id)
    ensures RelayInstalled(s0, s', route, ports)
  {
    hide Validate, RelayFor;
  }

  lemma SweepKeepsReports(p: Pass, env: PassEnv)
    ensures Swept(p, env).reports == p.reports && Swept(p, env).s.observedRevision == p.s.observedRevision
  {}

  lemma {:induction false} FailureReportsAreErrors(routes: seq<Route>, message: string)
    ensures forall i :: 0 <= i < |FailureReports(routes, message)| ==>
      FailureReports(routes, message)[i].tunnelStatus == "error"
  {
    if routes != [] { FailureReportsAreErrors(routes[..|routes| - 1], message); }
  }

  /** A pass that advances the observed revision leaves no forward the desired state does not ask for. */
  lemma AdvanceLeavesNoStaleForward(s: State, desired: Desired, env: PassEnv)
    ensures var o := ReconcilePass(s, desired, env);
      && (o.revision == o.s.observedRevision)
      && (o.s.observedRevision != s.observedRevision ==> !o.cancelFailed && o.s.observedRevision == desired.revision)
      && (!o.cancelFailed ==> forall id :: id in o.s.active ==>
            && Wanted(AfterCheck(s, env), desired.routes, env.relayPorts, id) == Some(o.s.active[id])
            && FirstRoute(desired.routes, id).Some? && ServesRequest(o.s, FirstRoute(desired.routes, id).value))
  {
    hide HandleAll, Swept, FirstRoute, WantedBy, Ids, RelayInstalled;
    var o := ReconcilePass(s, desired, env);
    if !MasterUnknown(s, env) {
      var s0, p := AfterCheck(s, env), LoopOf(s, desired, env);
      LoopSettles(s0, desired.routes, env);
      SweepKeepsSeen(p, env);
      SweepKeepsReports(p, env);
      forall id | !o.cancelFailed && id in o.s.active
        ensures Wanted(s0, desired.routes, env.relayPorts, id) == Some(o.s.active[id])
        ensures FirstRoute(desired.routes, id).Some? && ServesRequest(o.s, FirstRoute(desired.routes, id).value)
      {
        assert SameEntry(p.s.relays, o.s.relays, id);
        FirstRouteInIds(desired.routes, id);
        var route := FirstRoute(desired.routes, id).value;
        InstalledSurvives(s0, p.s, o.s, route, env.relayPorts);
        WantedIsServed(s0, o.s, route, env.relayPorts);
      }
    }
  }
}
