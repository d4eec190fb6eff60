/** When `active` records each forward once and exactly those that the SSH master holds. */
module ReconcilerTracking {
  import opened Results
  import opened Routes
  import opened Reconciler
  import opened ReconcilerProperties

  ghost predicate Injective(active: map<string, Forward>) {
    forall a, b :: a in active && b in active && active[a] == active[b] ==> a == b
  }

  /** The master of a reconciler that counts on one holds exactly the recorded forwards, or is dead and holds none. */
  ghost predicate Agrees(s: State) {
    s.masterReady ==> s.master.live == if s.master.alive then s.active.Values else {}
  }

  /** The record agrees with the master, and no two routes share a forward. */
  ghost predicate Tracking(s: State) {
    Injective(s.active) && ReadyOrIdle(s) && Agrees(s)
  }

  /** No route asks for a forward that another route asks for, or that a live master holds for another. */
  ghost predicate NoClash(s: State, routes: seq<Route>, ports: map<string, int>) {
    forall a, b :: a != b && Wanted(s, routes, ports, b).Some? ==>
      && Wanted(s, routes, ports, a) != Wanted(s, routes, ports, b)
      && (s.master.alive && a in s.active ==> Some(s.active[a]) != Wanted(s, routes, ports, b))
  }

  // ---- Small facts about maps of forwards ----

  lemma ValuesWithout(active: map<string, Forward>, ids: set<string>)
    requires Injective(active) && ids <= active.Keys
    ensures (active - ids).Values == active.Values - ForwardsOf(active, ids)
    ensures Injective(active - ids)
  {
    var less := active - ids;
    forall f | f in active.Values - ForwardsOf(active, ids) ensures f in less.Values {
      var id :| id in active && active[id] == f;
      assert id in less && less[id] == f;
    }
    forall f | f in less.Values ensures f in active.Values - ForwardsOf(active, ids) {
      var id :| id in less && less[id] == f;
      assert id in active && active[id] == f;
    }
  }

  lemma ValuesWith(active: map<string, Forward>, id: string, f: Forward)
    requires id !in active
    ensures active[id := f].Values == active.Values + {f}
  {
    var more := active[id := f];
    assert more[id] == f;
    forall g | g in active.Values ensures g in more.Values {
      var k :| k in active && active[k] == g;
      assert more[k] == g;
    }
  }

  // ---- One route ----

  lemma CancelTracks(p: Pass, id: string, env: PassEnv)
    requires Tracking(p.s)
    ensures Tracking(Cancelled(p, id, env).s)
  {
    if id in p.s.active && CancelSucceeds(p.s, id, env) {
      ValuesWithout(p.s.active, {id});
      assert ForwardsOf(p.s.active, {id}) == {p.s.active[id]};
    }
  }

  lemma AddTracks(s: State, id: string, forward: Forward)
    requires Tracking(s) && s.masterReady && s.master.alive && id !in s.active
    requires forall k :: k in s.active ==> s.active[k] != forward
    ensures Tracking(s.(active := s.active[id := forward], master := s.master.(live := s.master.live + {forward})))
  {
    ValuesWith(s.active, id, forward);
  }

  lemma EnsureTracks(p: Pass, id: string, env: PassEnv)
    requires Tracking(p.s)
    ensures Tracking(Readied(p, id, env).s)
    ensures Readied(p, id, env).s == p.s.(masterReady := Readied(p, id, env).s.masterReady, master := Readied(p, id, env).s.master)
  {}

  lemma EstablishTracks(p: Pass, id: string, forward: Forward, env: PassEnv)
    requires Tracking(p.s)
    requires forall k :: k in p.s.active && k != id ==> p.s.active[k] != forward
    ensures Tracking(Establish(p, id, forward, env).s)
  {
    hide Injective;
    CancelTracks(p, id, env);
    if CancelSucceeds(p.s, id, env) {
      CancelledForward(p, id, env);
      var q := Cancelled(p, id, env);
      hide Cancelled, CancelSucceeds, Tracking, Readied;
      var ready := Readied(q, id, env).s;
      EnsureTracks(q, id, env);
      if ready.masterReady && ready.master.alive { AddTracks(ready, id, forward); }
    }
  }

  lemma HandledTracks(p: Pass, route: Route, env: PassEnv)
    requires Tracking(p.s)
    requires route.id != "" && route.id !in p.seen && WantedBy(p.s, route, env.relayPorts).Some? ==>
      forall k :: k in p.s.active && k != route.id ==>
        p.s.active[k] != WantedBy(p.s, route, env.relayPorts).value
    ensures Tracking(HandledNow(p, route, env).s)
  {
    hide Validate, Establish, Cancelled, CancelSucceeds;
    var id := route.id;
    if id != "" && id !in p.seen {
      var q := p.(seen := p.seen + {id});
      CancelTracks(q, id, env);
      if route.enabled && Validate(route).Ok? {
        var r := Validate(route).value;
        if r.protocol.UDP? {
          var relayed := q.(s := q.s.(relays := WithRelay(q.s.relays, r, env.relayPorts)));
          CancelTracks(relayed, id, env);
          if ValidPort(r.remotePort) && RelayFor(q.s.relays, r, env.relayPorts).Some? {
            EstablishTracks(relayed, id, ViaRelay(q.s.bindHost, r, RelayFor(q.s.relays, r, env.relayPorts).value), env);
          }
        } else if ValidPort(r.remotePort) {
          EstablishTracks(q, id, Direct(q.s.bindHost, r), env);
        }
      }
    }
  }

  lemma DeathTracks(p: Pass)
    requires Tracking(p.s)
    ensures Tracking(WithMasterDead(p).s)
  {}

  // ---- The loop and the sweep ----

  lemma WantedInPrefix(s: State, routes: seq<Route>, route: Route, ports: map<string, int>, id: string)
    ensures Wanted(s, routes, ports, id).Some? ==>
      Wanted(s, routes + [route], ports, id) == Wanted(s, routes, ports, id)
    ensures route.id != "" && route.id !in Ids(routes) ==>
      Wanted(s, routes + [route], ports, route.id) == WantedBy(s, route, ports)
  {
    FirstRouteInIds(routes, id);
    FirstRouteExtends(routes, route, id);
    FirstRouteExtends(routes, route, route.id);
  }

  /** What is still recorded is what was recorded before the loop, or what is wanted. */
  lemma RecordedOrWanted(s0: State, p: Pass, routes: seq<Route>, ports: map<string, int>, id: string)
    requires Settled(s0, p, routes, ports) && id in p.s.active
    ensures (id in s0.active && s0.active[id] == p.s.active[id]) || Wanted(s0, routes, ports, id) == Some(p.s.active[id])
  {
    hide Wanted, Ids, RelayInstalled;
    assert id !in p.seen ==> SameEntry(s0.active, p.s.active, id);
  }

  /** Clash freedom as the loop uses it: against every recorded forward, whether or not the master lives. */
  ghost predicate ClashFree(s0: State, routes: seq<Route>, ports: map<string, int>) {
    forall a, b :: a != b && Wanted(s0, routes, ports, b).Some? ==>
      && Wanted(s0, routes, ports, a) != Wanted(s0, routes, ports, b)
      && (a in s0.active ==> Some(s0.active[a]) != Wanted(s0, routes, ports, b))
  }

  lemma ClashFreePrefix(s0: State, routes: seq<Route>, route: Route, ports: map<string, int>)
    requires ClashFree(s0, routes + [route], ports)
    ensures ClashFree(s0, routes, ports)
  {
    hide Wanted;
    forall id ensures Wanted(s0, routes, ports, id).Some? ==>
      Wanted(s0, routes + [route], ports, id) == Wanted(s0, routes, ports, id)
    {
      WantedInPrefix(s0, routes, route, ports, id);
    }
  }

  lemma {:induction false} LoopTracks(s0: State, routes: seq<Route>, env: PassEnv)
    requires Tracking(s0) && ClashFree(s0, routes, env.relayPorts)
    ensures Tracking(HandleAll(Start(s0), routes, env).s)
  {
    hide HandledNow, Tracking, ClashFree, Settled, UpReportsHold, WantedBy, Ids;
    if routes != [] {
      var earlier, route := routes[..|routes| - 1], routes[|routes| - 1];
      assert routes == earlier + [route];
      ClashFreePrefix(s0, earlier, route, env.relayPorts);
      LoopTracks(s0, earlier, env);
      LoopSettles(s0, earlier, env);
      var p := HandleAll(Start(s0), earlier, env);
      DeathTracks(p);
      DeathSettles(s0, p, earlier, env.relayPorts);
      StepTracks(s0, if route.id in env.dies then WithMasterDead(p) else p, earlier, route, env);
    }
  }

  lemma StepTracks(s0: State, p: Pass, earlier: seq<Route>, route: Route, env: PassEnv)
    requires Tracking(p.s) && Settled(s0, p, earlier, env.relayPorts)
    requires ClashFree(s0, earlier + [route], env.relayPorts)
    ensures Tracking(HandledNow(p, route, env).s)
  {
    hide HandledNow, Tracking, WantedBy, FirstRoute, RelayInstalled, Ids;
    var ports, want := env.relayPorts, WantedBy(p.s, route, env.relayPorts);
    if route.id != "" && route.id !in p.seen && want.Some? {
      assert SameEntry(s0.relays, p.s.relays, route.id);
      WantedByIsLocal(s0, p.s, route, ports);
      WantedInPrefix(s0, earlier, route, ports, route.id);
      forall k | k in p.s.active && k != route.id ensures p.s.active[k] != want.value {
        RecordedOrWanted(s0, p, earlier, ports, k);
        WantedInPrefix(s0, earlier, route, ports, k);
      }
    }
    HandledTracks(p, route, env);
  }

  lemma SweepTracks(p: Pass, env: PassEnv)
    requires Tracking(p.s)
    ensures Tracking(Swept(p, env).s)
  {
    hide ForwardsOf;
    var q := BeforeSweep(p, env);
    var cancelled := StaleIds(q) - FailedStaleIds(q, env);
    ValuesWithout(q.s.active, cancelled);
  }

  lemma ClashFreeAfterCheck(s: State, routes: seq<Route>, env: PassEnv)
    requires Tracking(s) && NoClash(s, routes, env.relayPorts) && !MasterUnknown(s, env)
    ensures Tracking(AfterCheck(s, env))
    ensures ClashFree(AfterCheck(s, env), routes, env.relayPorts)
  {
    hide FirstRoute, Validate, RelayFor;
    var s0 := AfterCheck(s, env);
    assert s0.active != map[] ==> s0 == s && s.master.alive;
    forall id ensures Wanted(s0, routes, env.relayPorts, id) == Wanted(s, routes, env.relayPorts, id) {}
  }

  /** Without a clash, every pass leaves the record and the master in agreement, whatever fails or dies. */
  lemma ReconcileTracks(s: State, desired: Desired, env: PassEnv)
    requires Tracking(s) && NoClash(s, desired.routes, env.relayPorts)
    ensures Tracking(ReconcilePass(s, desired, env).s)
  {
    hide HandleAll, Swept, NoClash, ClashFree, FailureReports;
    if !MasterUnknown(s, env) {
      ClashFreeAfterCheck(s, desired.routes, env);
      LoopTracks(AfterCheck(s, env), desired.routes, env);
      SweepTracks(LoopOf(s, desired, env), env);
    }
  }

  // ---- A cooperative environment, and why clash freedom is necessary ----

  /** Nothing dies, the master check settles, and every call made for these IDs succeeds. */
  predicate Grants(env: PassEnv, ids: set<string>) {
    && env.checkOk && env.closeOk && env.dies == {} && !env.diesLast
    && ids <= env.cancelOk && ids <= env.forwardOk && ids <= env.ensureOk && ids <= env.healthy
  }

  predicate ReadyAlive(s: State) { s.masterReady ==> s.master.alive }

  lemma EstablishStaysAlive(p: Pass, id: string, forward: Forward, env: PassEnv)
    requires ReadyAlive(p.s)
    ensures ReadyAlive(Establish(p, id, forward, env).s)
    ensures ReadyOrIdle(p.s) && Grants(env, {id}) ==>
      && id in Establish(p, id, forward, env).s.active
      && Establish(p, id, forward, env).s.active[id] == forward
      && Establish(p, id, forward, env).cancelFailed == p.cancelFailed
  {}

  lemma CancelStaysAlive(p: Pass, id: string, env: PassEnv, local: string, tunnel: string, error: string)
    requires ReadyAlive(p.s)
    ensures ReadyAlive(CancelAndReport(p, id, env, local, tunnel, error).s)
    ensures ReadyOrIdle(p.s) && id in env.cancelOk ==>
      CancelAndReport(p, id, env, local, tunnel, error).cancelFailed == p.cancelFailed
  {}

  predicate IsNew(p: Pass, route: Route) { route.id != "" && route.id !in p.seen }

  lemma HandledInstalls(p: Pass, route: Route, env: PassEnv)
    requires ReadyAlive(p.s)
    ensures ReadyAlive(HandledNow(p, route, env).s)
    ensures ReadyOrIdle(p.s) && Grants(env, {route.id}) ==> HandledNow(p, route, env).cancelFailed == p.cancelFailed
    ensures ReadyOrIdle(p.s) && Grants(env, {route.id}) && IsNew(p, route) && WantedBy(p.s, route, env.relayPorts).Some? ==>
      && route.id in HandledNow(p, route, env).s.active
      && Some(HandledNow(p, route, env).s.active[route.id]) == WantedBy(p.s, route, env.relayPorts)
  {
    hide Validate, Establish, CancelAndReport;
    var id, ports := route.id, env.relayPorts;
    if id != "" && id !in p.seen {
      var q := p.(seen := p.seen + {id});
      if !route.enabled {
        CancelStaysAlive(q, id, env, "disabled", "disabled", "");
      } else if Validate(route).Err? {
        CancelStaysAlive(q, id, env, "error", "error", Validate(route).error);
      } else {
        var r := Validate(route).value;
        if !ValidPort(r.remotePort) {
          CancelStaysAlive(q, id, env, "error", "error", "remote port must be between 1 and 65535");
        } else if r.protocol.UDP? {
          var relayed := q.(s := q.s.(relays := WithRelay(q.s.relays, r, ports)));
          match RelayFor(q.s.relays, r, ports) {
            case None => CancelStaysAlive(relayed, id, env, "error", "error", "listen UDP relay");
            case Some(relay) => EstablishStaysAlive(relayed, id, ViaRelay(q.s.bindHost, r, relay), env);
          }
        } else {
          CancelStaysAlive(q, id, env, "down", "down", "connect to local service");
          EstablishStaysAlive(q, id, Direct(q.s.bindHost, r), env);
        }
      }
    }
  }

  /** With every call granted for an ID, the loop ends with that ID's wanted forward recorded. */
  lemma {:induction false} LoopInstalls(s0: State, routes: seq<Route>, env: PassEnv, id: string)
    requires ReadyAlive(s0) && ReadyOrIdle(s0) && Grants(env, {id})
    ensures var p := HandleAll(Start(s0), routes, env);
      && ReadyAlive(p.s)
      && (Wanted(s0, routes, env.relayPorts, id).Some? ==>
            id in p.s.active && Some(p.s.active[id]) == Wanted(s0, routes, env.relayPorts, id))
  {
    hide HandledNow, Settled, UpReportsHold, WantedBy, Ids, Touched, FirstRoute;
    if routes != [] {
      var earlier, route := routes[..|routes| - 1], routes[|routes| - 1];
      assert routes == earlier + [route];
      LoopInstalls(s0, earlier, env, id);
      LoopSettles(s0, earlier, env);
      var p := HandleAll(Start(s0), earlier, env);
      HandledInstalls(p, route, env);
      if Wanted(s0, routes, env.relayPorts, id).Some? {
        StepInstalls(s0, p, earlier, route, env, id);
      }
    } else {
      FirstRouteInIds(routes, id);
      assert Ids(routes) == {} by { NoIds(); }
    }
  }

  lemma NoIds()
    ensures Ids([]) == {}
  {}

  lemma StepInstalls(s0: State, p: Pass, earlier: seq<Route>, route: Route, env: PassEnv, id: string)
    requires Settled(s0, p, earlier, env.relayPorts) && ReadyAlive(p.s) && ReadyOrIdle(p.s) && Grants(env, {id})
    requires Wanted(s0, earlier, env.relayPorts, id).Some? ==>
      id in p.s.active && Some(p.s.active[id]) == Wanted(s0, earlier, env.relayPorts, id)
    requires Wanted(s0, earlier + [route], env.relayPorts, id).Some?
    ensures var q := HandledNow(p, route, env);
      id in q.s.active && Some(q.s.active[id]) == Wanted(s0, earlier + [route], env.relayPorts, id)
  {
    hide HandledNow, WantedBy, Ids, FirstRoute, RelayInstalled, Grants;
    FirstRouteExtends(earlier, route, id);
    FirstRouteInIds(earlier, id);
    if id in Ids(earlier) {
      OthersStay(p, route, env, id);
    } else {
      assert route.id == id;
      assert SameEntry(s0.relays, p.s.relays, id);
      WantedByIsLocal(s0, p.s, route, env.relayPorts);
      HandledInstalls(p, route, env);
    }
  }

  /** Handling a route leaves the forward of every ID already handled, and of every other ID, alone. */
  lemma OthersStay(p: Pass, route: Route, env: PassEnv, id: string)
    requires id in p.seen || id != route.id || id == ""
    ensures SameEntry(p.s.active, HandledNow(p, route, env).s.active, id)
  {
    if route.id == "" || route.id in p.seen {
      HandledDuplicate(p, route, env);
    } else {
      hide HandledNow, WantedBy, RelayKept;
      HandledTouches(p, route, env);
    }
  }

  /** A forward whose cancel is refused stays recorded as it was. */
  lemma {:induction false} LoopRefuses(s0: State, routes: seq<Route>, env: PassEnv, id: string)
    requires id in s0.active && id !in env.cancelOk
    ensures var p := HandleAll(Start(s0), routes, env);
      id in p.s.active && p.s.active[id] == s0.active[id]
  {
    hide HandledNow;
    if routes != [] {
      var p := HandleAll(Start(s0), routes[..|routes| - 1], env);
      var route := routes[|routes| - 1];
      LoopRefuses(s0, routes[..|routes| - 1], env, id);
      StepRefuses(if route.id in env.dies then WithMasterDead(p) else p, route, env, id);
    }
  }

  lemma StepRefuses(p: Pass, route: Route, env: PassEnv, id: string)
    requires id in p.s.active && id !in env.cancelOk
    ensures var q := HandledNow(p, route, env);
      id in q.s.active && q.s.active[id] == p.s.active[id]
  {
    hide Validate, CancelAndReport, Establish;
    if route.id != id || id == "" || id in p.seen {
      OthersStay(p, route, env, id);
    } else {
      var q := p.(seen := p.seen + {id});
      if !route.enabled {
        CancelRefused(q, id, env, "disabled", "disabled", "");
      } else if Validate(route).Err? {
        CancelRefused(q, id, env, "error", "error", Validate(route).error);
      } else {
        var r := Validate(route).value;
        var relayed := q.(s := q.s.(relays := WithRelay(q.s.relays, r, env.relayPorts)));
        CancelRefused(q, id, env, "error", "error", "remote port must be between 1 and 65535");
        CancelRefused(q, id, env, "down", "down", "connect to local service");
        CancelRefused(relayed, id, env, "error", "error", "listen UDP relay");
        EstablishRefused(q, id, Direct(q.s.bindHost, r), env);
        if RelayFor(q.s.relays, r, env.relayPorts).Some? {
          EstablishRefused(relayed, id, ViaRelay(q.s.bindHost, r, RelayFor(q.s.relays, r, env.relayPorts).value), env);
        }
      }
    }
  }

  lemma CancelRefused(p: Pass, id: string, env: PassEnv, local: string, tunnel: string, error: string)
    requires id in p.s.active && id !in env.cancelOk
    ensures CancelAndReport(p, id, env, local, tunnel, error).s.active == p.s.active
  {}

  lemma EstablishRefused(p: Pass, id: string, forward: Forward, env: PassEnv)
    requires id in p.s.active && id !in env.cancelOk
    ensures Establish(p, id, forward, env).s.active == p.s.active
  {}

  function Everyone(s: State, desired: Desired): set<string> { Ids(desired.routes) + s.active.Keys }

  /** The cooperative environment, except that the given cancels are refused. */
  function Granting(ids: set<string>, refused: set<string>, ports: map<string, int>): PassEnv {
    PassEnv(true, true, false, ids, {}, ids, ids - refused, ids, ports, {}, false)
  }

  /** A clash lets some environment of one pass record one forward twice. */
  lemma ClashBreaks(s: State, desired: Desired, ports: map<string, int>, a: string, b: string)
    requires Tracking(s) && a != b && Wanted(s, desired.routes, ports, b).Some?
    requires Wanted(s, desired.routes, ports, a) == Wanted(s, desired.routes, ports, b)
          || (s.master.alive && a in s.active && Some(s.active[a]) == Wanted(s, desired.routes, ports, b))
    ensures exists env: PassEnv :: env.relayPorts == ports && !Tracking(ReconcilePass(s, desired, env).s)
  {
    hide HandleAll, FirstRoute, WantedBy, Ids, Swept;
    var routes, f := desired.routes, Wanted(s, desired.routes, ports, b).value;
    FirstRouteInIds(routes, a);
    FirstRouteInIds(routes, b);
    var twin := Wanted(s, routes, ports, a) == Some(f);
    var env := Granting(Everyone(s, desired), if twin then {} else {a}, ports);
    var s0, p := AfterCheck(s, env), LoopOf(s, desired, env);
    CheckKeepsWants(s, env, routes, a);
    CheckKeepsWants(s, env, routes, b);
    LoopInstalls(s0, routes, env, b);
    if twin {
      LoopInstalls(s0, routes, env, a);
    } else {
      assert s.masterReady;
      LoopRefuses(s0, routes, env, a);
    }
    assert p.s.active[a] == p.s.active[b] == f;
    SweepKeepsTwins(s0, p, routes, env, a, b);
    assert env.relayPorts == ports && !Tracking(ReconcilePass(s, desired, env).s);
  }

  lemma CheckKeepsWants(s: State, env: PassEnv, routes: seq<Route>, id: string)
    ensures Wanted(AfterCheck(s, env), routes, env.relayPorts, id) == Wanted(s, routes, env.relayPorts, id)
  {
    hide FirstRoute, Validate, RelayFor;
  }

  lemma SweepKeepsTwins(s0: State, p: Pass, routes: seq<Route>, env: PassEnv, a: string, b: string)
    requires p == HandleAll(Start(s0), routes, env)
    requires a != b && a in p.s.active && b in p.s.active && p.s.active[a] == p.s.active[b]
    requires a in Ids(routes) || a !in env.cancelOk
    requires b in Ids(routes)
    ensures !Injective(Swept(p, env).s.active)
  {
    hide ForwardsOf, HandleAll, WantedBy, RelayInstalled, UpReportsHold, Ids;
    LoopSettles(s0, routes, env);
    var q := Swept(p, env);
    assert a in q.s.active && q.s.active[a] == p.s.active[a];
    assert b in q.s.active && q.s.active[b] == p.s.active[b];
  }

  /** Exactly when a pass keeps the record one-to-one and in agreement with the master under every environment. When it
      keeps the agreement alone is the matter of ReconcilerAgreement. */
  lemma TrackingIffNoClash(s: State, desired: Desired, ports: map<string, int>)
    requires Tracking(s)
    ensures NoClash(s, desired.routes, ports) <==>
      forall env: PassEnv :: env.relayPorts == ports ==> Tracking(ReconcilePass(s, desired, env).s)
  {
    hide Tracking, ReconcilePass, Wanted;
    if NoClash(s, desired.routes, ports) {
      forall env: PassEnv | env.relayPorts == ports ensures Tracking(ReconcilePass(s, desired, env).s) {
        ReconcileTracks(s, desired, env);
      }
    } else {
      var a, b :| a != b && Wanted(s, desired.routes, ports, b).Some?
        && !(Wanted(s, desired.routes, ports, a) != Wanted(s, desired.routes, ports, b)
             && (s.master.alive && a in s.active ==> Some(s.active[a]) != Wanted(s, desired.routes, ports, b)));
      ClashBreaks(s, desired, ports, a, b);
    }
  }

  /** The failing family even when nothing goes wrong: a new route asks for the forward of one that the
      desired state dropped. The sweep cancels the shared forward, so the new route is recorded and
      reported up while the master holds nothing for it. */
  lemma DroppedTwinTakesTheForward(s: State, desired: Desired, env: PassEnv, a: string, b: string)
    requires Tracking(s) && s.master.alive && a in s.active && a !in Ids(desired.routes)
    requires Wanted(s, desired.routes, env.relayPorts, b) == Some(s.active[a])
    requires Grants(env, Everyone(s, desired))
    ensures var o := ReconcilePass(s, desired, env);
      b in o.s.active && o.s.active[b] == s.active[a] && s.active[a] !in o.s.master.live && !Tracking(o.s)
  {
    hide HandleAll, FirstRoute, WantedBy, Ids, RelayInstalled, UpReportsHold;
    var routes, f := desired.routes, s.active[a];
    assert s.masterReady;
    assert AfterCheck(s, env) == s;
    FirstRouteInIds(routes, b);
    LoopInstalls(s, routes, env, b);
    LoopSettles(s, routes, env);
    var p := LoopOf(s, desired, env);
    assert SameEntry(s.active, p.s.active, a);
    assert p.s.master.alive;
    assert a in StaleIds(p) - FailedStaleIds(p, env);
    assert f in ForwardsOf(p.s.active, StaleIds(p) - FailedStaleIds(p, env));
    var o := ReconcilePass(s, desired, env);
    assert o.s.active[b] in o.s.active.Values;
    AliveAfterSweep(p, env);
  }

  lemma AliveAfterSweep(p: Pass, env: PassEnv)
    requires !env.diesLast
    ensures Swept(p, env).s.master.alive == p.s.master.alive
  {}

  /** In a cooperative environment one pass makes the record exactly what the desired state asks for. */
  lemma CooperativePassConverges(s: State, desired: Desired, env: PassEnv)
    requires ReadyOrIdle(s) && Grants(env, Everyone(s, desired))
    ensures var o := ReconcilePass(s, desired, env);
      && !o.cancelFailed && o.s.observedRevision == o.revision == desired.revision
      && (forall id :: id in o.s.active <==> Wanted(s, desired.routes, env.relayPorts, id).Some?)
      && (forall id :: id in o.s.active ==> Some(o.s.active[id]) == Wanted(s, desired.routes, env.relayPorts, id))
  {
    hide HandleAll, FirstRoute, WantedBy, Ids, RelayInstalled, UpReportsHold, ForwardsOf;
    var routes, s0 := desired.routes, AfterCheck(s, env);
    var p, o := LoopOf(s, desired, env), ReconcilePass(s, desired, env);
    LoopSettles(s0, routes, env);
    LoopNeverFails(s0, routes, env);
    forall id ensures Wanted(s0, routes, env.relayPorts, id) == Wanted(s, routes, env.relayPorts, id) {
      CheckKeepsWants(s, env, routes, id);
    }
    forall id | id in StaleIds(p) ensures id in s0.active && CancelSucceeds(p.s, id, env) {
      assert SameEntry(s0.active, p.s.active, id);
    }
    assert FailedStaleIds(p, env) == {};
    forall id ensures id in o.s.active <==> Wanted(s0, routes, env.relayPorts, id).Some?
      ensures id in o.s.active ==> Some(o.s.active[id]) == Wanted(s0, routes, env.relayPorts, id)
    {
      FirstRouteInIds(routes, id);
      if id in Ids(routes) { LoopInstalls(s0, routes, env, id); }
    }
  }

  lemma {:induction false} LoopNeverFails(s0: State, routes: seq<Route>, env: PassEnv)
    requires ReadyAlive(s0) && ReadyOrIdle(s0) && Grants(env, Ids(routes))
    ensures var p := HandleAll(Start(s0), routes, env);
      ReadyAlive(p.s) && ReadyOrIdle(p.s) && !p.cancelFailed
  {
    hide HandledNow, Settled, UpReportsHold, Ids;
    if routes != [] {
      var earlier, route := routes[..|routes| - 1], routes[|routes| - 1];
      assert routes == earlier + [route];
      IdsExtend(earlier, route);
      LoopNeverFails(s0, earlier, env);
      LoopSettles(s0, routes, env);
      var p := HandleAll(Start(s0), earlier, env);
      HandledInstalls(p, route, env);
      if route.id == "" || route.id in p.seen { HandledDuplicate(p, route, env); }
    }
  }
}
