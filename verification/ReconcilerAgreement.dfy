/** Exactly when one pass can make the record and the SSH master disagree. */
module ReconcilerAgreement {
  import opened Results
  import opened Routes
  import opened Reconciler
  import opened ReconcilerProperties
  import opened ReconcilerTracking

  /** Route a comes up before route b. */
  ghost predicate HandledBefore(routes: seq<Route>, a: string, b: string) {
    exists n :: 0 <= n <= |routes| && a in Ids(routes[..n]) && b !in Ids(routes[..n])
  }

  /** The forward recorded for a is one that no answer of the environment makes the pass cancel: a asks for it again,
      over a relay, which is not probed. */
  predicate Pinned(s: State, routes: seq<Route>, ports: map<string, int>, a: string) {
    && a in s.active && Wanted(s, routes, ports, a) == Some(s.active[a])
    && FirstRoute(routes, a).value.protocol.UDP?
  }

  /** Route b asks for the forward that the master holds for a, which has not come up before b and may lose it. */
  ghost predicate Takes(s: State, routes: seq<Route>, ports: map<string, int>, a: string, b: string) {
    && a != b && s.master.alive && a in s.active && Wanted(s, routes, ports, b) == Some(s.active[a])
    && !HandledBefore(routes, a, b) && !Pinned(s, routes, ports, a)
  }

  ghost predicate NoneTakes(s: State, routes: seq<Route>, ports: map<string, int>) {
    forall a, b :: !Takes(s, routes, ports, a, b)
  }

  // ---- Without a taking, no pass makes them disagree ----

  /** Two routes may share a forward only while none of them can still lose it. */
  ghost predicate SharedAreSafe(s0: State, p: Pass, routes: seq<Route>, ports: map<string, int>) {
    forall j, k :: j in p.s.active && k in p.s.active && j != k && p.s.active[j] == p.s.active[k] ==>
      k in p.seen || Pinned(s0, routes, ports, k)
  }

  /** What the loop keeps. */
  ghost predicate Agreeing(s0: State, p: Pass, routes: seq<Route>, ports: map<string, int>) {
    Agrees(p.s) && ReadyOrIdle(p.s) && SharedAreSafe(s0, p, routes, ports)
  }

  /** Nothing but the forward of `id` is recorded for it. */
  ghost predicate Unshared(active: map<string, Forward>, id: string) {
    forall k :: k in active && id in active && k != id ==> active[k] != active[id]
  }

  lemma ValuesWithoutOne(active: map<string, Forward>, id: string)
    requires id in active && Unshared(active, id)
    ensures (active - {id}).Values == active.Values - {active[id]}
  {
    var less := active - {id};
    forall f | f in active.Values - {active[id]} ensures f in less.Values {
      var k :| k in active && active[k] == f;
      assert k in less && less[k] == f;
    }
    forall f | f in less.Values ensures f in active.Values - {active[id]} {
      var k :| k in less && less[k] == f;
      assert k in active && active[k] == f;
    }
  }

  /** What a step with a route not handled before does to the record: its entry may go or become what is wanted. */
  ghost predicate OwnEntry(p: Pass, q: Pass, id: string, want: Option<Forward>) {
    && q.seen == p.seen && (forall k :: k != id ==> SameEntry(p.s.active, q.s.active, k))
    && (id in q.s.active ==> want == Some(q.s.active[id]) || SameEntry(p.s.active, q.s.active, id))
  }

  lemma CancelAgrees(p: Pass, id: string, env: PassEnv, local: string, tunnel: string, error: string)
    requires Agrees(p.s) && ReadyOrIdle(p.s) && Unshared(p.s.active, id)
    ensures var q := CancelAndReport(p, id, env, local, tunnel, error);
      Agrees(q.s) && ReadyOrIdle(q.s) && OwnEntry(p, q, id, None)
  {
    CancelledAgrees(p, id, env);
    hide Agrees, Cancelled, CancelSucceeds;
  }

  lemma CancelledAgrees(p: Pass, id: string, env: PassEnv)
    requires Agrees(p.s) && ReadyOrIdle(p.s) && Unshared(p.s.active, id)
    ensures var q := Cancelled(p, id, env);
      Agrees(q.s) && ReadyOrIdle(q.s) && OwnEntry(p, q, id, None) && (CancelSucceeds(p.s, id, env) ==> id !in q.s.active)
  {
    if id in p.s.active { ValuesWithoutOne(p.s.active, id); }
  }

  lemma AddAgrees(s: State, id: string, forward: Forward)
    requires Agrees(s) && s.masterReady && s.master.alive && id !in s.active
    ensures Agrees(s.(active := s.active[id := forward], master := s.master.(live := s.master.live + {forward})))
  {
    ValuesWith(s.active, id, forward);
  }

  lemma ReadiedAgrees(p: Pass, id: string, env: PassEnv)
    requires Agrees(p.s) && ReadyOrIdle(p.s)
    ensures var q := Readied(p, id, env);
      && Agrees(q.s) && ReadyOrIdle(q.s) && q.s.active == p.s.active && q.seen == p.seen
      && q.s == p.s.(masterReady := q.s.masterReady, master := q.s.master)
  {}

  lemma EstablishAgrees(p: Pass, id: string, forward: Forward, env: PassEnv)
    requires Agrees(p.s) && ReadyOrIdle(p.s)
    requires Unshared(p.s.active, id) || (id in p.s.active && p.s.active[id] == forward)
    ensures var q := Establish(p, id, forward, env);
      Agrees(q.s) && ReadyOrIdle(q.s) && OwnEntry(p, q, id, Some(forward))
  {
    hide Cancelled, CancelSucceeds, Agrees, Readied, Unshared;
    if !(id in p.s.active && p.s.active[id] == forward) {
      CancelledAgrees(p, id, env);
      if CancelSucceeds(p.s, id, env) {
        var q := Cancelled(p, id, env);
        ReadiedAgrees(q, id, env);
        var ready := Readied(q, id, env).s;
        if ready.masterReady && ready.master.alive { AddAgrees(ready, id, forward); }
        forall k | k != id ensures SameEntry(p.s.active, Establish(p, id, forward, env).s.active, k) {
          assert SameEntry(p.s.active, q.s.active, k);
        }
      }
    }
  }

  lemma HandledAgrees(p: Pass, route: Route, env: PassEnv)
    requires Agrees(p.s) && ReadyOrIdle(p.s) && IsNew(p, route)
    requires Unshared(p.s.active, route.id)
          || (route.id in p.s.active && WantedBy(p.s, route, env.relayPorts) == Some(p.s.active[route.id]) && route.protocol.UDP?)
    ensures var q := HandledNow(p, route, env);
      && Agrees(q.s) && ReadyOrIdle(q.s)
      && OwnEntry(p.(seen := q.seen), q, route.id, WantedBy(p.s, route, env.relayPorts)) && q.seen == p.seen + {route.id}
  {
    hide Validate, Establish, CancelAndReport, Agrees, Unshared;
    var id, ports := route.id, env.relayPorts;
    var q := p.(seen := p.seen + {id});
    assert Agrees(q.s);
    if !route.enabled {
      CancelAgrees(q, id, env, "disabled", "disabled", "");
    } else if Validate(route).Err? {
      CancelAgrees(q, id, env, "error", "error", Validate(route).error);
    } else {
      var r := Validate(route).value;
      ValidateKeeps(route);
      if !ValidPort(r.remotePort) {
        CancelAgrees(q, id, env, "error", "error", "remote port must be between 1 and 65535");
      } else if r.protocol.UDP? {
        var relayed := q.(s := q.s.(relays := WithRelay(q.s.relays, r, ports)));
        assert Agrees(relayed.s) by { SameMaster(q.s, relayed.s); }
        match RelayFor(q.s.relays, r, ports) {
          case None => CancelAgrees(relayed, id, env, "error", "error", "listen UDP relay");
          case Some(relay) => EstablishAgrees(relayed, id, ViaRelay(q.s.bindHost, r, relay), env);
        }
      } else if id !in env.healthy {
        CancelAgrees(q, id, env, "down", "down", "connect to local service");
      } else {
        EstablishAgrees(q, id, Direct(q.s.bindHost, r), env);
      }
    }
  }

  lemma SameMaster(s: State, t: State)
    requires Agrees(s) && t.masterReady == s.masterReady && t.master == s.master && t.active == s.active
    ensures Agrees(t)
  {}

  // ---- The loop ----

  lemma IdsOfPrefix(x: seq<Route>, y: seq<Route>)
    requires x <= y
    ensures Ids(x) <= Ids(y)
  {
    assert forall r :: r in x ==> r in y;
  }

  lemma {:induction false} FirstRouteOfPrefix(x: seq<Route>, y: seq<Route>, id: string)
    requires x <= y && id in Ids(x)
    ensures FirstRoute(y, id) == FirstRoute(x, id)
  {
    hide FirstRoute;
    if |x| < |y| {
      var shorter := y[..|y| - 1];
      assert y == shorter + [y[|y| - 1]];
      FirstRouteOfPrefix(x, shorter, id);
      IdsOfPrefix(x, shorter);
      FirstRouteExtends(shorter, y[|y| - 1], id);
    } else {
      assert x == y;
    }
  }

  /** A route that comes up now asks for what the whole list asks for under its ID. */
  lemma WantOfNew(s0: State, p: Pass, earlier: seq<Route>, route: Route, routes: seq<Route>, ports: map<string, int>)
    requires Settled(s0, p, earlier, ports) && IsNew(p, route) && earlier + [route] <= routes
    ensures FirstRoute(routes, route.id) == Some(route)
    ensures Wanted(s0, routes, ports, route.id) == WantedBy(p.s, route, ports)
    ensures SameEntry(s0.active, p.s.active, route.id)
  {
    hide WantedBy, FirstRoute, RelayInstalled, Ids;
    assert SameEntry(s0.relays, p.s.relays, route.id) && SameEntry(s0.active, p.s.active, route.id);
    IdsExtend(earlier, route);
    FirstRouteExtends(earlier, route, route.id);
    FirstRouteOfPrefix(earlier + [route], routes, route.id);
    WantedByIsLocal(s0, p.s, route, ports);
  }

  /** No route not yet up loses its place in front of one that is up. */
  lemma NotHandledBefore(earlier: seq<Route>, route: Route, routes: seq<Route>, k: string)
    requires earlier + [route] <= routes && route.id != "" && k !in Ids(earlier)
    ensures !HandledBefore(routes, k, route.id)
  {
    hide Ids;
    if HandledBefore(routes, k, route.id) {
      var n :| 0 <= n <= |routes| && k in Ids(routes[..n]) && route.id !in Ids(routes[..n]);
      IdsExtend(earlier, route);
      if n <= |earlier| {
        assert routes[..n] <= earlier;
        IdsOfPrefix(routes[..n], earlier);
      } else {
        IdsOfPrefix(earlier + [route], routes[..n]);
      }
    }
  }

  lemma StepAgreeing(s0: State, p: Pass, earlier: seq<Route>, route: Route, routes: seq<Route>, env: PassEnv)
    requires Settled(s0, p, earlier, env.relayPorts) && earlier + [route] <= routes
    requires Agreeing(s0, p, routes, env.relayPorts) && NoneTakes(s0, routes, env.relayPorts)
    requires s0.active == map[] || s0.master.alive
    ensures Agreeing(s0, HandledNow(p, route, env), routes, env.relayPorts)
  {
    hide HandledNow, Agrees, WantedBy, Wanted, FirstRoute, Ids, RelayInstalled, HandledBefore;
    var ports := env.relayPorts;
    if !IsNew(p, route) {
      HandledDuplicate(p, route, env);
    } else {
      var id := route.id;
      WantOfNew(s0, p, earlier, route, routes, ports);
      HandledAgrees(p, route, env);
      var q := HandledNow(p, route, env);
      forall j, k | j in q.s.active && k in q.s.active && j != k && q.s.active[j] == q.s.active[k] && k !in q.seen
        ensures Pinned(s0, routes, ports, k)
      {
        assert SameEntry(s0.active, p.s.active, k) && SameEntry(p.s.active, q.s.active, k);
        assert j != id ==> SameEntry(p.s.active, q.s.active, j);
        NotHandledBefore(earlier, route, routes, k);
        assert !Takes(s0, routes, ports, k, id);
      }
    }
  }

  lemma {:induction false} LoopAgreeing(s0: State, routes: seq<Route>, n: nat, env: PassEnv)
    requires Agrees(s0) && ReadyOrIdle(s0) && Injective(s0.active) && n <= |routes|
    requires NoneTakes(s0, routes, env.relayPorts) && (s0.active == map[] || s0.master.alive)
    ensures Agreeing(s0, HandleAll(Start(s0), routes[..n], env), routes, env.relayPorts)
  {
    hide HandledNow, Agrees, NoneTakes, Pinned, Settled, UpReportsHold;
    if n > 0 {
      var earlier, route := routes[..n - 1], routes[n - 1];
      assert routes[..n][..n - 1] == earlier && earlier + [route] == routes[..n];
      LoopAgreeing(s0, routes, n - 1, env);
      LoopSettles(s0, earlier, env);
      var p := HandleAll(Start(s0), earlier, env);
      DeathSettles(s0, p, earlier, env.relayPorts);
      DeathAgrees(s0, p, routes, env.relayPorts);
      StepAgreeing(s0, if route.id in env.dies then WithMasterDead(p) else p, earlier, route, routes, env);
    }
  }

  lemma DeathAgrees(s0: State, p: Pass, routes: seq<Route>, ports: map<string, int>)
    requires Agreeing(s0, p, routes, ports)
    ensures Agreeing(s0, WithMasterDead(p), routes, ports)
  {
    hide Pinned;
  }

  // ---- The sweep ----

  lemma ValuesWithoutUnshared(active: map<string, Forward>, ids: set<string>)
    requires ids <= active.Keys && forall id :: id in ids ==> Unshared(active, id)
    ensures (active - ids).Values == active.Values - ForwardsOf(active, ids)
  {
    var less := active - ids;
    forall f | f in active.Values - ForwardsOf(active, ids) ensures f in less.Values {
      var id :| id in active && active[id] == f;
      assert id in less && less[id] == f;
    }
    forall f | f in less.Values ensures f in active.Values - ForwardsOf(active, ids) {
      var id :| id in less && less[id] == f;
      assert id in active && active[id] == f;
    }
  }

  lemma SweepAgrees(s0: State, p: Pass, routes: seq<Route>, env: PassEnv)
    requires Agreeing(s0, p, routes, env.relayPorts) && p.seen == Ids(routes)
    ensures Agrees(Swept(p, env).s)
  {
    hide ForwardsOf, Pinned, Ids;
    var q := BeforeSweep(p, env);
    var cancelled := StaleIds(q) - FailedStaleIds(q, env);
    forall k | k in cancelled ensures Unshared(q.s.active, k) {
      PinnedIsListed(s0, routes, env.relayPorts, k);
    }
    ValuesWithoutUnshared(q.s.active, cancelled);
  }

  lemma PinnedIsListed(s: State, routes: seq<Route>, ports: map<string, int>, k: string)
    ensures Pinned(s, routes, ports, k) ==> k in Ids(routes)
  {
    hide WantedBy, Ids, FirstRoute;
    FirstRouteInIds(routes, k);
  }

  /** Without a taking every pass leaves the record and the master in agreement, whatever fails or dies. */
  lemma NoTakingAgrees(s: State, desired: Desired, env: PassEnv)
    requires Tracking(s) && NoneTakes(s, desired.routes, env.relayPorts)
    ensures Agrees(ReconcilePass(s, desired, env).s)
  {
    hide HandleAll, Swept, NoneTakes, FailureReports, Agreeing, Settled, UpReportsHold;
    var routes, s0 := desired.routes, AfterCheck(s, env);
    if !MasterUnknown(s, env) {
      NoneTakesAfterCheck(s, env, routes);
      assert routes[..|routes|] == routes;
      LoopAgreeing(s0, routes, |routes|, env);
      LoopSettles(s0, routes, env);
      SeenOf(s0, LoopOf(s, desired, env), routes, env.relayPorts);
      SweepAgrees(s0, LoopOf(s, desired, env), routes, env);
    }
  }

  lemma SeenOf(s0: State, p: Pass, routes: seq<Route>, ports: map<string, int>)
    requires Settled(s0, p, routes, ports)
    ensures p.seen == Ids(routes)
  {}

  lemma NoneTakesAfterCheck(s: State, env: PassEnv, routes: seq<Route>)
    requires Tracking(s) && !MasterUnknown(s, env) && NoneTakes(s, routes, env.relayPorts)
    ensures var s0 := AfterCheck(s, env);
      && Agrees(s0) && ReadyOrIdle(s0) && Injective(s0.active) && NoneTakes(s0, routes, env.relayPorts)
      && (s0.active == map[] || s0.master.alive)
  {
    hide Wanted, HandledBefore, FirstRoute;
    var s0 := AfterCheck(s, env);
    assert s0.active != map[] ==> s0 == s && s.master.alive;
  }

  // ---- With a taking, some pass does ----

  /** The master lives, every cancel succeeds, only b gets a forward, and a's local service does not answer. */
  function Favouring(ids: set<string>, a: string, b: string, ports: map<string, int>): PassEnv {
    PassEnv(true, true, false, ids, {}, {b}, ids, ids - {a}, ports, {}, false)
  }

  lemma EstablishAddsNothing(p: Pass, id: string, forward: Forward, env: PassEnv)
    requires p.s.masterReady && id !in env.forwardOk
    ensures var q := Establish(p, id, forward, env);
      q.s.masterReady && q.s.master.alive == p.s.master.alive && q.s.master.live <= p.s.master.live
    ensures id in p.s.active && p.s.active[id] != forward && CancelSucceeds(p.s, id, env) ==>
      p.s.active[id] !in Establish(p, id, forward, env).s.master.live
  {}

  lemma CancelAddsNothing(p: Pass, id: string, env: PassEnv, local: string, tunnel: string, error: string)
    requires p.s.masterReady
    ensures var q := CancelAndReport(p, id, env, local, tunnel, error);
      q.s.masterReady && q.s.master.alive == p.s.master.alive && q.s.master.live <= p.s.master.live
    ensures id in p.s.active && CancelSucceeds(p.s, id, env) ==>
      p.s.active[id] !in CancelAndReport(p, id, env, local, tunnel, error).s.master.live
  {}

  /** A route that gets no forward adds nothing to the master. One whose probe fails loses the forward it has, unless it
      is a UDP route that asks for it again. */
  lemma HandledAddsNothing(p: Pass, route: Route, env: PassEnv)
    requires p.s.masterReady && route.id !in env.forwardOk
    ensures var q := HandledNow(p, route, env);
      q.s.masterReady && q.s.master.alive == p.s.master.alive && q.s.master.live <= p.s.master.live
    ensures
      && IsNew(p, route) && route.id !in env.healthy && route.id in p.s.active && CancelSucceeds(p.s, route.id, env)
      && !(WantedBy(p.s, route, env.relayPorts) == Some(p.s.active[route.id]) && route.protocol.UDP?)
      ==> p.s.active[route.id] !in HandledNow(p, route, env).s.master.live
  {
    hide Validate, Establish, CancelAndReport;
    var id, ports := route.id, env.relayPorts;
    if IsNew(p, route) {
      var q := p.(seen := p.seen + {id});
      if !route.enabled {
        CancelAddsNothing(q, id, env, "disabled", "disabled", "");
      } else if Validate(route).Err? {
        CancelAddsNothing(q, id, env, "error", "error", Validate(route).error);
      } else {
        var r := Validate(route).value;
        ValidateKeeps(route);
        if !ValidPort(r.remotePort) {
          CancelAddsNothing(q, id, env, "error", "error", "remote port must be between 1 and 65535");
        } else if r.protocol.UDP? {
          var relayed := q.(s := q.s.(relays := WithRelay(q.s.relays, r, ports)));
          match RelayFor(q.s.relays, r, ports) {
            case None => CancelAddsNothing(relayed, id, env, "error", "error", "listen UDP relay");
            case Some(relay) => EstablishAddsNothing(relayed, id, ViaRelay(q.s.bindHost, r, relay), env);
          }
        } else if id !in env.healthy {
          CancelAddsNothing(q, id, env, "down", "down", "connect to local service");
        } else {
          EstablishAddsNothing(q, id, Direct(q.s.bindHost, r), env);
        }
      }
    }
  }

  /** How far the taking has got: b has the forward as soon as it was up, and the master has lost it as soon as a was. */
  ghost predicate Taken(p: Pass, seen: set<string>, a: string, b: string, f: Forward) {
    && p.s.masterReady && p.s.master.alive
    && (a in seen ==> b in seen && f !in p.s.master.live)
    && (a !in seen ==> a in p.s.active && p.s.active[a] == f)
    && (b in seen ==> b in p.s.active && p.s.active[b] == f)
  }

  lemma StepTaken(s0: State, p: Pass, earlier: seq<Route>, route: Route, routes: seq<Route>, env: PassEnv, a: string, b: string)
    requires Settled(s0, p, earlier, env.relayPorts) && earlier + [route] <= routes
    requires Takes(s0, routes, env.relayPorts, a, b) && Taken(p, Ids(earlier), a, b, s0.active[a])
    requires env == Favouring(env.cancelOk, a, b, env.relayPorts) && {a, b} <= env.cancelOk
    ensures Taken(HandledNow(p, route, env), Ids(earlier + [route]), a, b, s0.active[a])
  {
    hide HandledNow, WantedBy, Wanted, FirstRoute, Ids, RelayInstalled, HandledBefore;
    var ports, id := env.relayPorts, route.id;
    IdsExtend(earlier, route);
    if !IsNew(p, route) {
      HandledDuplicate(p, route, env);
    } else {
      WantOfNew(s0, p, earlier, route, routes, ports);
      if id == b {
        assert Grants(env, {b});
        HandledInstalls(p, route, env);
        HandledTouches(p, route, env);
        OthersStay(p, route, env, a);
      } else {
        HandledAddsNothing(p, route, env);
        OthersStay(p, route, env, b);
        if id == a {
          if b !in Ids(earlier) { TakerIsUp(earlier, route, routes, a, b); }
        } else {
          OthersStay(p, route, env, a);
        }
      }
    }
  }

  lemma TakerIsUp(earlier: seq<Route>, route: Route, routes: seq<Route>, a: string, b: string)
    requires earlier + [route] <= routes && route.id == a && a != "" && a != b && !HandledBefore(routes, a, b)
    ensures b in Ids(earlier)
  {
    hide Ids;
    IdsExtend(earlier, route);
    var n := |earlier| + 1;
    assert routes[..n] == earlier + [route];
    assert !(a in Ids(routes[..n]) && b !in Ids(routes[..n]));
  }

  lemma {:induction false} LoopTaken(s0: State, routes: seq<Route>, n: nat, env: PassEnv, a: string, b: string)
    requires n <= |routes| && s0.masterReady && Takes(s0, routes, env.relayPorts, a, b)
    requires env == Favouring(env.cancelOk, a, b, env.relayPorts) && {a, b} <= env.cancelOk
    ensures Taken(HandleAll(Start(s0), routes[..n], env), Ids(routes[..n]), a, b, s0.active[a])
  {
    hide HandledNow, Takes, Settled, UpReportsHold, Ids, Taken;
    if n == 0 {
      NothingTaken(s0, routes, env.relayPorts, a, b);
      assert routes[..0] == [];
    } else {
      var earlier, route := routes[..n - 1], routes[n - 1];
      assert routes[..n][..n - 1] == earlier && earlier + [route] == routes[..n];
      LoopTaken(s0, routes, n - 1, env, a, b);
      LoopSettles(s0, earlier, env);
      StepTaken(s0, HandleAll(Start(s0), earlier, env), earlier, route, routes, env, a, b);
    }
  }

  lemma NothingTaken(s0: State, routes: seq<Route>, ports: map<string, int>, a: string, b: string)
    requires s0.masterReady && Takes(s0, routes, ports, a, b)
    ensures Taken(Start(s0), Ids([]), a, b, s0.active[a])
  {
    hide HandledBefore, Wanted, Pinned;
    NoIds();
  }

  /** The taker is reported up and recorded, and the master does not hold its forward any more. */
  lemma TakingBreaks(s: State, desired: Desired, ports: map<string, int>, a: string, b: string)
    requires ReadyOrIdle(s) && Takes(s, desired.routes, ports, a, b)
    ensures var env := Favouring(Everyone(s, desired), a, b, ports);
      var o := ReconcilePass(s, desired, env);
      && o.s.masterReady && o.s.master.alive && b in o.s.active && o.s.active[b] == s.active[a]
      && s.active[a] !in o.s.master.live && !Agrees(o.s)
  {
    hide HandleAll, FirstRoute, WantedBy, Ids, RelayInstalled, UpReportsHold, HandledBefore, Pinned;
    var routes, f, env := desired.routes, s.active[a], Favouring(Everyone(s, desired), a, b, ports);
    assert AfterCheck(s, env) == s;
    FirstRouteInIds(routes, b);
    assert routes[..|routes|] == routes;
    LoopTaken(s, routes, |routes|, env, a, b);
    LoopSettles(s, routes, env);
    var p, o := LoopOf(s, desired, env), ReconcilePass(s, desired, env);
    AliveAfterSweep(p, env);
    if a !in Ids(routes) {
      assert SameEntry(s.active, p.s.active, a);
      assert a in StaleIds(p) - FailedStaleIds(p, env);
      assert f in ForwardsOf(p.s.active, StaleIds(p) - FailedStaleIds(p, env));
    }
    assert o.s.active[b] in o.s.active.Values;
  }

  // ---- Lists as the server sends them ----

  /** No two of the routes have one remote port, as in every list that the server sends. */
  ghost predicate PortsApart(routes: seq<Route>) {
    forall i, j :: 0 <= i < j < |routes| && routes[i].id != routes[j].id ==> routes[i].remotePort != routes[j].remotePort
  }

  lemma WantedPort(s: State, routes: seq<Route>, ports: map<string, int>, id: string)
    requires Wanted(s, routes, ports, id).Some?
    ensures FirstRoute(routes, id).Some? && FirstRoute(routes, id).value in routes && FirstRoute(routes, id).value.id == id
    ensures FirstRoute(routes, id).value.remotePort == Wanted(s, routes, ports, id).value.remotePort
  {
    hide Validate, FirstRoute, Ids;
    FirstRouteInIds(routes, id);
    ValidateKeeps(FirstRoute(routes, id).value);
  }

  lemma WantsApart(s: State, routes: seq<Route>, ports: map<string, int>, a: string, b: string)
    requires PortsApart(routes) && a != b && Wanted(s, routes, ports, b).Some?
    ensures Wanted(s, routes, ports, a) != Wanted(s, routes, ports, b)
  {
    hide Wanted, FirstRoute;
    if Wanted(s, routes, ports, a) == Wanted(s, routes, ports, b) {
      WantedPort(s, routes, ports, a);
      WantedPort(s, routes, ports, b);
    }
  }

  // ---- A refused cancel puts the taking off by one pass ----

  /** The master lives, every cancel succeeds, no forward is added, and a's local service does not answer. */
  function Depriving(ids: set<string>, a: string, ports: map<string, int>): PassEnv {
    PassEnv(true, true, false, ids, {}, {}, ids, ids - {a}, ports, {}, false)
  }

  /** Both have the forward, until a has come up. */
  ghost predicate Twins(p: Pass, seen: set<string>, a: string, b: string, f: Forward) {
    && p.s.masterReady && p.s.master.alive && b in p.s.active && p.s.active[b] == f
    && (if a in seen then f !in p.s.master.live else a in p.s.active && p.s.active[a] == f)
  }

  /** A route that has what it asks for, and answers, keeps it. */
  lemma HandledKeeps(p: Pass, route: Route, env: PassEnv)
    requires route.id in p.s.active && WantedBy(p.s, route, env.relayPorts) == Some(p.s.active[route.id])
    requires route.id in env.healthy
    ensures HandledNow(p, route, env).s.active == p.s.active
  {
    hide Validate;
  }

  lemma StepTwins(s0: State, p: Pass, earlier: seq<Route>, route: Route, routes: seq<Route>, env: PassEnv, a: string, b: string,
                  f: Forward)
    requires Settled(s0, p, earlier, env.relayPorts) && earlier + [route] <= routes
    requires a != b && Wanted(s0, routes, env.relayPorts, b) == Some(f) != Wanted(s0, routes, env.relayPorts, a)
    requires Twins(p, Ids(earlier), a, b, f)
    requires env == Depriving(env.cancelOk, a, env.relayPorts) && {a, b} <= env.cancelOk
    ensures Twins(HandledNow(p, route, env), Ids(earlier + [route]), a, b, f)
  {
    hide HandledNow, WantedBy, Wanted, FirstRoute, Ids, RelayInstalled;
    IdsExtend(earlier, route);
    if !IsNew(p, route) {
      HandledDuplicate(p, route, env);
    } else {
      WantOfNew(s0, p, earlier, route, routes, env.relayPorts);
      HandledAddsNothing(p, route, env);
      if route.id == b { HandledKeeps(p, route, env); } else { OthersStay(p, route, env, b); }
      if route.id != a { OthersStay(p, route, env, a); }
    }
  }

  lemma {:induction false} LoopTwins(s0: State, routes: seq<Route>, n: nat, env: PassEnv, a: string, b: string, f: Forward)
    requires n <= |routes| && Twins(Start(s0), {}, a, b, f)
    requires a != b && Wanted(s0, routes, env.relayPorts, b) == Some(f) != Wanted(s0, routes, env.relayPorts, a)
    requires env == Depriving(env.cancelOk, a, env.relayPorts) && {a, b} <= env.cancelOk
    ensures Twins(HandleAll(Start(s0), routes[..n], env), Ids(routes[..n]), a, b, f)
  {
    hide HandledNow, Settled, UpReportsHold, Ids, Twins, Wanted;
    if n == 0 {
      NoIds();
      assert routes[..0] == [];
    } else {
      var earlier, route := routes[..n - 1], routes[n - 1];
      assert routes[..n][..n - 1] == earlier && earlier + [route] == routes[..n];
      LoopTwins(s0, routes, n - 1, env, a, b, f);
      LoopSettles(s0, earlier, env);
      StepTwins(s0, HandleAll(Start(s0), earlier, env), earlier, route, routes, env, a, b, f);
    }
  }

  /** Of two listed routes that have one forward, one loses it for both in the next pass in which it does not answer. */
  lemma TwinsBreak(s: State, desired: Desired, ports: map<string, int>, a: string, b: string)
    requires s.masterReady && s.master.alive && a != b && {a, b} <= Ids(desired.routes)
    requires a in s.active && b in s.active && s.active[a] == s.active[b]
    requires Wanted(s, desired.routes, ports, b) == Some(s.active[a]) != Wanted(s, desired.routes, ports, a)
    ensures !Agrees(ReconcilePass(s, desired, Depriving(Everyone(s, desired), a, ports)).s)
  {
    hide HandleAll, FirstRoute, WantedBy, Ids, RelayInstalled, UpReportsHold, Wanted;
    var routes, f, env := desired.routes, s.active[a], Depriving(Everyone(s, desired), a, ports);
    assert AfterCheck(s, env) == s;
    assert routes[..|routes|] == routes;
    LoopTwins(s, routes, |routes|, env, a, b, f);
    LoopSettles(s, routes, env);
    var p, o := LoopOf(s, desired, env), ReconcilePass(s, desired, env);
    AliveAfterSweep(p, env);
    assert o.s.active[b] in o.s.active.Values;
  }

  /** What a route wants does not change by getting its relay. */
  lemma WantStays(s: State, s': State, routes: seq<Route>, ports: map<string, int>, id: string)
    requires s'.bindHost == s.bindHost && FirstRoute(routes, id).Some?
    requires RelayInstalled(s, s', FirstRoute(routes, id).value, ports) && Wanted(s, routes, ports, id).Some?
    ensures Wanted(s', routes, ports, id) == Wanted(s, routes, ports, id)
  {
    hide Validate, FirstRoute, Ids;
    FirstRouteInIds(routes, id);
    ValidateKeeps(FirstRoute(routes, id).value);
  }

  /** The agreement is broken after one pass or after a second one over the same list. */
  ghost predicate BreaksInTwo(s: State, desired: Desired, ports: map<string, int>, first: PassEnv, second: PassEnv) {
    && first.relayPorts == ports && second.relayPorts == ports
    && var s' := ReconcilePass(s, desired, first).s;
       !Agrees(s') || !Agrees(ReconcilePass(s', desired, second).s)
  }

  /** Even a route that is named first, and so gives its forward up in time, breaks the agreement in the following pass
      if its cancel is refused in this one. */
  lemma ClashBreaksNext(s: State, desired: Desired, ports: map<string, int>, a: string, b: string)
    requires Tracking(s) && PortsApart(desired.routes) && a != b && s.master.alive && a in s.active
    requires Wanted(s, desired.routes, ports, b) == Some(s.active[a])
    ensures exists first: PassEnv, second: PassEnv :: BreaksInTwo(s, desired, ports, first, second)
  {
    hide HandleAll, FirstRoute, WantedBy, Ids, UpReportsHold, Agrees, PortsApart, HandledBefore, RelayInstalled;
    var routes, f := desired.routes, s.active[a];
    FirstRouteInIds(routes, b);
    if a !in Ids(routes) {
      NotListed(routes, a, b);
      WantsApart(s, routes, ports, a, b);
      TakingBreaks(s, desired, ports, a, b);
      var env := Favouring(Everyone(s, desired), a, b, ports);
      assert BreaksInTwo(s, desired, ports, env, env);
    } else {
      var first := Granting(Everyone(s, desired), {a}, ports);
      var p, s' := LoopOf(s, desired, first), ReconcilePass(s, desired, first).s;
      assert AfterCheck(s, first) == s;
      LoopInstalls(s, routes, first, b);
      LoopRefuses(s, routes, first, a);
      LoopSettles(s, routes, first);
      SweepKeepsSeen(p, first);
      AliveAfterSweep(p, first);
      assert SameEntry(p.s.active, s'.active, a) && SameEntry(p.s.active, s'.active, b) && SameEntry(p.s.relays, s'.relays, b);
      InstalledSurvives(s, p.s, s', FirstRoute(routes, b).value, ports);
      WantStays(s, s', routes, ports, b);
      WantsApart(s', routes, ports, a, b);
      TwinsBreak(s', desired, ports, a, b);
      var second := Depriving(Everyone(s', desired), a, ports);
      assert BreaksInTwo(s, desired, ports, first, second);
    }
  }

  lemma NotListed(routes: seq<Route>, a: string, b: string)
    requires a !in Ids(routes)
    ensures !HandledBefore(routes, a, b)
  {
    hide Ids;
    forall n | 0 <= n <= |routes| ensures a !in Ids(routes[..n]) { IdsOfPrefix(routes[..n], routes); }
  }

  // ---- The exact conditions ----

  /** From agreement, one pass keeps the record equal to what the master holds under every environment if and only if no
      route takes a forward that another one holds and may still lose. */
  lemma AgreesIffNoneTakes(s: State, desired: Desired, ports: map<string, int>)
    requires Tracking(s)
    ensures NoneTakes(s, desired.routes, ports) <==>
      forall env: PassEnv :: env.relayPorts == ports ==> Agrees(ReconcilePass(s, desired, env).s)
  {
    hide Agrees, ReconcilePass, Takes;
    if NoneTakes(s, desired.routes, ports) {
      forall env: PassEnv | env.relayPorts == ports ensures Agrees(ReconcilePass(s, desired, env).s) {
        NoTakingAgrees(s, desired, env);
      }
    } else {
      var a, b :| Takes(s, desired.routes, ports, a, b);
      TakingBreaks(s, desired, ports, a, b);
      var env := Favouring(Everyone(s, desired), a, b, ports);
      assert env.relayPorts == ports && !Agrees(ReconcilePass(s, desired, env).s);
    }
  }

  /** Route b asks for the forward recorded for a, which the list does not name, or names later. */
  ghost predicate WantsOf(s: State, routes: seq<Route>, ports: map<string, int>, a: string, b: string) {
    && a != b && s.master.alive && a in s.active && Wanted(s, routes, ports, b) == Some(s.active[a])
    && !HandledBefore(routes, a, b)
  }

  ghost predicate WantsRecorded(s: State, routes: seq<Route>, ports: map<string, int>) {
    exists a, b :: WantsOf(s, routes, ports, a, b)
  }

  /** For a list the server sends the condition is: no route is to get the forward recorded for a route that the list
      dropped or names later. */
  lemma AgreesIffNoneRecorded(s: State, desired: Desired, ports: map<string, int>)
    requires Tracking(s) && PortsApart(desired.routes)
    ensures !WantsRecorded(s, desired.routes, ports) <==>
      forall env: PassEnv :: env.relayPorts == ports ==> Agrees(ReconcilePass(s, desired, env).s)
  {
    hide Agrees, ReconcilePass, Wanted, HandledBefore, FirstRoute, PortsApart;
    AgreesIffNoneTakes(s, desired, ports);
    if !NoneTakes(s, desired.routes, ports) {
      var a, b :| Takes(s, desired.routes, ports, a, b);
      assert WantsOf(s, desired.routes, ports, a, b);
    }
    if WantsRecorded(s, desired.routes, ports) {
      var a, b :| WantsOf(s, desired.routes, ports, a, b);
      WantsApart(s, desired.routes, ports, a, b);
      assert Takes(s, desired.routes, ports, a, b);
    }
  }

  // ---- When every call succeeds ----

  lemma EstablishAddsOnly(p: Pass, id: string, forward: Forward, env: PassEnv)
    requires p.s.masterReady
    ensures var q := Establish(p, id, forward, env);
      q.s.masterReady && q.s.master.alive == p.s.master.alive && q.s.master.live <= p.s.master.live + {forward}
    ensures id in p.s.active && p.s.active[id] != forward && CancelSucceeds(p.s, id, env) ==>
      p.s.active[id] !in Establish(p, id, forward, env).s.master.live
  {}

  /** Handling a route adds to the master at most what the route asks for, and takes what it had if it asks for something
      else and its cancel succeeds. */
  lemma HandledAddsOnly(p: Pass, route: Route, env: PassEnv, f: Forward)
    requires p.s.masterReady && IsNew(p, route) && WantedBy(p.s, route, env.relayPorts) != Some(f)
    ensures var q := HandledNow(p, route, env);
      && q.s.masterReady && q.s.master.alive == p.s.master.alive
      && (f in q.s.master.live ==> f in p.s.master.live)
      && (route.id in p.s.active && p.s.active[route.id] == f && CancelSucceeds(p.s, route.id, env) ==>
            f !in q.s.master.live)
  {
    hide Validate, Establish, CancelAndReport;
    var id, ports := route.id, env.relayPorts;
    var q := p.(seen := p.seen + {id});
    if !route.enabled {
      CancelAddsNothing(q, id, env, "disabled", "disabled", "");
    } else if Validate(route).Err? {
      CancelAddsNothing(q, id, env, "error", "error", Validate(route).error);
    } else {
      var r := Validate(route).value;
      ValidateKeeps(route);
      if !ValidPort(r.remotePort) {
        CancelAddsNothing(q, id, env, "error", "error", "remote port must be between 1 and 65535");
      } else if r.protocol.UDP? {
        var relayed := q.(s := q.s.(relays := WithRelay(q.s.relays, r, ports)));
        match RelayFor(q.s.relays, r, ports) {
          case None => CancelAddsNothing(relayed, id, env, "error", "error", "listen UDP relay");
          case Some(relay) => EstablishAddsOnly(relayed, id, ViaRelay(q.s.bindHost, r, relay), env);
        }
      } else if id !in env.healthy {
        CancelAddsNothing(q, id, env, "down", "down", "connect to local service");
      } else {
        EstablishAddsOnly(q, id, Direct(q.s.bindHost, r), env);
      }
    }
  }

  lemma StepLost(s0: State, p: Pass, earlier: seq<Route>, route: Route, routes: seq<Route>, env: PassEnv, a: string, b: string)
    requires Settled(s0, p, earlier, env.relayPorts) && earlier + [route] <= routes && PortsApart(routes)
    requires WantsOf(s0, routes, env.relayPorts, a, b) && Taken(p, Ids(earlier), a, b, s0.active[a])
    requires Grants(env, {a, b})
    ensures Taken(HandledNow(p, route, env), Ids(earlier + [route]), a, b, s0.active[a])
  {
    hide HandledNow, WantedBy, Wanted, FirstRoute, Ids, RelayInstalled, HandledBefore, PortsApart;
    var ports, id, f := env.relayPorts, route.id, s0.active[a];
    IdsExtend(earlier, route);
    if !IsNew(p, route) {
      HandledDuplicate(p, route, env);
    } else {
      WantOfNew(s0, p, earlier, route, routes, ports);
      if id == b {
        HandledInstalls(p, route, env);
        HandledTouches(p, route, env);
        OthersStay(p, route, env, a);
      } else {
        WantsApart(s0, routes, ports, id, b);
        HandledAddsOnly(p, route, env, f);
        OthersStay(p, route, env, b);
        if id == a {
          if b !in Ids(earlier) { TakerIsUp(earlier, route, routes, a, b); }
        } else {
          OthersStay(p, route, env, a);
        }
      }
    }
  }

  lemma {:induction false} LoopLost(s0: State, routes: seq<Route>, n: nat, env: PassEnv, a: string, b: string)
    requires n <= |routes| && s0.masterReady && PortsApart(routes) && WantsOf(s0, routes, env.relayPorts, a, b)
    requires Grants(env, {a, b})
    ensures Taken(HandleAll(Start(s0), routes[..n], env), Ids(routes[..n]), a, b, s0.active[a])
  {
    hide HandledNow, WantsOf, Settled, UpReportsHold, Ids, Taken, PortsApart;
    if n == 0 {
      NothingLost(s0, routes, env.relayPorts, a, b);
      assert routes[..0] == [];
    } else {
      var earlier, route := routes[..n - 1], routes[n - 1];
      assert routes[..n][..n - 1] == earlier && earlier + [route] == routes[..n];
      LoopLost(s0, routes, n - 1, env, a, b);
      LoopSettles(s0, earlier, env);
      StepLost(s0, HandleAll(Start(s0), earlier, env), earlier, route, routes, env, a, b);
    }
  }

  lemma NothingLost(s0: State, routes: seq<Route>, ports: map<string, int>, a: string, b: string)
    requires s0.masterReady && WantsOf(s0, routes, ports, a, b)
    ensures Taken(Start(s0), Ids([]), a, b, s0.active[a])
  {
    hide HandledBefore, Wanted;
    NoIds();
  }

  /** Even when every call succeeds, the route is recorded and reported up, and the master has lost its forward. */
  lemma CooperativeTaking(s: State, desired: Desired, env: PassEnv, a: string, b: string)
    requires ReadyOrIdle(s) && PortsApart(desired.routes) && Grants(env, Everyone(s, desired))
    requires WantsOf(s, desired.routes, env.relayPorts, a, b)
    ensures var o := ReconcilePass(s, desired, env);
      && o.s.masterReady && o.s.master.alive && b in o.s.active && o.s.active[b] == s.active[a]
      && s.active[a] !in o.s.master.live && !Agrees(o.s)
  {
    hide HandleAll, FirstRoute, WantedBy, Ids, RelayInstalled, UpReportsHold, HandledBefore, PortsApart;
    var routes, f := desired.routes, s.active[a];
    assert AfterCheck(s, env) == s;
    FirstRouteInIds(routes, b);
    assert routes[..|routes|] == routes;
    LoopLost(s, routes, |routes|, env, a, b);
    LoopSettles(s, routes, env);
    var p, o := LoopOf(s, desired, env), ReconcilePass(s, desired, env);
    AliveAfterSweep(p, env);
    if a !in Ids(routes) {
      assert SameEntry(s.active, p.s.active, a);
      assert a in StaleIds(p) - FailedStaleIds(p, env);
      assert f in ForwardsOf(p.s.active, StaleIds(p) - FailedStaleIds(p, env));
    }
    assert o.s.active[b] in o.s.active.Values;
  }

  /** A pass in which every call succeeds leaves the master holding what is recorded under the very same condition. */
  lemma CooperativeAgreesIffNoneRecorded(s: State, desired: Desired, env: PassEnv)
    requires Tracking(s) && PortsApart(desired.routes) && Grants(env, Everyone(s, desired))
    ensures !WantsRecorded(s, desired.routes, env.relayPorts) <==> Agrees(ReconcilePass(s, desired, env).s)
  {
    hide Agrees, ReconcilePass, WantsOf, Grants, PortsApart;
    AgreesIffNoneRecorded(s, desired, env.relayPorts);
    if WantsRecorded(s, desired.routes, env.relayPorts) {
      var a, b :| WantsOf(s, desired.routes, env.relayPorts, a, b);
      CooperativeTaking(s, desired, env, a, b);
    }
  }

  /** Then the master, once there is one, holds exactly the forwards that the list asks for. */
  lemma CooperativePassHolds(s: State, desired: Desired, env: PassEnv, f: Forward)
    requires Tracking(s) && PortsApart(desired.routes) && Grants(env, Everyone(s, desired))
    requires !WantsRecorded(s, desired.routes, env.relayPorts)
    ensures var o := ReconcilePass(s, desired, env);
      && ((exists id :: Wanted(s, desired.routes, env.relayPorts, id) == Some(f)) ==> o.s.masterReady && o.s.master.alive)
      && (o.s.masterReady ==>
            (f in o.s.master.live <==> exists id :: Wanted(s, desired.routes, env.relayPorts, id) == Some(f)))
  {
    hide ReconcilePass, Wanted, WantsRecorded, PortsApart;
    CooperativeAgreesIffNoneRecorded(s, desired, env);
    CooperativePassConverges(s, desired, env);
    CooperativeStaysAlive(s, desired, env);
    hide Grants;
    var o := ReconcilePass(s, desired, env);
    if id :| Wanted(s, desired.routes, env.relayPorts, id) == Some(f) {
      assert id in o.s.active && o.s.active[id] == f;
    }
    if f in o.s.active.Values {
      var id :| id in o.s.active && o.s.active[id] == f;
      assert Wanted(s, desired.routes, env.relayPorts, id) == Some(f);
    }
  }

  lemma CooperativeStaysAlive(s: State, desired: Desired, env: PassEnv)
    requires ReadyOrIdle(s) && Grants(env, Everyone(s, desired))
    ensures var o := ReconcilePass(s, desired, env);
      (o.s.masterReady ==> o.s.master.alive) && ReadyOrIdle(o.s)
  {
    hide HandleAll, Ids, UpReportsHold, Settled;
    var s0, p := AfterCheck(s, env), LoopOf(s, desired, env);
    LoopNeverFails(s0, desired.routes, env);
    LoopSettles(s0, desired.routes, env);
    SweepKeepsSeen(p, env);
    AliveAfterSweep(p, env);
  }
}
