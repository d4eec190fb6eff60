/** What one pass must do, exactly: when it takes the desired revision, and what it reports about each route. */
module ReconcilerOutcome {
  import opened Results
  import opened Routes
  import opened Reconciler
  import opened ReconcilerProperties
  import opened ReconcilerTracking
  import opened ReconcilerAgreement

  // ---- Which cancels are due, and which of them fail ----

  predicate DiedBy(routes: seq<Route>, env: PassEnv) {
    exists i :: 0 <= i < |routes| && routes[i].id in env.dies
  }

  /** The route at n is the first one with its ID. */
  predicate ComesUp(routes: seq<Route>, n: int, id: string) {
    0 <= n < |routes| && id != "" && routes[n].id == id && id !in Ids(routes[..n])
  }

  /** The local service that a route needs answered its probe; UDP services are not probed. */
  predicate Answers(route: Route, env: PassEnv) { route.protocol.UDP? || route.id in env.healthy }

  /** What is recorded for the ID is what its route asks for, and its service answers. */
  predicate Kept(s: State, routes: seq<Route>, env: PassEnv, id: string) {
    && id in s.active && Wanted(s, routes, env.relayPorts, id) == Some(s.active[id])
    && Answers(FirstRoute(routes, id).value, env)
  }

  /** The master has died when the ID's turn comes: with its first route, or in the sweep. */
  predicate DeadInTurn(routes: seq<Route>, env: PassEnv, id: string) {
    if id in Ids(routes) then exists n :: 0 <= n < |routes| && ComesUp(routes, n, id) && DiedBy(routes[..n + 1], env)
    else DiedBy(routes, env) || env.diesLast
  }

  /** The ID's recorded forward has to go, and its cancel is refused or comes after the master's death. */
  predicate CancelFails(s: State, routes: seq<Route>, env: PassEnv, id: string) {
    id in s.active && !Kept(s, routes, env, id) && (id !in env.cancelOk || DeadInTurn(routes, env, id))
  }

  // ---- One route ----

  /** What one call of Establish does to the master and to the failure flag. */
  lemma EstablishFails(p: Pass, id: string, forward: Forward, env: PassEnv)
    ensures var q := Establish(p, id, forward, env);
      && (q.cancelFailed <==>
            p.cancelFailed || (id in p.s.active && p.s.active[id] != forward && !CancelSucceeds(p.s, id, env)))
      && (p.s.masterReady ==> q.s.masterReady && q.s.master.alive == p.s.master.alive)
  {}

  lemma CancelFlags(p: Pass, id: string, env: PassEnv, local: string, tunnel: string, error: string)
    ensures var q := CancelAndReport(p, id, env, local, tunnel, error);
      && (q.cancelFailed <==> p.cancelFailed || (id in p.s.active && !CancelSucceeds(p.s, id, env)))
      && (p.s.masterReady ==> q.s.masterReady && q.s.master.alive == p.s.master.alive)
  {}

  lemma HandledFails(p: Pass, route: Route, env: PassEnv)
    requires IsNew(p, route)
    ensures var q, id := HandledNow(p, route, env), route.id;
      && (q.cancelFailed <==>
            || p.cancelFailed
            || (id in p.s.active && !CancelSucceeds(p.s, id, env)
                && !(WantedBy(p.s, route, env.relayPorts) == Some(p.s.active[id]) && Answers(route, env))))
      && (p.s.masterReady ==> q.s.masterReady && q.s.master.alive == p.s.master.alive)
  {
    hide Validate, Establish, CancelAndReport;
    var id, ports := route.id, env.relayPorts;
    var q := p.(seen := p.seen + {id});
    if !route.enabled {
      CancelFlags(q, id, env, "disabled", "disabled", "");
    } else if Validate(route).Err? {
      CancelFlags(q, id, env, "error", "error", Validate(route).error);
    } else {
      var r := Validate(route).value;
      ValidateKeeps(route);
      if !ValidPort(r.remotePort) {
        CancelFlags(q, id, env, "error", "error", "remote port must be between 1 and 65535");
      } else if r.protocol.UDP? {
        var relayed := q.(s := q.s.(relays := WithRelay(q.s.relays, r, ports)));
        match RelayFor(q.s.relays, r, ports) {
          case None => CancelFlags(relayed, id, env, "error", "error", "listen UDP relay");
          case Some(relay) => EstablishFails(relayed, id, ViaRelay(q.s.bindHost, r, relay), env);
        }
      } else if id !in env.healthy {
        CancelFlags(q, id, env, "down", "down", "connect to local service");
      } else {
        EstablishFails(q, id, Direct(q.s.bindHost, r), env);
      }
    }
  }

  // ---- The loop ----

  lemma DiedGrows(routes: seq<Route>, route: Route, env: PassEnv)
    ensures DiedBy(routes + [route], env) <==> DiedBy(routes, env) || route.id in env.dies
  {
    var more := routes + [route];
    assert more[|routes|] == route;
    assert forall i :: 0 <= i < |routes| ==> more[i] == routes[i];
  }

  ghost predicate SomeFailed(s: State, routes: seq<Route>, env: PassEnv, ids: set<string>) {
    exists id :: id in ids && CancelFails(s, routes, env, id)
  }

  /** The loop from a living master, if anything is recorded. */
  ghost predicate Faithful(s0: State, p: Pass, routes: seq<Route>, n: nat, env: PassEnv)
    requires n <= |routes|
  {
    && (p.cancelFailed <==> SomeFailed(s0, routes, env, Ids(routes[..n])))
    && (s0.active != map[] ==> p.s.masterReady && (p.s.master.alive <==> !DiedBy(routes[..n], env)))
  }

  lemma InPrefix(routes: seq<Route>, m: int, n: int)
    ensures 0 <= m < n <= |routes| && routes[m].id != "" ==> routes[m].id in Ids(routes[..n])
  {
    if 0 <= m < n <= |routes| { assert routes[..n][m] in routes[..n]; }
  }

  lemma FirstTurn(routes: seq<Route>, n: nat)
    requires n < |routes| && routes[n].id != "" && routes[n].id !in Ids(routes[..n])
    ensures ComesUp(routes, n, routes[n].id) && routes[n].id in Ids(routes)
    ensures forall m :: ComesUp(routes, m, routes[n].id) ==> m == n
  {
    var id := routes[n].id;
    assert routes[n] in routes;
    forall m | ComesUp(routes, m, id) ensures m == n {
      InPrefix(routes, n, m);
      InPrefix(routes, m, n);
    }
  }

  lemma StepFaithful(s0: State, p: Pass, routes: seq<Route>, n: nat, env: PassEnv)
    requires n < |routes| && Faithful(s0, p, routes, n, env) && Settled(s0, p, routes[..n], env.relayPorts)
    requires ReadyOrIdle(s0)
    ensures Faithful(s0, Handled(p, routes[n], env), routes, n + 1, env)
  {
    hide HandledNow, WantedBy, Wanted, FirstRoute, Ids, RelayInstalled, DiedBy;
    var earlier, route := routes[..n], routes[n];
    var id := route.id;
    assert routes[..n + 1] == earlier + [route] && earlier + [route] <= routes;
    var p' := if id in env.dies then WithMasterDead(p) else p;
    IdsExtend(earlier, route);
    DiedGrows(earlier, route, env);
    if IsNew(p', route) {
      FirstTurn(routes, n);
      DeathSettled(s0, p, earlier, env.relayPorts);
      WantOfNew(s0, p', earlier, route, routes, env.relayPorts);
      HandledFails(p', route, env);
      TurnFails(s0, p', routes, n, env);
    } else {
      HandledDuplicate(p', route, env);
    }
  }

  lemma DeathSettled(s0: State, p: Pass, routes: seq<Route>, ports: map<string, int>)
    requires Settled(s0, p, routes, ports)
    ensures Settled(s0, WithMasterDead(p), routes, ports)
  {
    hide RelayFor, WantedBy, Validate;
  }

  /** In the turn of its first route, an ID's cancel fails exactly if it is due and refused or too late. */
  lemma TurnFails(s0: State, p: Pass, routes: seq<Route>, n: nat, env: PassEnv)
    requires n < |routes| && ComesUp(routes, n, routes[n].id) && routes[n].id in Ids(routes)
    requires forall m :: ComesUp(routes, m, routes[n].id) ==> m == n
    requires SameEntry(s0.active, p.s.active, routes[n].id) && FirstRoute(routes, routes[n].id) == Some(routes[n])
    requires Wanted(s0, routes, env.relayPorts, routes[n].id) == WantedBy(p.s, routes[n], env.relayPorts)
    requires s0.active != map[] ==> (p.s.master.alive <==> !DiedBy(routes[..n + 1], env))
    ensures var id := routes[n].id;
      CancelFails(s0, routes, env, id) <==>
        id in p.s.active && !CancelSucceeds(p.s, id, env)
        && !(WantedBy(p.s, routes[n], env.relayPorts) == Some(p.s.active[id]) && Answers(routes[n], env))
  {
    hide WantedBy, Wanted, FirstRoute, Ids, DiedBy;
    assert ComesUp(routes, n, routes[n].id);
  }

  lemma {:induction false} LoopFaithful(s0: State, routes: seq<Route>, n: nat, env: PassEnv)
    requires n <= |routes| && ReadyOrIdle(s0) && (s0.active != map[] ==> s0.master.alive)
    ensures Faithful(s0, HandleAll(Start(s0), routes[..n], env), routes, n, env)
  {
    hide Handled, CancelFails, Settled, UpReportsHold, Ids;
    if n == 0 {
      assert routes[..0] == [];
      NoIds();
    } else {
      var earlier, route := routes[..n - 1], routes[n - 1];
      assert routes[..n][..n - 1] == earlier && routes[..n][n - 1] == route;
      LoopFaithful(s0, routes, n - 1, env);
      LoopSettles(s0, earlier, env);
      StepFaithful(s0, HandleAll(Start(s0), earlier, env), routes, n - 1, env);
    }
  }

  // ---- When a pass takes the desired revision ----

  lemma SweepFails(s0: State, p: Pass, routes: seq<Route>, env: PassEnv)
    requires Settled(s0, p, routes, env.relayPorts) && Faithful(s0, p, routes, |routes|, env)
    ensures routes[..|routes|] == routes
    ensures Swept(p, env).cancelFailed <==> SomeFailed(s0, routes, env, s0.active.Keys)
    ensures forall id :: id in FailedStaleIds(BeforeSweep(p, env), env) <==>
      id in s0.active && id !in Ids(routes) && CancelFails(s0, routes, env, id)
  {
    hide Ids, FirstRoute, WantedBy, RelayInstalled, DiedBy;
    assert routes[..|routes|] == routes;
    var q := BeforeSweep(p, env);
    forall id | id in s0.active && id !in Ids(routes)
      ensures id in FailedStaleIds(q, env) <==> CancelFails(s0, routes, env, id)
    {
      assert SameEntry(s0.active, p.s.active, id) && s0.active != map[];
      FirstRouteInIds(routes, id);
    }
    forall id | id in FailedStaleIds(q, env) ensures id in s0.active && id !in Ids(routes) {
      assert SameEntry(s0.active, p.s.active, id);
    }
  }

  /** A pass fails to take the desired revision exactly if the master's state stays unknown or the cancel of a forward
      that has to go fails; whatever else goes wrong, it takes it. */
  lemma RevisionIff(s: State, desired: Desired, env: PassEnv)
    requires ReadyOrIdle(s)
    ensures var o, s0 := ReconcilePass(s, desired, env), AfterCheck(s, env);
      && (o.cancelFailed <==> MasterUnknown(s, env) || SomeFailed(s0, desired.routes, env, s0.active.Keys))
      && o.revision == o.s.observedRevision == (if o.cancelFailed then s.observedRevision else desired.revision)
      && o.lastLocal == (if MasterUnknown(s, env) then "error" else "disabled")
      && (forall id :: id in o.lastIds <==>
            && id in s0.active && id !in Ids(desired.routes)
            && (MasterUnknown(s, env) || CancelFails(s0, desired.routes, env, id)))
  {
    hide HandleAll, Swept, Settled, UpReportsHold, SomeFailed, CancelFails, Ids;
    AdvanceLeavesNoStaleForward(s, desired, env);
    if !MasterUnknown(s, env) {
      var s0, p := AfterCheck(s, env), LoopOf(s, desired, env);
      LoopSettles(s0, desired.routes, env);
      assert desired.routes[..|desired.routes|] == desired.routes;
      LoopFaithful(s0, desired.routes, |desired.routes|, env);
      SweepFails(s0, p, desired.routes, env);
    }
  }

  /** The master check settles, the master lives on, and no cancel of a recorded forward is refused. */
  predicate CancelsGranted(s: State, env: PassEnv) {
    && !MasterUnknown(s, env) && env.dies == {} && !env.diesLast
    && s.active.Keys <= env.cancelOk
  }

  /** So services that do not answer, refused forwards, failing starts and missing relay ports never hold the revision
      back. */
  lemma FailuresTakeTheRevision(s: State, desired: Desired, env: PassEnv)
    requires ReadyOrIdle(s) && CancelsGranted(s, env)
    ensures var o := ReconcilePass(s, desired, env);
      !o.cancelFailed && o.revision == o.s.observedRevision == desired.revision && o.lastIds == {}
  {
    hide HandleAll, Settled, UpReportsHold, Ids, Kept, AfterCheck;
    RevisionIff(s, desired, env);
    CheckForgets(s, env);
    var o := ReconcilePass(s, desired, env);
    NoneLast(LoopOf(s, desired, env), env);
  }

  lemma CheckForgets(s: State, env: PassEnv)
    ensures AfterCheck(s, env).active.Keys <= s.active.Keys
    ensures !MasterUnknown(s, env) ==> !MasterUnknown(AfterCheck(s, env), env)
  {}

  lemma NoneLast(p: Pass, env: PassEnv)
    ensures !Swept(p, env).cancelFailed ==> FailedStaleIds(BeforeSweep(p, env), env) == {}
  {}

  // ---- What is reported ----

  /** The local half of a route's report: why it is not to be forwarded, or "up". */
  function LocalStatus(s: State, routes: seq<Route>, i: nat, env: PassEnv): string
    requires i < |routes|
  {
    var route := routes[i];
    if route.id == "" || route.id in Ids(routes[..i]) then "error"
    else if !route.enabled then "disabled"
    else if WantedBy(s, route, env.relayPorts).None? then "error"
    else if !Answers(route, env) then "down"
    else "up"
  }

  /** The tunnel half: it repeats a local half that is not "up", unless a due cancel fails; and a forward that is to be
      had is "up" unless a call for it fails or the master dies. */
  predicate TunnelStatus(s: State, routes: seq<Route>, i: nat, env: PassEnv, tunnel: string)
    requires i < |routes|
  {
    var id, local := routes[i].id, LocalStatus(s, routes, i, env);
    if local != "up" then
      tunnel == if IsFirst(routes, i) && CancelFails(s, routes, env, id) then "error" else local
    else
      && (tunnel == "up" || tunnel == "error")
      && (Kept(s, routes, env, id) ==> tunnel == "up")
      && (CancelFails(s, routes, env, id) ==> tunnel == "error")
      && (!CancelFails(s, routes, env, id) && id in env.forwardOk && id in env.ensureOk && !DiedBy(routes[..i + 1], env) ==>
            tunnel == "up")
  }

  predicate IsFirst(routes: seq<Route>, i: nat)
    requires i < |routes|
  {
    routes[i].id != "" && routes[i].id !in Ids(routes[..i])
  }

  lemma EstablishReports(p: Pass, id: string, forward: Forward, env: PassEnv)
    ensures var q := Establish(p, id, forward, env);
      && |q.reports| == |p.reports| + 1 && q.reports[..|p.reports|] == p.reports
      && var r := q.reports[|p.reports|];
         && r.routeId == id && r.localStatus == "up" && (r.tunnelStatus == "up" || r.tunnelStatus == "error")
         && (r.tunnelStatus == "up" <==> r.error == "")
         && (id in p.s.active && p.s.active[id] == forward ==> r.tunnelStatus == "up")
         && (id in p.s.active && p.s.active[id] != forward && !CancelSucceeds(p.s, id, env) ==> r.tunnelStatus == "error")
         && (CancelSucceeds(p.s, id, env) && id in env.forwardOk && id in env.ensureOk && ReadyAlive(p.s) ==>
               r.tunnelStatus == "up")
  {}

  lemma CancelReported(p: Pass, id: string, env: PassEnv, local: string, tunnel: string, error: string)
    ensures var q := CancelAndReport(p, id, env, local, tunnel, error);
      && |q.reports| == |p.reports| + 1 && q.reports[..|p.reports|] == p.reports
      && var r := q.reports[|p.reports|];
         && r.routeId == id && r.localStatus == local
         && r.tunnelStatus == if CancelSucceeds(p.s, id, env) then tunnel else "error"
  {}

  /** The report of a route that comes up, in terms of the pass at that point. */
  predicate ReportedNow(p: Pass, route: Route, env: PassEnv, r: RouteReport) {
    var id, want := route.id, WantedBy(p.s, route, env.relayPorts);
    var local := if !route.enabled then "disabled" else if want.None? then "error" else if !Answers(route, env) then "down"
                 else "up";
    && r.routeId == id && r.localStatus == local && (r.tunnelStatus == "up" ==> r.error == "")
    && if local != "up" then r.tunnelStatus == if CancelSucceeds(p.s, id, env) then local else "error"
       else
         && (r.tunnelStatus == "up" || r.tunnelStatus == "error")
         && (id in p.s.active && want == Some(p.s.active[id]) ==> r.tunnelStatus == "up")
         && (id in p.s.active && want != Some(p.s.active[id]) && !CancelSucceeds(p.s, id, env) ==>
               r.tunnelStatus == "error")
         && (CancelSucceeds(p.s, id, env) && id in env.forwardOk && id in env.ensureOk && ReadyAlive(p.s) ==>
               r.tunnelStatus == "up")
  }

  lemma HandledIsReported(p: Pass, route: Route, env: PassEnv)
    requires IsNew(p, route)
    ensures var q := HandledNow(p, route, env);
      && |q.reports| == |p.reports| + 1 && q.reports[..|p.reports|] == p.reports
      && ReportedNow(p, route, env, q.reports[|p.reports|])
  {
    hide Validate, Establish, CancelAndReport;
    var id, ports := route.id, env.relayPorts;
    var q := p.(seen := p.seen + {id});
    if !route.enabled {
      CancelReported(q, id, env, "disabled", "disabled", "");
    } else if Validate(route).Err? {
      CancelReported(q, id, env, "error", "error", Validate(route).error);
    } else {
      var r := Validate(route).value;
      ValidateKeeps(route);
      if !ValidPort(r.remotePort) {
        CancelReported(q, id, env, "error", "error", "remote port must be between 1 and 65535");
      } else if r.protocol.UDP? {
        var relayed := q.(s := q.s.(relays := WithRelay(q.s.relays, r, ports)));
        match RelayFor(q.s.relays, r, ports) {
          case None => CancelReported(relayed, id, env, "error", "error", "listen UDP relay");
          case Some(relay) => EstablishReports(relayed, id, ViaRelay(q.s.bindHost, r, relay), env);
        }
      } else if id !in env.healthy {
        CancelReported(q, id, env, "down", "down", "connect to local service");
      } else {
        EstablishReports(q, id, Direct(q.s.bindHost, r), env);
      }
    }
  }

  /** The report is what the status of its route is to be, over the whole list. */
  predicate ReportTells(s: State, routes: seq<Route>, i: nat, env: PassEnv, r: RouteReport)
    requires i < |routes|
  {
    && r.routeId == routes[i].id && r.localStatus == LocalStatus(s, routes, i, env)
    && TunnelStatus(s, routes, i, env, r.tunnelStatus) && (r.tunnelStatus == "up" ==> r.error == "")
  }

  /** One report for each of the first n routes, in their order. */
  ghost predicate ReportsTell(s: State, routes: seq<Route>, n: nat, env: PassEnv, reports: seq<RouteReport>)
    requires n <= |routes|
  {
    |reports| == n && forall i :: 0 <= i < n ==> ReportTells(s, routes, i, env, reports[i])
  }

  lemma TurnTells(s0: State, p: Pass, routes: seq<Route>, n: nat, env: PassEnv, r: RouteReport)
    requires n < |routes| && IsFirst(routes, n) && ReportedNow(p, routes[n], env, r)
    requires ComesUp(routes, n, routes[n].id) && routes[n].id in Ids(routes)
    requires forall m :: ComesUp(routes, m, routes[n].id) ==> m == n
    requires SameEntry(s0.active, p.s.active, routes[n].id) && FirstRoute(routes, routes[n].id) == Some(routes[n])
    requires Wanted(s0, routes, env.relayPorts, routes[n].id) == WantedBy(p.s, routes[n], env.relayPorts)
    requires s0.active != map[] ==> p.s.masterReady && (p.s.master.alive <==> !DiedBy(routes[..n + 1], env))
    requires !DiedBy(routes[..n + 1], env) ==> ReadyAlive(p.s)
    ensures ReportTells(s0, routes, n, env, r)
  {
    hide WantedBy, Ids, DiedBy, CancelSucceeds, FirstRoute, CancelFails, Kept, ReadyAlive;
    var id := routes[n].id;
    assert WantedBy(s0, routes[n], env.relayPorts) == WantedBy(p.s, routes[n], env.relayPorts);
    CancelSucceedsIff(s0, p, routes, n, env);
    if !routes[n].enabled { DisabledWantsNothing(p.s, routes[n], env.relayPorts); }
  }

  lemma DisabledWantsNothing(s: State, route: Route, ports: map<string, int>)
    requires !route.enabled
    ensures WantedBy(s, route, ports).None?
  {}

  /** In its turn, the cancel that an ID may need succeeds unless it fails. */
  lemma CancelSucceedsIff(s0: State, p: Pass, routes: seq<Route>, n: nat, env: PassEnv)
    requires n < |routes| && ComesUp(routes, n, routes[n].id) && routes[n].id in Ids(routes)
    requires forall m :: ComesUp(routes, m, routes[n].id) ==> m == n
    requires SameEntry(s0.active, p.s.active, routes[n].id) && FirstRoute(routes, routes[n].id) == Some(routes[n])
    requires Wanted(s0, routes, env.relayPorts, routes[n].id) == WantedBy(p.s, routes[n], env.relayPorts)
    requires s0.active != map[] ==> (p.s.master.alive <==> !DiedBy(routes[..n + 1], env))
    ensures var id, want := routes[n].id, WantedBy(p.s, routes[n], env.relayPorts);
      && (CancelFails(s0, routes, env, id) <==> !CancelSucceeds(p.s, id, env) && !Kept(s0, routes, env, id))
      && (Kept(s0, routes, env, id) <==>
            id in p.s.active && want == Some(p.s.active[id]) && Answers(routes[n], env))
      && (!CancelSucceeds(p.s, id, env) ==> id in p.s.active)
  {
    hide WantedBy, Wanted, FirstRoute, Ids, DiedBy;
    assert ComesUp(routes, n, routes[n].id);
  }

  lemma StepTells(s0: State, p: Pass, routes: seq<Route>, n: nat, env: PassEnv)
    requires n < |routes| && Faithful(s0, p, routes, n, env) && Settled(s0, p, routes[..n], env.relayPorts)
    requires ReportsTell(s0, routes, n, env, p.reports) && (!DiedBy(routes[..n], env) ==> ReadyAlive(p.s))
    ensures ReportsTell(s0, routes, n + 1, env, Handled(p, routes[n], env).reports)
    ensures !DiedBy(routes[..n + 1], env) ==> ReadyAlive(Handled(p, routes[n], env).s)
  {
    hide HandledNow, WantedBy, Wanted, FirstRoute, Ids, RelayInstalled, DiedBy, ReportTells, CancelFails;
    var earlier, route := routes[..n], routes[n];
    assert routes[..n + 1] == earlier + [route] && earlier + [route] <= routes;
    var p' := if route.id in env.dies then WithMasterDead(p) else p;
    var q := HandledNow(p', route, env);
    DiedGrows(earlier, route, env);
    if IsNew(p', route) {
      FirstTurn(routes, n);
      DeathSettled(s0, p, earlier, env.relayPorts);
      WantOfNew(s0, p', earlier, route, routes, env.relayPorts);
      HandledIsReported(p', route, env);
      TurnTells(s0, p', routes, n, env, q.reports[n]);
      if ReadyAlive(p'.s) { HandledInstalls(p', route, env); }
    } else {
      HandledDuplicate(p', route, env);
      DuplicateTells(s0, routes, n, env);
    }
    forall i | 0 <= i < n ensures q.reports[i] == p.reports[i] {
      assert q.reports[..n][i] == p.reports[i];
    }
  }

  lemma DuplicateTells(s0: State, routes: seq<Route>, n: nat, env: PassEnv)
    requires n < |routes| && !IsFirst(routes, n)
    ensures ReportTells(s0, routes, n, env,
      RouteReport(routes[n].id, "error", "error", "route ID is required and must be unique"))
  {
    hide WantedBy, Ids, DiedBy, CancelFails;
  }

  lemma {:induction false} LoopTells(s0: State, routes: seq<Route>, n: nat, env: PassEnv)
    requires n <= |routes| && ReadyOrIdle(s0) && ReadyAlive(s0)
    ensures var p := HandleAll(Start(s0), routes[..n], env);
      && ReportsTell(s0, routes, n, env, p.reports)
      && (!DiedBy(routes[..n], env) ==> ReadyAlive(p.s))
  {
    hide Handled, CancelFails, Settled, UpReportsHold, Ids, ReportTells, DiedBy, Faithful;
    if n == 0 {
      assert routes[..0] == [];
    } else {
      var earlier, route := routes[..n - 1], routes[n - 1];
      assert routes[..n][..n - 1] == earlier && routes[..n][n - 1] == route;
      LoopTells(s0, routes, n - 1, env);
      LoopSettles(s0, earlier, env);
      LoopFaithful(s0, routes, n - 1, env);
      StepTells(s0, HandleAll(Start(s0), earlier, env), routes, n - 1, env);
    }
  }

  /** A pass whose master check settles reports on every route of the list, in its order and once, what its status is. */
  lemma PassTells(s: State, desired: Desired, env: PassEnv)
    requires ReadyOrIdle(s) && !MasterUnknown(s, env)
    ensures ReportsTell(AfterCheck(s, env), desired.routes, |desired.routes|, env, ReconcilePass(s, desired, env).reports)
  {
    hide HandleAll, Settled, UpReportsHold, ReportTells, DiedBy;
    var s0, routes := AfterCheck(s, env), desired.routes;
    assert routes[..|routes|] == routes;
    LoopTells(s0, routes, |routes|, env);
    SweepKeepsReports(LoopOf(s, desired, env), env);
  }

  /** So a route is reported up only if the probe of its local service succeeded, unless it is a UDP route. */
  lemma UpMeansAnswered(s: State, desired: Desired, env: PassEnv, i: nat)
    requires ReadyOrIdle(s) && i < |ReconcilePass(s, desired, env).reports|
    requires ReconcilePass(s, desired, env).reports[i].tunnelStatus == "up"
    ensures i < |desired.routes| && IsFirst(desired.routes, i) && desired.routes[i].enabled && Answers(desired.routes[i], env)
  {
    hide HandleAll, Swept, CancelFails, Ids, WantedBy, Kept, DiedBy;
    if MasterUnknown(s, env) {
      FailureReportsAreErrors(desired.routes, "SSH ControlMaster state is unknown");
    } else {
      PassTells(s, desired, env);
      assert ReportTells(AfterCheck(s, env), desired.routes, i, env, ReconcilePass(s, desired, env).reports[i]);
    }
  }

  // ---- An unknown master, and relays ----

  function ReportedIds(reports: seq<RouteReport>): set<string> {
    set i | 0 <= i < |reports| :: reports[i].routeId
  }

  lemma ReportedMore(reports: seq<RouteReport>, r: RouteReport)
    ensures ReportedIds(reports + [r]) == ReportedIds(reports) + {r.routeId}
  {
    var more := reports + [r];
    assert more[|reports|] == r && forall i :: 0 <= i < |reports| ==> more[i] == reports[i];
  }

  /** While the master's state stays unknown, exactly the named IDs are reported as failed, each once. */
  lemma {:induction false} FailureReportsOnce(routes: seq<Route>, message: string)
    ensures var reports := FailureReports(routes, message);
      && ReportedIds(reports) == Ids(routes)
      && (forall i, j :: 0 <= i < j < |reports| ==> reports[i].routeId != reports[j].routeId)
      && (forall i :: 0 <= i < |reports| ==>
            reports[i] == RouteReport(reports[i].routeId, "error", "error", message))
  {
    hide Ids;
    if routes == [] {
      NoIds();
    } else {
      var earlier, last := routes[..|routes| - 1], routes[|routes| - 1];
      assert routes == earlier + [last];
      FailureReportsOnce(earlier, message);
      IdsExtend(earlier, last);
      var before := FailureReports(earlier, message);
      ReportedMore(before, RouteReport(last.id, "error", "error", message));
      assert forall i :: 0 <= i < |before| ==> before[i].routeId in ReportedIds(before);
      hide ReportedIds;
    }
  }

  /** After a pass whose master check settles, a listed UDP route has the relay it had if that serves its target, else a
      new one if there is a port for it, and else none. */
  lemma RelayAfterPass(s: State, desired: Desired, env: PassEnv, i: nat)
    requires !MasterUnknown(s, env) && i < |desired.routes| && IsFirst(desired.routes, i)
    requires var route := desired.routes[i];
      route.enabled && route.protocol.UDP? && ValidPort(route.remotePort) && Validate(route).Ok?
    ensures var id, r, relays := desired.routes[i].id, Validate(desired.routes[i]).value,
          ReconcilePass(s, desired, env).s.relays;
      if id in s.relays && s.relays[id].host == r.localHost && s.relays[id].targetPort == r.localPort then
        id in relays && relays[id] == s.relays[id]
      else if id in env.relayPorts then
        id in relays && relays[id] == Relay(r.localHost, r.localPort, env.relayPorts[id])
      else id !in relays
  {
    hide HandleAll, UpReportsHold, Wanted, FirstRoute, Ids, Validate;
    var s0, routes, id := AfterCheck(s, env), desired.routes, desired.routes[i].id;
    LoopSettles(s0, routes, env);
    FirstTurn(routes, i);
    var j := FirstIndex(routes, id);
    assert ComesUp(routes, j, id);
    ValidateKeeps(routes[i]);
    SweepKeepsSeen(LoopOf(s, desired, env), env);
    assert SameEntry(LoopOf(s, desired, env).s.relays, ReconcilePass(s, desired, env).s.relays, id);
  }

  /** A pass whose master check settles closes the relay of every route that the list does not name. */
  lemma RelaysAreListed(s: State, desired: Desired, env: PassEnv)
    requires !MasterUnknown(s, env)
    ensures ReconcilePass(s, desired, env).s.relays.Keys <= Ids(desired.routes)
  {
    hide HandleAll, UpReportsHold, Wanted, FirstRoute, Ids, RelayInstalled;
    LoopSettles(AfterCheck(s, env), desired.routes, env);
  }

  // ---- A pass over what is already there ----

  /** Every listed route that asks for a forward is served, by its relay if it is a UDP route, and nothing else is kept. */
  ghost predicate Steady(s: State, routes: seq<Route>) {
    && s.active.Keys <= Ids(routes) && s.relays.Keys <= Ids(routes)
    && forall i :: 0 <= i < |routes| && IsFirst(routes, i) ==>
         var route := routes[i];
         if route.enabled && Validate(route).Ok? && ValidPort(route.remotePort) then ServesRequest(s, route)
         else route.id !in s.active
  }

  /** The master answers, nothing dies, and every service that is asked for answers. */
  predicate AllAnswer(s: State, routes: seq<Route>, env: PassEnv) {
    && s.masterReady && s.master.alive && env.checkOk && env.dies == {} && !env.diesLast
    && forall i :: 0 <= i < |routes| && routes[i].enabled ==> Answers(routes[i], env)
  }

  lemma HandledQuiet(p: Pass, route: Route, env: PassEnv)
    requires IsNew(p, route)
    requires if route.enabled && Validate(route).Ok? && ValidPort(route.remotePort) then
               ServesRequest(p.s, route) && Answers(route, env)
             else route.id !in p.s.active
    ensures HandledNow(p, route, env).s == p.s
  {
    hide Validate;
    if route.enabled && Validate(route).Ok? {
      ValidateKeeps(route);
      var r := Validate(route).value;
      if r.protocol.UDP? && ValidPort(r.remotePort) {
        assert RelayFor(p.s.relays, r, env.relayPorts) == Some(p.s.relays[r.id]);
        assert p.s.relays[r.id := p.s.relays[r.id]] == p.s.relays;
      }
    }
  }

  lemma {:induction false} LoopQuiet(s: State, routes: seq<Route>, n: nat, env: PassEnv)
    requires n <= |routes| && Steady(s, routes) && AllAnswer(s, routes, env)
    ensures HandleAll(Start(s), routes[..n], env).s == s
  {
    hide HandledNow, Ids, Validate, ServesRequest, Answers, Settled, UpReportsHold;
    if n == 0 {
      assert routes[..0] == [];
    } else {
      var earlier, route := routes[..n - 1], routes[n - 1];
      assert routes[..n][..n - 1] == earlier && routes[..n][n - 1] == route;
      LoopQuiet(s, routes, n - 1, env);
      LoopSettles(s, earlier, env);
      var p := HandleAll(Start(s), earlier, env);
      SeenOf(s, p, earlier, env.relayPorts);
      if IsNew(p, route) {
        assert IsFirst(routes, n - 1);
        HandledQuiet(p, route, env);
      } else {
        HandledDuplicate(p, route, env);
      }
    }
  }

  /** A pass over a list that is already served leaves every forward and every relay alone: it asks the master for
      nothing, so no refusal could disturb it. */
  lemma SteadyPassIsQuiet(s: State, desired: Desired, env: PassEnv)
    requires Steady(s, desired.routes) && AllAnswer(s, desired.routes, env)
    ensures ReconcilePass(s, desired, env).s == s.(observedRevision := desired.revision)
  {
    hide HandleAll, Ids, Settled, UpReportsHold, Answers, ServesRequest, Validate;
    var routes := desired.routes;
    assert routes[..|routes|] == routes && AfterCheck(s, env) == s;
    LoopQuiet(s, routes, |routes|, env);
    LoopSettles(s, routes, env);
    var p := LoopOf(s, desired, env);
    SeenOf(s, p, routes, env.relayPorts);
    assert p.s == s;
    SweepQuiet(p, env);
    RevisionIff(s, desired, env);
    NoneFails(s, routes, env);
  }

  lemma SweepQuiet(p: Pass, env: PassEnv)
    requires p.s.active.Keys <= p.seen && p.s.relays.Keys <= p.seen && !env.diesLast
    ensures Swept(p, env).s == p.s
  {
    assert StaleIds(p) == {} && p.s.relays.Keys - p.seen == {};
  }

  lemma NoneFails(s: State, routes: seq<Route>, env: PassEnv)
    requires Steady(s, routes) && AllAnswer(s, routes, env)
    ensures forall id :: id in s.active ==> !CancelFails(s, routes, env, id)
  {
    hide Validate, Ids, FirstRoute;
    forall id | id in s.active ensures Kept(s, routes, env, id) {
      FirstRouteInIds(routes, id);
      var i := FirstIndex(routes, id);
      ValidateKeeps(routes[i]);
    }
  }

  lemma {:induction false} FirstIndex(routes: seq<Route>, id: string) returns (i: nat)
    requires id in Ids(routes)
    ensures i < |routes| && IsFirst(routes, i) && routes[i].id == id && FirstRoute(routes, id) == Some(routes[i])
  {
    hide Ids, FirstRoute;
    NoIds();
    assert routes != [];
    var earlier, last := routes[..|routes| - 1], routes[|routes| - 1];
    assert routes == earlier + [last];
    IdsExtend(earlier, last);
    FirstRouteExtends(earlier, last, id);
    if id in Ids(earlier) {
      i := FirstIndex(earlier, id);
      assert earlier[..i] == routes[..i];
    } else {
      i := |routes| - 1;
    }
  }

  /** A pass in which every call succeeds leaves everything served, so the next one over the same list is quiet. */
  lemma SecondPassIsQuiet(s: State, desired: Desired, env: PassEnv, next: PassEnv)
    requires ReadyOrIdle(s) && Grants(env, Everyone(s, desired)) && Ids(desired.routes) <= env.relayPorts.Keys
    requires AllAnswer(ReconcilePass(s, desired, env).s, desired.routes, next)
    ensures var after := ReconcilePass(s, desired, env).s;
      ReconcilePass(after, desired, next).s == after
  {
    hide ReconcilePass, Steady, AllAnswer;
    PassLeavesSteady(s, desired, env);
    SteadyPassIsQuiet(ReconcilePass(s, desired, env).s, desired, next);
    CooperativePassConverges(s, desired, env);
  }

  lemma PassLeavesSteady(s: State, desired: Desired, env: PassEnv)
    requires ReadyOrIdle(s) && Grants(env, Everyone(s, desired)) && Ids(desired.routes) <= env.relayPorts.Keys
    ensures Steady(ReconcilePass(s, desired, env).s, desired.routes)
  {
    hide ReconcilePass, Validate, FirstRoute, Ids, Kept, ServesRequest, AfterCheck;
    var o, routes := ReconcilePass(s, desired, env), desired.routes;
    CooperativePassConverges(s, desired, env);
    AdvanceLeavesNoStaleForward(s, desired, env);
    GrantsSettle(s, env, Everyone(s, desired));
    RelaysAreListed(s, desired, env);
    forall id ensures id in o.s.active ==> id in Ids(routes) { FirstRouteInIds(routes, id); }
    forall i | 0 <= i < |routes| && IsFirst(routes, i)
      ensures var route := routes[i];
        if route.enabled && Validate(route).Ok? && ValidPort(route.remotePort) then ServesRequest(o.s, route)
        else route.id !in o.s.active
    {
      FirstTurn(routes, i);
      var j := FirstIndex(routes, routes[i].id);
      assert ComesUp(routes, j, routes[i].id);
      WantedIffAsked(s, routes[i], env.relayPorts);
    }
  }

  lemma GrantsSettle(s: State, env: PassEnv, ids: set<string>)
    requires Grants(env, ids)
    ensures !MasterUnknown(s, env)
  {}

  lemma WantedIffAsked(s: State, route: Route, ports: map<string, int>)
    requires route.id in ports
    ensures WantedBy(s, route, ports).Some? <==> route.enabled && Validate(route).Ok? && ValidPort(route.remotePort)
  {
    hide Validate;
    if Validate(route).Ok? { ValidateKeeps(route); }
  }
}
