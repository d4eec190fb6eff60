/** The agent's reconciler: one pass turns a desired state into SSH forwards (internal/agent/reconciler.go). */
module Reconciler {
  import opened Results
  import opened Routes

  datatype Forward = Forward(bindHost: string, remotePort: int, localHost: string, localPort: int)

  /** A UDP framing relay: the datagram target it serves and its own loopback port. */
  datatype Relay = Relay(host: string, targetPort: int, port: int)

  datatype Desired = Desired(revision: int, routes: seq<Route>)

  datatype RouteReport = RouteReport(routeId: string, localStatus: string, tunnelStatus: string, error: string)

  datatype Observed = Observed(revision: int, routes: seq<RouteReport>)

  /** The process's SSH master: whether it runs, and the forwards it holds. */
  datatype Master = Master(alive: bool, live: set<Forward>)

  const DEAD := Master(false, {})

  /** The environment's answers during one pass, by route ID: which runner calls and probes succeed,
      for which a failing start of a master has stopped the one there was, which port a new relay gets (none: the
      listen fails), and before which routes the master dies. */
  datatype PassEnv = PassEnv(
    checkOk: bool, closeOk: bool, closeKills: bool, ensureOk: set<string>, ensureKills: set<string>,
    forwardOk: set<string>, cancelOk: set<string>, healthy: set<string>, relayPorts: map<string, int>,
    dies: set<string>, diesLast: bool)

  datatype State = State(
    bindHost: string, active: map<string, Forward>, relays: map<string, Relay>,
    masterReady: bool, observedRevision: int, master: Master)

  // ---- The runner's contract: calls succeed only on a live master, a failing call has no effect ----

  function AfterClose(m: Master, env: PassEnv): Master {
    if env.closeOk || env.closeKills then DEAD else m
  }

  /** A master is ensured only while nothing is recorded. Success leaves one without forwards: this process's own, or a
      new one in the place of any other. A failure may have stopped the one there was. */
  function AfterEnsure(m: Master, id: string, env: PassEnv): Master {
    if id in env.ensureOk then Master(true, {}) else if id in env.ensureKills then DEAD else m
  }

  // ---- One pass ----

  /** A pass in progress. */
  datatype Pass = Pass(s: State, seen: set<string>, cancelFailed: bool, reports: seq<RouteReport>) {
    function Report(id: string, local: string, tunnel: string, error: string): Pass {
      this.(reports := reports + [RouteReport(id, local, tunnel, error)])
    }
  }

  predicate CancelSucceeds(s: State, id: string, env: PassEnv) {
    id !in s.active || (id in env.cancelOk && s.master.alive)
  }

  /** Cancel the route's forward, if it has one. */
  function Cancelled(p: Pass, id: string, env: PassEnv): Pass {
    if id !in p.s.active then p
    else if CancelSucceeds(p.s, id, env) then
      p.(s := p.s.(active := p.s.active - {id},
                   master := p.s.master.(live := p.s.master.live - {p.s.active[id]})))
    else p.(cancelFailed := true)
  }

  /** Cancel, then report an error of its own if that failed. */
  function CancelAndReport(p: Pass, id: string, env: PassEnv, local: string, tunnel: string, error: string): Pass {
    if CancelSucceeds(p.s, id, env) then Cancelled(p, id, env).Report(id, local, tunnel, error)
    else Cancelled(p, id, env).Report(id, local, "error", if error == "" then "cancel failed" else error + "; cancel failed")
  }

  /** The relay a UDP route uses: the one it has if the target is unchanged, else a new one. */
  function RelayFor(relays: map<string, Relay>, r: Route, ports: map<string, int>): Option<Relay> {
    if r.id in relays && relays[r.id].host == r.localHost && relays[r.id].targetPort == r.localPort then
      Some(relays[r.id])
    else if r.id in ports then Some(Relay(r.localHost, r.localPort, ports[r.id]))
    else None
  }

  function WithRelay(relays: map<string, Relay>, r: Route, ports: map<string, int>): map<string, Relay> {
    match RelayFor(relays, r, ports)
    case Some(relay) => relays[r.id := relay]
    case None => relays - {r.id}
  }

  function Direct(bindHost: string, r: Route): Forward {
    Forward(bindHost, r.remotePort, r.localHost, r.localPort)
  }

  function ViaRelay(bindHost: string, r: Route, relay: Relay): Forward {
    Forward(bindHost, r.remotePort, "127.0.0.1", relay.port)
  }

  /** Ensure a master unless one is ready. */
  function Readied(p: Pass, id: string, env: PassEnv): Pass {
    if p.s.masterReady then p
    else p.(s := p.s.(masterReady := id in env.ensureOk, master := AfterEnsure(p.s.master, id, env)))
  }

  /** Keep, replace or create the route's forward. */
  function Establish(p: Pass, id: string, forward: Forward, env: PassEnv): Pass {
    if id in p.s.active && p.s.active[id] == forward then p.Report(id, "up", "up", "")
    else if !CancelSucceeds(p.s, id, env) then Cancelled(p, id, env).Report(id, "up", "error", "cancel failed")
    else
      var q := Cancelled(p, id, env);
      var ready := Readied(q, id, env);
      if !ready.s.masterReady then ready.Report(id, "up", "error", "ensure SSH master")
      else
        if id in env.forwardOk && ready.s.master.alive then
          ready.(s := ready.s.(active := ready.s.active[id := forward],
                               master := ready.s.master.(live := ready.s.master.live + {forward})))
               .Report(id, "up", "up", "")
        else ready.Report(id, "up", "error", "forward failed")
  }

  function WithMasterDead(p: Pass): Pass {
    p.(s := p.s.(master := DEAD))
  }

  /** The loop body for one route, on a pass whose master may just have died. */
  function HandledNow(p: Pass, route: Route, env: PassEnv): Pass {
    var id := route.id;
    if id == "" || id in p.seen then p.Report(id, "error", "error", "route ID is required and must be unique")
    else
      var q := p.(seen := p.seen + {id});
      if !route.enabled then CancelAndReport(q, id, env, "disabled", "disabled", "")
      else
        match Validate(route)
        case Err(error) => CancelAndReport(q, id, env, "error", "error", error)
        case Ok(r) =>
          if !ValidPort(r.remotePort) then
            CancelAndReport(q, id, env, "error", "error", "remote port must be between 1 and 65535")
          else if r.protocol.UDP? then
            var relayed := q.(s := q.s.(relays := WithRelay(q.s.relays, r, env.relayPorts)));
            match RelayFor(q.s.relays, r, env.relayPorts)
            case None => CancelAndReport(relayed, id, env, "error", "error", "listen UDP relay")
            case Some(relay) => Establish(relayed, id, ViaRelay(q.s.bindHost, r, relay), env)
          else if id !in env.healthy then CancelAndReport(q, id, env, "down", "down", "connect to local service")
          else Establish(q, id, Direct(q.s.bindHost, r), env)
  }

  function Handled(p: Pass, route: Route, env: PassEnv): Pass {
    HandledNow(if route.id in env.dies then WithMasterDead(p) else p, route, env)
  }

  function HandleAll(p: Pass, routes: seq<Route>, env: PassEnv): Pass {
    if routes == [] then p else Handled(HandleAll(p, routes[..|routes| - 1], env), routes[|routes| - 1], env)
  }

  function Start(s: State): Pass { Pass(s, {}, false, []) }

  /** The state the route loop starts from, once a lost master has been cleared away. */
  function AfterCheck(s: State, env: PassEnv): State {
    if s.masterReady && !(env.checkOk && s.master.alive) && env.closeOk then
      s.(masterReady := false, active := map[], master := DEAD)
    else s
  }

  predicate MasterUnknown(s: State, env: PassEnv) {
    s.masterReady && !(env.checkOk && s.master.alive) && !env.closeOk
  }

  function StaleIds(p: Pass): set<string> { p.s.active.Keys - p.seen }

  function FailedStaleIds(p: Pass, env: PassEnv): set<string> {
    set id | id in StaleIds(p) && !CancelSucceeds(p.s, id, env)
  }

  function ForwardsOf(active: map<string, Forward>, ids: set<string>): set<Forward> {
    set id | id in ids && id in active :: active[id]
  }

  function BeforeSweep(p: Pass, env: PassEnv): Pass {
    if env.diesLast then WithMasterDead(p) else p
  }

  /** Cancel every forward the desired state no longer mentions and close its relays. */
  function Swept(p0: Pass, env: PassEnv): Pass {
    var p := BeforeSweep(p0, env);
    var failed := FailedStaleIds(p, env);
    var cancelled := StaleIds(p) - failed;
    p.(s := p.s.(active := p.s.active - cancelled,
                 relays := p.s.relays - (p.s.relays.Keys - p.seen),
                 master := p.s.master.(live := p.s.master.live - ForwardsOf(p.s.active, cancelled))),
       cancelFailed := p.cancelFailed || failed != {})
  }

  /** When the master's state is unknown every route is reported as failed, once. */
  function FailureReports(routes: seq<Route>, message: string): seq<RouteReport> {
    if routes == [] then []
    else
      var earlier, id := routes[..|routes| - 1], routes[|routes| - 1].id;
      if id == "" || id in Ids(earlier) then FailureReports(earlier, message)
      else FailureReports(earlier, message) + [RouteReport(id, "error", "error", message)]
  }

  /** The usable route IDs of a desired state. */
  function Ids(routes: seq<Route>): set<string> {
    set r | r in routes && r.id != "" :: r.id
  }

  /** The outcome of a pass. The reports end with one error report, in any order, for each of `lastIds`. */
  datatype Outcome = Outcome(
    s: State, revision: int, reports: seq<RouteReport>, lastIds: set<string>, lastLocal: string, cancelFailed: bool)

  function ReconcilePass(s: State, desired: Desired, env: PassEnv): Outcome {
    if MasterUnknown(s, env) then
      Outcome(s.(master := AfterClose(s.master, env)), s.observedRevision,
              FailureReports(desired.routes, "SSH ControlMaster state is unknown"),
              s.active.Keys - Ids(desired.routes), "error", true)
    else
      var looped := HandleAll(Start(AfterCheck(s, env)), desired.routes, env);
      var p := Swept(looped, env);
      var revision := if p.cancelFailed then s.observedRevision else desired.revision;
      Outcome(p.s.(observedRevision := revision), revision, p.reports,
              FailedStaleIds(BeforeSweep(looped, env), env), "disabled", p.cancelFailed)
  }

  /** The trailing reports: exactly one error report for each ID. */
  predicate ErrorReportsFor(reports: seq<RouteReport>, ids: set<string>, local: string) {
    && (forall i :: 0 <= i < |reports| ==>
          reports[i].routeId in ids && reports[i].localStatus == local && reports[i].tunnelStatus == "error")
    && (forall id :: id in ids ==> exists i :: 0 <= i < |reports| && reports[i].routeId == id)
    && |reports| == |ids|
  }

  predicate Reported(observed: Observed, o: Outcome) {
    && observed.revision == o.revision
    && |o.reports| <= |observed.routes| && observed.routes[..|o.reports|] == o.reports
    && ErrorReportsFor(observed.routes[|o.reports|..], o.lastIds, o.lastLocal)
  }

  // ---- The pass as the agent runs it ----

  class Runner {
    var master: Master

    constructor ()
      ensures master == DEAD
    {
      master := DEAD;
    }

    method Die()
      modifies this
      ensures master == DEAD
    {
      master := DEAD;
    }

    method CheckMaster(env: PassEnv) returns (ok: bool)
      ensures ok == (env.checkOk && master.alive)
    {
      ok := env.checkOk && master.alive;
    }

    method Close(env: PassEnv) returns (ok: bool)
      modifies this
      ensures ok == env.closeOk && master == AfterClose(old(master), env)
    {
      ok := env.closeOk;
      if env.closeOk || env.closeKills { master := DEAD; }
    }

    method EnsureMaster(id: string, env: PassEnv) returns (ok: bool)
      modifies this
      ensures ok == (id in env.ensureOk)
      ensures master == AfterEnsure(old(master), id, env)
    {
      ok := id in env.ensureOk;
      if ok {
        master := Master(true, {});
      } else if id in env.ensureKills {
        master := DEAD;
      }
    }

    method AddForward(id: string, forward: Forward, env: PassEnv) returns (ok: bool)
      modifies this
      ensures ok == (id in env.forwardOk && old(master).alive)
      ensures master == if ok then old(master).(live := old(master).live + {forward}) else old(master)
    {
      ok := id in env.forwardOk && master.alive;
      if ok { master := master.(live := master.live + {forward}); }
    }

    method Cancel(id: string, forward: Forward, env: PassEnv) returns (ok: bool)
      modifies this
      ensures ok == (id in env.cancelOk && old(master).alive)
      ensures master == if ok then old(master).(live := old(master).live - {forward}) else old(master)
    {
      ok := id in env.cancelOk && master.alive;
      if ok { master := master.(live := master.live - {forward}); }
    }
  }

  class Reconciler {
    const bindHost: string
    const runner: Runner
    var active: map<string, Forward>
    var relays: map<string, Relay>
    var masterReady: bool
    var observedRevision: int

    constructor (runner: Runner, bindHost: string, masterReady: bool)
      ensures this.runner == runner && this.bindHost == bindHost
      ensures Current() == State(bindHost, map[], map[], masterReady, 0, runner.master)
    {
      this.runner := runner;
      this.bindHost := bindHost;
      this.masterReady := masterReady;
      active, relays, observedRevision := map[], map[], 0;
    }

    ghost function Current(): State
      reads this, runner
    {
      State(bindHost, active, relays, masterReady, observedRevision, runner.master)
    }

    method CancelRoute(id: string, env: PassEnv) returns (ok: bool)
      modifies this`active, runner
      ensures ok == CancelSucceeds(old(Current()), id, env)
      ensures active == if ok then old(active) - {id} else old(active)
      ensures runner.master == if ok && id in old(active)
        then old(runner.master).(live := old(runner.master).live - {old(active)[id]}) else old(runner.master)
    {
      if id !in active { return true; }
      ok := runner.Cancel(id, active[id], env);
      if ok { active := active - {id}; }
    }

    /** Cancel the route's forward and report the given state, or an error of the cancel. */
    method CancelWithReport(id: string, env: PassEnv, local: string, tunnel: string, error: string, ghost p: Pass)
      returns (report: RouteReport, failed: bool)
      requires p.s == Current()
      modifies this`active, runner
      ensures CancelAndReport(p, id, env, local, tunnel, error)
           == Pass(Current(), p.seen, p.cancelFailed || failed, p.reports + [report])
    {
      var ok := CancelRoute(id, env);
      if ok {
        return RouteReport(id, local, tunnel, error), false;
      }
      return RouteReport(id, local, "error", if error == "" then "cancel failed" else error + "; cancel failed"), true;
    }

    method EstablishForward(id: string, forward: Forward, env: PassEnv, ghost p: Pass)
      returns (report: RouteReport, failed: bool)
      requires p.s == Current()
      modifies this`active, this`masterReady, runner
      ensures Establish(p, id, forward, env)
           == Pass(Current(), p.seen, p.cancelFailed || failed, p.reports + [report])
    {
      if id in active && active[id] == forward {
        return RouteReport(id, "up", "up", ""), false;
      }
      var cancelled := CancelRoute(id, env);
      if !cancelled {
        return RouteReport(id, "up", "error", "cancel failed"), true;
      }
      if !masterReady {
        var ensured := runner.EnsureMaster(id, env);
        if !ensured {
          return RouteReport(id, "up", "error", "ensure SSH master"), false;
        }
        masterReady := true;
      }
      var forwarded := runner.AddForward(id, forward, env);
      if !forwarded {
        return RouteReport(id, "up", "error", "forward failed"), false;
      }
      active := active[id := forward];
      return RouteReport(id, "up", "up", ""), false;
    }

    method EnsureRelay(r: Route, env: PassEnv) returns (relay: Option<Relay>)
      modifies this`relays
      ensures relay == RelayFor(old(relays), r, env.relayPorts)
      ensures relays == WithRelay(old(relays), r, env.relayPorts)
    {
      if r.id in relays {
        if relays[r.id].host == r.localHost && relays[r.id].targetPort == r.localPort {
          assert relays[r.id := relays[r.id]] == relays;
          return Some(relays[r.id]);
        }
        relays := relays - {r.id};
      }
      if r.id !in env.relayPorts {
        return None;
      }
      var relayed := Relay(r.localHost, r.localPort, env.relayPorts[r.id]);
      relays := relays[r.id := relayed];
      return Some(relayed);
    }

    /** One iteration of the route loop, for an ID not seen before. */
    method HandleRoute(route: Route, env: PassEnv, ghost p: Pass) returns (report: RouteReport, failed: bool)
      requires p.s == Current() && route.id != "" && route.id !in p.seen
      modifies this`active, this`masterReady, this`relays, runner
      ensures HandledNow(p, route, env)
           == Pass(Current(), p.seen + {route.id}, p.cancelFailed || failed, p.reports + [report])
    {
      hide Validate;
      ghost var q := p.(seen := p.seen + {route.id});
      if !route.enabled {
        report, failed := CancelWithReport(route.id, env, "disabled", "disabled", "", q);
        return;
      }
      var checked := Validate(route);
      if checked.Err? {
        report, failed := CancelWithReport(route.id, env, "error", "error", checked.error, q);
        return;
      }
      var r := checked.value;
      if r.remotePort < 1 || r.remotePort > 65535 {
        report, failed :=
          CancelWithReport(route.id, env, "error", "error", "remote port must be between 1 and 65535", q);
        return;
      }
      if r.protocol.UDP? {
        ValidateKeeps(route);
        var relay := EnsureRelay(r, env);
        q := q.(s := Current());
        if relay.None? {
          report, failed := CancelWithReport(route.id, env, "error", "error", "listen UDP relay", q);
          return;
        }
        report, failed := EstablishForward(route.id, ViaRelay(bindHost, r, relay.value), env, q);
        return;
      }
      if route.id !in env.healthy {
        report, failed := CancelWithReport(route.id, env, "down", "down", "connect to local service", q);
        return;
      }
      report, failed := EstablishForward(route.id, Direct(bindHost, r), env, q);
    }

    /** The master check at the start of a pass; false when the master's state stays unknown. */
    method CheckMaster(env: PassEnv) returns (known: bool)
      modifies this`active, this`masterReady, runner
      ensures known == !MasterUnknown(old(Current()), env)
      ensures known ==> Current() == AfterCheck(old(Current()), env)
      ensures !known ==> Current() == old(Current()).(master := AfterClose(old(runner.master), env))
    {
      if masterReady {
        var running := runner.CheckMaster(env);
        if !running {
          var closed := runner.Close(env);
          if !closed { return false; }
          masterReady := false;
          active := map[];
        }
      }
      return true;
    }

    method ReportFailure(routes: seq<Route>, message: string) returns (reports: seq<RouteReport>)
      ensures |FailureReports(routes, message)| <= |reports|
      ensures reports[..|FailureReports(routes, message)|] == FailureReports(routes, message)
      ensures ErrorReportsFor(reports[|FailureReports(routes, message)|..], active.Keys - Ids(routes), "error")
    {
      reports := [];
      var seen: set<string> := {};
      for i := 0 to |routes|
        invariant seen == Ids(routes[..i])
        invariant reports == FailureReports(routes[..i], message)
      {
        assert routes[..i + 1][..i] == routes[..i];
        var id := routes[i].id;
        if id != "" && id !in seen {
          seen := seen + {id};
          reports := reports + [RouteReport(id, "error", "error", message)];
        }
      }
      assert routes[..|routes|] == routes;
      var rest := active.Keys - seen;
      var tail := ListErrors(rest, "error", message);
      assert (reports + tail)[|reports|..] == tail;
      reports := reports + tail;
    }

    /** One pass over the desired state. */
    method Reconcile(desired: Desired, env: PassEnv) returns (observed: Observed)
      modifies this, runner
      ensures Current() == ReconcilePass(old(Current()), desired, env).s
      ensures Reported(observed, ReconcilePass(old(Current()), desired, env))
    {
      hide HandledNow, Reported;
      ghost var before := Current();
      var known := CheckMaster(env);
      if !known {
        var failures := ReportFailure(desired.routes, "SSH ControlMaster state is unknown");
        observed := Observed(observedRevision, failures);
        ReportedByParts(observed, ReconcilePass(before, desired, env));
        return;
      }
      var seen: set<string>, cancelFailed, reports := {}, false, [];
      ghost var start := Start(Current());
      for i := 0 to |desired.routes|
        invariant observedRevision == before.observedRevision
        invariant HandleAll(start, desired.routes[..i], env) == Pass(Current(), seen, cancelFailed, reports)
      {
        var route := desired.routes[i];
        ghost var p := Pass(Current(), seen, cancelFailed, reports);
        assert desired.routes[..i + 1][..i] == desired.routes[..i];
        if route.id in env.dies { runner.Die(); }
        assert Handled(p, route, env) == HandledNow(Pass(Current(), seen, cancelFailed, reports), route, env);
        if route.id == "" || route.id in seen {
          HandledDuplicate(Pass(Current(), seen, cancelFailed, reports), route, env);
          reports := reports + [RouteReport(route.id, "error", "error", "route ID is required and must be unique")];
        } else {
          var report, failed := HandleRoute(route, env, Pass(Current(), seen, cancelFailed, reports));
          seen := seen + {route.id};
          cancelFailed := cancelFailed || failed;
          reports := reports + [report];
        }
      }
      assert desired.routes[..|desired.routes|] == desired.routes;
      ghost var looped := Pass(Current(), seen, cancelFailed, reports);
      var tail, sweepFailed := Sweep(seen, env, looped);
      cancelFailed := cancelFailed || sweepFailed;
      observed := Observed(observedRevision, reports + tail);
      if !cancelFailed {
        observedRevision := desired.revision;
        observed := observed.(revision := desired.revision);
      }
      assert (reports + tail)[..|reports|] == reports && (reports + tail)[|reports|..] == tail;
      ReportedByParts(observed, ReconcilePass(before, desired, env));
    }

    /** Cancel the forwards and close the relays of routes the desired state no longer names. */
    method Sweep(seen: set<string>, env: PassEnv, ghost p: Pass) returns (tail: seq<RouteReport>, failed: bool)
      requires p.s == Current() && p.seen == seen
      modifies this`active, this`relays, runner
      ensures Swept(p, env) == p.(s := Current(), cancelFailed := p.cancelFailed || failed)
      ensures ErrorReportsFor(tail, FailedStaleIds(BeforeSweep(p, env), env), "disabled")
    {
      hide ErrorReportsFor, ForwardsOf;
      if env.diesLast { runner.Die(); }
      ghost var q := BeforeSweep(p, env);
      var failures := CancelStale(seen, env, q);
      relays := relays - (relays.Keys - seen);
      tail := ListErrors(failures, "disabled", "cancel failed");
      failed := failures != {};
    }

    method CancelStale(seen: set<string>, env: PassEnv, ghost q: Pass) returns (failures: set<string>)
      requires q.s == Current() && q.seen == seen
      modifies this`active, runner
      ensures failures == FailedStaleIds(q, env)
      ensures active == q.s.active - (StaleIds(q) - failures)
      ensures runner.master == q.s.master.(live := q.s.master.live - ForwardsOf(q.s.active, StaleIds(q) - failures))
    {
      hide ForwardsOf;
      failures := {};
      var pending := active.Keys - seen;
      ghost var cancelled: set<string> := {};
      NoForwards(q.s.active);
      while pending != {}
        invariant pending <= StaleIds(q)
        invariant failures == set id | id in StaleIds(q) - pending && !CancelSucceeds(q.s, id, env)
        invariant cancelled == StaleIds(q) - pending - failures
        invariant active == q.s.active - cancelled
        invariant runner.master == q.s.master.(live := q.s.master.live - ForwardsOf(q.s.active, cancelled))
        decreases pending
      {
        var id :| id in pending;
        var ok := CancelRoute(id, env);
        if ok {
          OneMoreForward(q.s.active, cancelled, id);
          assert active == q.s.active - (cancelled + {id});
          cancelled := cancelled + {id};
        } else {
          failures := failures + {id};
        }
        pending := pending - {id};
      }
      assert cancelled == StaleIds(q) - failures;
    }
  }

  lemma NoForwards(active: map<string, Forward>)
    ensures ForwardsOf(active, {}) == {}
  {}

  lemma OneMoreForward(active: map<string, Forward>, ids: set<string>, id: string)
    requires id in active
    ensures ForwardsOf(active, ids + {id}) == ForwardsOf(active, ids) + {active[id]}
  {}

  /** One error report for each ID of a set, in some order. */
  method ListErrors(ids: set<string>, local: string, error: string) returns (reports: seq<RouteReport>)
    ensures ErrorReportsFor(reports, ids, local)
  {
    hide ErrorReportsFor;
    reports := [];
    var pending := ids;
    assert ErrorReportsFor(reports, ids - pending, local) by { NoErrors(ids, local); }
    while pending != {}
      invariant pending <= ids
      invariant ErrorReportsFor(reports, ids - pending, local)
      decreases pending
    {
      var id :| id in pending;
      OneMoreError(reports, ids - pending, local, id, error);
      assert ids - (pending - {id}) == (ids - pending) + {id};
      reports := reports + [RouteReport(id, local, "error", error)];
      pending := pending - {id};
    }
    assert ids - pending == ids;
  }

  lemma NoErrors(ids: set<string>, local: string)
    ensures ErrorReportsFor([], ids - ids, local)
  {}

  lemma OneMoreError(reports: seq<RouteReport>, ids: set<string>, local: string, id: string, error: string)
    requires ErrorReportsFor(reports, ids, local) && id !in ids
    ensures ErrorReportsFor(reports + [RouteReport(id, local, "error", error)], ids + {id}, local)
  {
    var longer := reports + [RouteReport(id, local, "error", error)];
    forall x | x in ids + {id} ensures exists i :: 0 <= i < |longer| && longer[i].routeId == x {
      if x == id {
        assert longer[|reports|].routeId == x;
      } else {
        var i :| 0 <= i < |reports| && reports[i].routeId == x;
        assert longer[i].routeId == x;
      }
    }
  }

  lemma ReportedByParts(observed: Observed, o: Outcome)
    requires observed.revision == o.revision
    requires |o.reports| <= |observed.routes| && observed.routes[..|o.reports|] == o.reports
    requires ErrorReportsFor(observed.routes[|o.reports|..], o.lastIds, o.lastLocal)
    ensures Reported(observed, o)
  {}

  lemma HandledDuplicate(p: Pass, route: Route, env: PassEnv)
    requires route.id == "" || route.id in p.seen
    ensures HandledNow(p, route, env)
         == p.Report(route.id, "error", "error", "route ID is required and must be unique")
  {}
}
