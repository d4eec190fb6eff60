/** Convergence is reached: from any reachable state one undisturbed round of a running agent makes all its
    routes converge. */
module ConvergenceProgress {
  import opened Results
  import opened Routes
  import opened RouteStore
  import opened StoreInvariants
  import opened StoreRuns
  import opened Convergence
  import R = Reconciler
  import P = ReconcilerProperties
  import O = ReconcilerOutcome
  import T = ReconcilerTracking
  import Y = Syncer
  import ConvergenceProof

  // ---- What a pass reports ----

  ghost predicate DistinctIds(routes: seq<Route>) {
    && (forall i :: 0 <= i < |routes| ==> routes[i].id != "")
    && (forall i, j :: 0 <= i < j < |routes| ==> routes[i].id != routes[j].id)
  }

  /** The calls for this route succeed, and its relay gets a port if it needs one. */
  predicate Favours(env: R.PassEnv, route: Route) {
    && route.id in env.forwardOk && route.id in env.ensureOk && O.Answers(route, env)
    && (route.protocol.UDP? ==> route.id in env.relayPorts)
  }

  lemma FirstOfDistinct(routes: seq<Route>, i: nat)
    requires DistinctIds(routes) && i < |routes|
    ensures O.IsFirst(routes, i)
  {
    forall r | r in routes[..i] ensures r.id != routes[i].id {
      var j :| 0 <= j < i && routes[..i][j] == r;
      assert routes[j] == r;
    }
  }

  /** Among routes that fail in whatever way, one that asks for a forward and is favoured is reported up. */
  lemma FavouredIsUp(s0: R.State, routes: seq<Route>, i: nat, env: R.PassEnv, r: R.RouteReport)
    requires i < |routes| && DistinctIds(routes) && O.ReportTells(s0, routes, i, env, r)
    requires routes[i].enabled && P.WantedBy(s0, routes[i], env.relayPorts).Some? && Favours(env, routes[i])
    requires O.CancelsGranted(s0, env)
    ensures r.tunnelStatus == "up"
  {
    hide P.WantedBy, O.Kept, R.Ids;
    FirstOfDistinct(routes, i);
  }

  // ---- A fetch of the present state is accepted ----

  ghost predicate Increasing(x: seq<string>, key: map<string, int>) {
    && (forall id :: id in x ==> id in key)
    && (forall i, j :: 0 <= i < j < |x| ==> key[x[i]] < key[x[j]])
  }

  lemma LastIsGreatest(x: seq<string>, key: map<string, int>, id: string)
    requires Increasing(x, key) && id in x
    ensures x != [] && key[id] <= key[x[|x| - 1]] && (key[id] == key[x[|x| - 1]] ==> id == x[|x| - 1])
  {
    var i :| 0 <= i < |x| && x[i] == id;
  }

  lemma WithoutLast(x: seq<string>, key: map<string, int>) returns (shorter: seq<string>, last: string)
    requires Increasing(x, key) && x != []
    ensures x == shorter + [last] && last == x[|x| - 1] && |shorter| < |x| && Increasing(shorter, key)
    ensures forall id :: id in shorter <==> id in x && id != last
  {
    shorter, last := x[..|x| - 1], x[|x| - 1];
    assert x == shorter + [last];
    assert forall i :: 0 <= i < |shorter| ==> key[x[i]] < key[last];
  }

  lemma HasFirst(x: seq<string>)
    ensures x != [] ==> exists id :: id in x
  {
    if x != [] { assert x[0] in x; }
  }

  /** Two lists of the same strings by strictly increasing keys are the same list. */
  lemma {:induction false} SortedOnce(x: seq<string>, y: seq<string>, key: map<string, int>)
    requires Increasing(x, key) && Increasing(y, key) && forall id :: id in x <==> id in y
    ensures x == y
    decreases |x|
  {
    if x == [] {
      HasFirst(y);
    } else {
      assert x[0] in y && x[|x| - 1] in x && y[|y| - 1] in y;
      LastIsGreatest(y, key, x[|x| - 1]);
      LastIsGreatest(x, key, y[|y| - 1]);
      var x', last := WithoutLast(x, key);
      var y', last' := WithoutLast(y, key);
      hide Increasing;
      assert last == last';
      SortedOnce(x', y', key);
    }
  }

  function IdsOf(routes: seq<Route>): (ids: seq<string>)
    ensures |ids| == |routes| && forall i :: 0 <= i < |ids| ==> ids[i] == routes[i].id
  {
    seq(|routes|, i requires 0 <= i < |routes| => routes[i].id)
  }

  lemma ShownPort(routes: seq<Route>, config: Config, i: nat)
    requires Shows(routes, config) && i < |routes|
    ensures routes[i].id in config && config[routes[i].id].remotePort == routes[i].remotePort
    ensures Y.NormalizedRoute(routes[i]) == config[routes[i].id]
  {
    hide Canonical;
  }

  function Ports(config: Config): map<string, int> {
    map id | id in config :: config[id].remotePort
  }

  lemma ShownIncrease(routes: seq<Route>, config: Config)
    requires Shows(routes, config)
    ensures Increasing(IdsOf(routes), Ports(config))
  {
    hide Canonical, SameSince, Y.NormalizedRoute;
    forall i | 0 <= i < |routes| ensures routes[i].id in config && Ports(config)[routes[i].id] == routes[i].remotePort {
      ShownPort(routes, config, i);
    }
  }

  /** All answers that show one configuration carry the same content. */
  lemma OneContent(x: seq<Route>, y: seq<Route>, config: Config)
    requires Shows(x, config) && Shows(y, config)
    ensures Y.NormalizedRoutes(x) == Y.NormalizedRoutes(y)
  {
    hide Shows, Y.NormalizedRoute, Increasing, Ports;
    ShownIncrease(x, config);
    ShownIncrease(y, config);
    SameIds(x, y, config);
    SortedOnce(IdsOf(x), IdsOf(y), Ports(config));
    forall i | 0 <= i < |x| ensures Y.NormalizedRoute(x[i]) == Y.NormalizedRoute(y[i]) {
      assert IdsOf(x)[i] == IdsOf(y)[i];
      ShownPort(x, config, i);
      ShownPort(y, config, i);
    }
  }

  lemma SameIds(x: seq<Route>, y: seq<Route>, config: Config)
    requires Shows(x, config) && Shows(y, config)
    ensures forall id :: id in IdsOf(x) <==> id in IdsOf(y)
  {
    hide Canonical;
    CoversIds(x, config);
    CoversIds(y, config);
  }

  lemma CoversIds(x: seq<Route>, config: Config)
    requires Shows(x, config)
    ensures forall id :: id in IdsOf(x) <==> id in config
  {
    hide Canonical, Y.NormalizedRoute;
    forall id | id in config ensures id in IdsOf(x) {
      var i :| 0 <= i < |x| && x[i].id == id;
      assert IdsOf(x)[i] == id;
    }
  }

  /** Whatever a process has accepted before, from torn fetches too, it accepts a fetch of the present state. */
  lemma PresentIsAccepted(s: System, options: Options, process: string, order: seq<string>)
    requires Inv(s, options) && process in s.processes
    requires s.processes[process].agentId in s.tables.agents && IsListing(s.tables, s.processes[process].agentId, order)
    ensures Y.Accepts(s.processes[process].memory, Fetched(s.tables, s.processes[process].agentId, order))
  {
    hide TablesOk, HistoryComplete, RowsStable, ReportsBacked, UpRowsServed, Shows, IsListing, Y.NormalizedRoutes, ConfigOf;
    var p := s.processes[process];
    ConvergenceProof.HistoryLength(s, p.agentId, options);
    if p.memory.accepted.Some? {
      var d :| Accepted(s, p, d);
      var rho :| ShowsRevision(s, p.agentId, d, rho);
      ConvergenceProof.ListedShows(s.tables, options, p.agentId, order);
      if d.revision == s.tables.agents[p.agentId].desiredRevision {
        OneContent(d.routes, Fetched(s.tables, p.agentId, order).routes, ConfigOf(s.tables, p.agentId));
      }
    }
  }

  // ---- One round ----

  function Fetched(t: Tables, agentId: string, order: seq<string>): R.Desired
    requires agentId in t.agents && IsListing(t, agentId, order)
  {
    R.Desired(t.agents[agentId].desiredRevision, Listed(t, order))
  }

  /** The running process can be asked for a round, with the listing that the database gives. */
  ghost predicate CanRun(s: System, process: string, order: seq<string>) {
    && process in s.processes && s.processes[process].agentId in s.tables.agents
    && IsListing(s.tables, s.processes[process].agentId, order)
  }

  /** The pass of a round. */
  function RoundPass(s: System, process: string, order: seq<string>, env: R.PassEnv): R.Outcome
    requires CanRun(s, process, order)
  {
    R.ReconcilePass(s.processes[process].rec, Fetched(s.tables, s.processes[process].agentId, order), env)
  }

  function RoundReport(s: System, process: string, order: seq<string>, env: R.PassEnv): Report
    requires CanRun(s, process, order)
  {
    var o := RoundPass(s, process, order, env);
    Report(s.processes[process].agentId, R.Observed(o.revision, o.reports))
  }

  /** A fetch that nothing interrupts, a pass of the running process over it, and its report delivered. */
  function Round(s: System, process: string, order: seq<string>, ttl: int, env: R.PassEnv, now: int): seq<Action>
    requires CanRun(s, process, order)
  {
    var agentId := s.processes[process].agentId;
    [ReadRevision(agentId),
     ReadRoutes(RevisionRead(agentId, s.tables.agents[agentId].desiredRevision), order),
     Synchronize(process, ttl, Y.Event(Y.Fetched(Fetched(s.tables, agentId, order)), false, now), env, []),
     Deliver(RoundReport(s, process, order, env), now)]
  }

  /** Every call succeeds, for the listed routes and for those recorded, and every relay gets a port. */
  predicate Undisturbed(env: R.PassEnv, rec: R.State, order: seq<string>) {
    T.Grants(env, (set id | id in order) + rec.active.Keys) && forall id :: id in order ==> id in env.relayPorts
  }

  /** From any record: unless a cancel is refused, a pass takes the fetched revision and reports on each route once, in
      order, and up if it is enabled and favoured. */
  lemma PassReportsUp(t: Tables, options: Options, agentId: string, order: seq<string>, rec: R.State, env: R.PassEnv)
    requires TablesOk(t, options) && options.Valid() && agentId in t.agents && IsListing(t, agentId, order)
    requires P.ReadyOrIdle(rec) && O.CancelsGranted(rec, env)
    ensures var o := R.ReconcilePass(rec, Fetched(t, agentId, order), env);
      && o.revision == t.agents[agentId].desiredRevision && o.lastIds == {}
      && |o.reports| == |order|
      && forall i :: 0 <= i < |order| ==>
           && o.reports[i].routeId == order[i]
           && (t.routes[order[i]].enabled && Favours(env, t.routes[order[i]]) ==> o.reports[i].tunnelStatus == "up")
  {
    hide TablesOk, R.ReconcilePass, P.WantedBy, R.Ids, O.ReportTells, Favours, R.AfterCheck;
    var desired, s0 := Fetched(t, agentId, order), R.AfterCheck(rec, env);
    ListedIds(t, options, agentId, order);
    O.FailuresTakeTheRevision(rec, desired, env);
    O.CheckForgets(rec, env);
    O.PassTells(rec, desired, env);
    var o := R.ReconcilePass(rec, desired, env);
    forall i | 0 <= i < |order|
      ensures o.reports[i].routeId == order[i]
      ensures t.routes[order[i]].enabled && Favours(env, t.routes[order[i]]) ==> o.reports[i].tunnelStatus == "up"
    {
      assert O.ReportTells(s0, desired.routes, i, env, o.reports[i]);
      ToldOf(s0, desired.routes, i, env, o.reports[i]);
      if t.routes[order[i]].enabled && Favours(env, t.routes[order[i]]) {
        EnabledIsWanted(t, options, s0, order[i], env.relayPorts) by { FavoursPort(env, t.routes[order[i]]); }
        FavoursJoined(env, t, order[i]);
        FavouredIsUp(s0, desired.routes, i, env, o.reports[i]);
      }
    }
  }

  lemma ToldOf(s0: R.State, routes: seq<Route>, i: nat, env: R.PassEnv, r: R.RouteReport)
    requires i < |routes| && O.ReportTells(s0, routes, i, env, r)
    ensures r.routeId == routes[i].id
  {}

  lemma FavoursPort(env: R.PassEnv, route: Route)
    requires Favours(env, route)
    ensures route.protocol.UDP? ==> route.id in env.relayPorts
  {}

  lemma FavoursJoined(env: R.PassEnv, t: Tables, id: string)
    requires id in t.routes && Favours(env, t.routes[id])
    ensures Favours(env, Joined(t, id))
  {}

  lemma UndisturbedFavours(env: R.PassEnv, rec: R.State, order: seq<string>)
    requires Undisturbed(env, rec, order)
    ensures O.CancelsGranted(rec, env)
    ensures forall r: Route :: r.id in order ==> Favours(env, r)
  {}

  lemma ListedIds(t: Tables, options: Options, agentId: string, order: seq<string>)
    requires TablesOk(t, options) && IsListing(t, agentId, order)
    ensures DistinctIds(Listed(t, order)) && R.Ids(Listed(t, order)) == set id | id in order
    ensures forall i :: 0 <= i < |order| ==> Listed(t, order)[i].id == order[i] == t.routes[order[i]].id
  {
    hide RevisionsBounded, EndpointsDistinct, RemotePortsDistinct, Canonical;
    var routes := Listed(t, order);
    forall id | id in order ensures id in R.Ids(routes) {
      var i :| 0 <= i < |order| && order[i] == id;
      assert routes[i] in routes;
    }
  }

  lemma RowFacts(t: Tables, options: Options, id: string)
    requires TablesOk(t, options) && options.Valid() && id in t.routes
    ensures Canonical(t.routes[id]) && ValidPort(t.routes[id].remotePort)
  {
    hide RevisionsBounded, EndpointsDistinct, Canonical;
  }

  lemma EnabledIsWanted(t: Tables, options: Options, s0: R.State, id: string, ports: map<string, int>)
    requires TablesOk(t, options) && options.Valid() && id in t.routes && t.routes[id].enabled
    requires t.routes[id].id == id && (t.routes[id].protocol.UDP? ==> id in ports)
    ensures P.WantedBy(s0, Joined(t, id), ports).Some?
  {
    hide TablesOk, Validate;
    RowFacts(t, options, id);
    CanonicalIgnoresRowState(t.routes[id], Joined(t, id));
  }

  function From(s: System, options: Options, actions: seq<Action>): System {
    if actions == [] then s
    else Next(From(s, options, actions[..|actions| - 1]), options, actions[|actions| - 1])
  }

  lemma {:induction false} AfterIsFrom(options: Options, actions: seq<Action>, more: seq<Action>)
    ensures SystemAfter(options, actions + more) == From(SystemAfter(options, actions), options, more)
  {
    hide Next;
    if more == [] {
      assert actions + more == actions;
    } else {
      var all := actions + more;
      assert all[..|all| - 1] == actions + more[..|more| - 1] && all[|all| - 1] == more[|more| - 1];
      AfterIsFrom(options, actions, more[..|more| - 1]);
    }
  }

  lemma FourSteps(s: System, options: Options, a: Action, b: Action, c: Action, d: Action)
    ensures From(s, options, [a, b, c, d]) == Next(Next(Next(Next(s, options, a), options, b), options, c), options, d)
  {
    hide Next;
    assert [a, b, c, d][..3] == [a, b, c];
    assert [a, b, c][..2] == [a, b];
    assert [a, b][..1] == [a];
    assert [a][..0] == [];
    assert From(s, options, [a]) == Next(s, options, a);
    assert From(s, options, [a, b]) == Next(Next(s, options, a), options, b);
  }

  /** The round leaves the process with the state of its pass and delivers exactly the report of that pass. */
  lemma RoundDelivers(s: System, options: Options, process: string, order: seq<string>, ttl: int, env: R.PassEnv, now: int)
    requires Inv(s, options) && CanRun(s, process, order) && RoundPass(s, process, order, env).lastIds == {}
    ensures var r := RoundReport(s, process, order, env);
      var later := From(s, options, Round(s, process, order, ttl, env, now));
      && later.tables == Heartbeat(s.tables, r.agentId, r.observed.revision, Observations(r.observed), now).0
      && later.processes.Keys == s.processes.Keys && later.processes[process].agentId == s.processes[process].agentId
      && later.processes[process].rec == RoundPass(s, process, order, env).s
      && later.passes == s.passes + [PassRecord(s.processes[process].agentId, RoundPass(s, process, order, env).s)]
  {
    hide IsListing, R.ReconcilePass, Heartbeat, Listed, From, Inv, Y.Accepts;
    var p, t := s.processes[process], s.tables;
    var read, desired := RevisionRead(p.agentId, t.agents[p.agentId].desiredRevision), Fetched(t, p.agentId, order);
    var a, b := ReadRevision(p.agentId), ReadRoutes(read, order);
    var c := Synchronize(process, ttl, Y.Event(Y.Fetched(desired), false, now), env, []);
    var d := Deliver(RoundReport(s, process, order, env), now);
    FourSteps(s, options, a, b, c, d);
    PresentIsAccepted(s, options, process, order);
    var s1 := Next(s, options, a);
    var s2 := Next(s1, options, b);
    assert Response(p.agentId, desired) in s2.responses && s2 == s.(pending := s2.pending, responses := s2.responses);
    AcceptedIsHanded(p.memory, ttl, desired, now);
    var o := R.ReconcilePass(p.rec, desired, env);
    assert R.ErrorReportsFor([], o.lastIds, o.lastLocal);
    assert o.reports + [] == o.reports;
    hide R.ErrorReportsFor;
    var s3 := Next(s2, options, c);
    assert d.report in s3.reports && s3.tables == t;
  }

  lemma AcceptedIsHanded(m: Y.Memory, ttl: int, desired: R.Desired, now: int)
    requires Y.Accepts(m, desired)
    ensures Y.Step(m, ttl, Y.Event(Y.Fetched(desired), false, now)).1 == Some(Y.Handed(desired, false, now, now))
  {}

  /** A delivered report at the present revision that calls a route up makes it converge, ready to be published. */
  lemma DeliveredConverges(t: Tables, options: Options, agentId: string, order: seq<string>, r: Report, now: int, i: nat)
    requires TablesOk(t, options) && agentId in t.agents && IsListing(t, agentId, order) && i < |order|
    requires r.observed.revision == t.agents[agentId].desiredRevision && |r.observed.routes| == |order|
    requires forall k :: 0 <= k < |order| ==> r.observed.routes[k].routeId == order[k]
    requires r.observed.routes[i].tunnelStatus == "up" && t.routes[order[i]].enabled
    ensures var later := Heartbeat(t, agentId, r.observed.revision, Observations(r.observed), now).0;
      && order[i] in later.routes && Converged(later.routes[order[i]])
      && PublicationReadyAt(Joined(later, order[i]), now)
  {
    hide RowsWellFormed, EndpointsDistinct, RemotePortsDistinct, ObserveAll;
    var os := Observations(r.observed);
    forall j, k | 0 <= j < k < |os| ensures os[j].routeId != os[k].routeId {
      assert t.routes[order[j]].remotePort < t.routes[order[k]].remotePort;
    }
    NamedIsObserved(t.routes, agentId, os, now, i);
  }

  /** From any reachable state, with any running process and whatever it has accepted, recorded or lost before: a round
      in which no cancel is refused leaves an enabled route whose own calls succeed converged at its present revision and
      ready to be published, whatever becomes of all other routes. */
  lemma RouteConverges(options: Options, actions: seq<Action>, process: string, order: seq<string>, ttl: int,
                       env: R.PassEnv, now: int, id: string)
    requires var s := SystemAfter(options, actions);
      && options.Valid() && CanRun(s, process, order) && O.CancelsGranted(s.processes[process].rec, env)
      && id in order && s.tables.routes[id].enabled && Favours(env, s.tables.routes[id])
    ensures var s := SystemAfter(options, actions);
      var later := SystemAfter(options, actions + Round(s, process, order, ttl, env, now)).tables;
      id in later.routes && Converged(later.routes[id]) && PublicationReadyAt(Joined(later, id), now)
  {
    hide SystemAfter, O.CancelsGranted, Favours, R.ReconcilePass, Heartbeat, Round, From, Converged, PublicationReadyAt, Inv;
    var s := SystemAfter(options, actions);
    ConvergenceProof.RunKeeps(options, actions);
    RoundOutcome(s, options, process, order, env);
    hide IsListing;
    RoundDelivers(s, options, process, order, ttl, env, now);
    AfterIsFrom(options, actions, Round(s, process, order, ttl, env, now));
    var i :| 0 <= i < |order| && order[i] == id;
    DeliveredConverges(s.tables, options, s.processes[process].agentId, order, RoundReport(s, process, order, env), now, i);
  }

  /** So an undisturbed round leaves all enabled routes converged and ready to be published. */
  lemma RoundConverges(options: Options, actions: seq<Action>, process: string, order: seq<string>, ttl: int,
                       env: R.PassEnv, now: int, id: string)
    requires var s := SystemAfter(options, actions);
      && options.Valid() && CanRun(s, process, order) && Undisturbed(env, s.processes[process].rec, order)
      && id in order && s.tables.routes[id].enabled
    ensures var s := SystemAfter(options, actions);
      var later := SystemAfter(options, actions + Round(s, process, order, ttl, env, now)).tables;
      id in later.routes && Converged(later.routes[id]) && PublicationReadyAt(Joined(later, id), now)
  {
    hide SystemAfter, O.CancelsGranted, Favours, Undisturbed, Round, Converged, PublicationReadyAt, Inv;
    var s := SystemAfter(options, actions);
    UndisturbedFavours(env, s.processes[process].rec, order);
    ConvergenceProof.RunKeeps(options, actions);
    InvParts(s, options, process);
    ListedIds(s.tables, options, s.processes[process].agentId, order);
    RouteConverges(options, actions, process, order, ttl, env, now, id);
  }

  lemma ShownDistinct(routes: seq<Route>, config: Config)
    requires Shows(routes, config)
    ensures DistinctIds(routes) && forall i :: 0 <= i < |routes| ==> Canonical(routes[i])
  {
    hide Canonical, SameSince;
    forall i, j | 0 <= i < j < |routes| ensures routes[i].id != routes[j].id {
      ShownPort(routes, config, i);
      ShownPort(routes, config, j);
    }
  }

  lemma CanonicalIsWanted(s0: R.State, route: Route, ports: map<string, int>)
    requires Canonical(route) && route.enabled && ValidPort(route.remotePort)
    requires route.protocol.UDP? ==> route.id in ports
    ensures P.WantedBy(s0, route, ports).Some?
  {
    hide Validate;
  }

  /** What a pass over canonical routes with distinct IDs serves in the end. */
  lemma FavouredIsServed(rec: R.State, desired: R.Desired, env: R.PassEnv, i: nat)
    requires P.ReadyOrIdle(rec) && O.CancelsGranted(rec, env) && DistinctIds(desired.routes) && i < |desired.routes|
    requires var route := desired.routes[i];
      Canonical(route) && route.enabled && ValidPort(route.remotePort) && Favours(env, route)
    ensures P.Serves(R.ReconcilePass(rec, desired, env).s, desired.routes[i])
  {
    hide R.ReconcilePass, P.WantedBy, R.Ids, O.ReportTells, R.AfterCheck, P.FirstRoute, Validate, P.Serves, DistinctIds;
    var s0, routes, o := R.AfterCheck(rec, env), desired.routes, R.ReconcilePass(rec, desired, env);
    O.CheckForgets(rec, env);
    O.PassTells(rec, desired, env);
    assert O.ReportTells(s0, routes, i, env, o.reports[i]);
    CanonicalIsWanted(s0, routes[i], env.relayPorts);
    FavouredIsUp(s0, routes, i, env, o.reports[i]);
    ToldOf(s0, routes, i, env, o.reports[i]);
    P.UpMeansServed(rec, desired, env, i);
    FirstOfDistinct(routes, i);
    O.FirstTurn(routes, i);
    var j := O.FirstIndex(routes, routes[i].id);
    assert O.ComesUp(routes, j, routes[i].id);
  }

  /** While the server cannot be reached, a process goes on repairing: a failed fetch within the time to live of its latest
      one runs a pass over what that fetch showed, which serves every enabled route whose calls succeed, and reports
      nothing. */
  lemma ReplayRepairs(options: Options, actions: seq<Action>, process: string, ttl: int, e: Y.Event, env: R.PassEnv, i: nat)
    requires var s := SystemAfter(options, actions);
      && process in s.processes && O.CancelsGranted(s.processes[process].rec, env)
      && e.fetch == Y.FetchFailed(true) && !e.cancelled && s.processes[process].memory.cached.Some?
      && var cached := s.processes[process].memory.cached.value;
         && Y.Age(e.now, cached.at) <= ttl && i < |cached.desired.routes|
         && cached.desired.routes[i].enabled && ValidPort(cached.desired.routes[i].remotePort)
         && Favours(env, cached.desired.routes[i])
    ensures var s, later := SystemAfter(options, actions), From(SystemAfter(options, actions), options,
                                                                [Synchronize(process, ttl, e, env, [])]);
      var route := s.processes[process].memory.cached.value.desired.routes[i];
      && process in later.processes && P.Serves(later.processes[process].rec, route)
      && later.passes == s.passes + [PassRecord(s.processes[process].agentId, later.processes[process].rec)]
      && later.reports == s.reports && later.tables == s.tables
  {
    hide SystemAfter, Inv, R.ReconcilePass, P.Serves, O.CancelsGranted, Favours, Canonical, Shows;
    var s, a := SystemAfter(options, actions), Synchronize(process, ttl, e, env, []);
    ConvergenceProof.RunKeeps(options, actions);
    assert [a][..0] == [];
    var p := s.processes[process];
    var desired := p.memory.cached.value.desired;
    var config := CachedIsShown(s, options, process);
    ShownDistinct(desired.routes, config);
    InvParts(s, options, process);
    FavouredIsServed(p.rec, desired, env, i);
  }

  lemma CachedIsShown(s: System, options: Options, process: string) returns (config: Config)
    requires Inv(s, options) && process in s.processes && s.processes[process].memory.cached.Some?
    ensures Shows(s.processes[process].memory.cached.value.desired.routes, config)
  {
    hide TablesOk, HistoryComplete, RowsStable, ReportsBacked, UpRowsServed, Shows, Y.Normalized;
    var p := s.processes[process];
    assert ProcessOk(s, p);
    var desired := p.memory.cached.value.desired;
    assert Response(p.agentId, desired) in s.responses;
    var rho :| ShowsRevision(s, p.agentId, desired, rho);
    config := s.history[p.agentId][rho];
  }

  /** What the pass of a round reports. */
  lemma RoundOutcome(s: System, options: Options, process: string, order: seq<string>, env: R.PassEnv)
    requires Inv(s, options) && options.Valid() && CanRun(s, process, order)
    requires O.CancelsGranted(s.processes[process].rec, env)
    ensures TablesOk(s.tables, options)
    ensures var o := RoundPass(s, process, order, env);
      && o.revision == s.tables.agents[s.processes[process].agentId].desiredRevision && o.lastIds == {}
      && |o.reports| == |order|
      && forall i :: 0 <= i < |order| ==>
           && o.reports[i].routeId == order[i]
           && (s.tables.routes[order[i]].enabled && Favours(env, s.tables.routes[order[i]]) ==>
                 o.reports[i].tunnelStatus == "up")
  {
    hide TablesOk, O.CancelsGranted, Favours, R.ReconcilePass;
    InvParts(s, options, process);
    hide Inv, IsListing;
    PassReportsUp(s.tables, options, s.processes[process].agentId, order, s.processes[process].rec, env);
  }

  /** And that of an undisturbed one. */
  lemma UndisturbedOutcome(s: System, options: Options, process: string, order: seq<string>, env: R.PassEnv)
    requires Inv(s, options) && options.Valid() && CanRun(s, process, order)
    requires Undisturbed(env, s.processes[process].rec, order)
    ensures TablesOk(s.tables, options)
    ensures var o := RoundPass(s, process, order, env);
      && o.revision == s.tables.agents[s.processes[process].agentId].desiredRevision && o.lastIds == {}
      && |o.reports| == |order|
      && forall i :: 0 <= i < |order| ==>
           && o.reports[i].routeId == order[i]
           && (s.tables.routes[order[i]].enabled ==> o.reports[i].tunnelStatus == "up")
  {
    hide TablesOk, O.CancelsGranted, Favours, Undisturbed, R.ReconcilePass, Inv;
    UndisturbedFavours(env, s.processes[process].rec, order);
    InvParts(s, options, process);
    ListedIds(s.tables, options, s.processes[process].agentId, order);
    RoundOutcome(s, options, process, order, env);
  }

  lemma InvParts(s: System, options: Options, process: string)
    requires Inv(s, options) && process in s.processes
    ensures TablesOk(s.tables, options) && P.ReadyOrIdle(s.processes[process].rec)
  {
    hide TablesOk, HistoryComplete, RowsStable, ResponsesShowHistory, ReportsBacked, UpRowsServed;
    assert ProcessOk(s, s.processes[process]);
  }

  /** A running process can always be asked: its agent is in the tables. */
  lemma ProcessHasAgent(options: Options, actions: seq<Action>, process: string)
    requires process in SystemAfter(options, actions).processes
    ensures SystemAfter(options, actions).processes[process].agentId in SystemAfter(options, actions).tables.agents
  {
    hide SystemAfter, Inv;
    ConvergenceProof.RunKeeps(options, actions);
    AgentOfProcess(SystemAfter(options, actions), options, process);
  }

  lemma AgentOfProcess(s: System, options: Options, process: string)
    requires Inv(s, options) && process in s.processes
    ensures s.processes[process].agentId in s.tables.agents
  {
    hide TablesOk, HistoryComplete, RowsStable, ResponsesShowHistory, ReportsBacked, UpRowsServed;
    assert ProcessOk(s, s.processes[process]);
  }
}
