/** When a converged route's forward is really held by its agent's SSH master, and a run in which it is not. */
module ConvergenceHeld {
  import opened Results
  import opened Routes
  import opened RouteStore
  import opened StoreInvariants
  import opened Convergence
  import R = Reconciler
  import P = ReconcilerProperties
  import T = ReconcilerTracking
  import A = ReconcilerAgreement
  import Y = Syncer
  import C = ConvergenceProof
  import G = ConvergenceProgress

  /** Pass q served the row, and left the master, if it lived, holding the row's forward. */
  predicate HeldBy(s: System, row: Route, q: int) {
    && ServedBy(s, row, q)
    && (s.passes[q].after.master.alive ==> s.passes[q].after.active[row.id] in s.passes[q].after.master.live)
  }

  // ---- Runs whose records track their masters ----

  /** No route of the list asks for a forward that the living master holds for another route. */
  ghost predicate NoneRecorded(rec: R.State, routes: seq<Route>, ports: map<string, int>) {
    forall a, b :: a != b && rec.master.alive && a in rec.active ==> P.Wanted(rec, routes, ports, b) != Some(rec.active[a])
  }

  /** The list an action hands to a reconciler, if it runs a pass. */
  function HandedBy(s: System, a: Action): (handed: Option<R.Desired>)
    ensures handed.Some? ==> a.Synchronize? && a.process in s.processes
  {
    if !a.Synchronize? || a.process !in s.processes then None
    else
      var p := s.processes[a.process];
      if a.event.fetch.Fetched? && Response(p.agentId, a.event.fetch.desired) !in s.responses then None
      else
        match Y.Step(p.memory, a.ttl, a.event).1
        case None => None
        case Some(handed) => Some(handed.desired)
  }

  /** A process that counts on a master starts with one that holds nothing, and no pass is asked for a forward that is
      recorded for another route. */
  ghost predicate Orderly(s: System, a: Action) {
    && (a.StartProcess? && a.ready ==> a.master.live == {})
    && (HandedBy(s, a).Some? ==> NoneRecorded(s.processes[a.process].rec, HandedBy(s, a).value.routes, a.env.relayPorts))
  }

  ghost predicate OrderlyRun(options: Options, actions: seq<Action>) {
    forall n :: 0 <= n < |actions| ==> Orderly(SystemAfter(options, actions[..n]), actions[n])
  }

  ghost predicate RecordsTrack(s: System) {
    && (forall k :: k in s.processes ==> T.Tracking(s.processes[k].rec))
    && (forall q :: 0 <= q < |s.passes| ==> T.Tracking(s.passes[q].after))
  }

  lemma ShownPortsApart(routes: seq<Route>, config: Config)
    requires Shows(routes, config)
    ensures A.PortsApart(routes)
  {
    hide Canonical, SameSince;
  }

  lemma NoneRecordedNoClash(rec: R.State, routes: seq<Route>, ports: map<string, int>)
    requires NoneRecorded(rec, routes, ports) && A.PortsApart(routes)
    ensures T.NoClash(rec, routes, ports)
  {
    hide P.Wanted, A.PortsApart;
    forall a, b | a != b && P.Wanted(rec, routes, ports, b).Some?
      ensures P.Wanted(rec, routes, ports, a) != P.Wanted(rec, routes, ports, b)
    {
      A.WantsApart(rec, routes, ports, a, b);
    }
  }

  /** What is handed to a reconciler is an answer it got, and shows one configuration. */
  lemma HandedIsShown(s: System, options: Options, a: Action) returns (rho: int)
    requires Inv(s, options) && HandedBy(s, a).Some?
    ensures ShowsRevision(s, s.processes[a.process].agentId, HandedBy(s, a).value, rho)
  {
    hide TablesOk, HistoryComplete, RowsStable, ReportsBacked, UpRowsServed, Y.Step, Y.Normalized, Shows;
    var p := s.processes[a.process];
    assert ProcessOk(s, p);
    C.MemoryAfterStep(s, p, a);
    assert Response(p.agentId, HandedBy(s, a).value) in s.responses;
    rho :| ShowsRevision(s, p.agentId, HandedBy(s, a).value, rho);
  }

  lemma PassTracks(s: System, options: Options, a: Action)
    requires Inv(s, options) && HandedBy(s, a).Some? && Orderly(s, a) && T.Tracking(s.processes[a.process].rec)
    ensures T.Tracking(R.ReconcilePass(s.processes[a.process].rec, HandedBy(s, a).value, a.env).s)
  {
    hide Inv, HandedBy, T.Tracking, R.ReconcilePass, NoneRecorded, Shows;
    var rho := HandedIsShown(s, options, a);
    var desired, rec := HandedBy(s, a).value, s.processes[a.process].rec;
    ShownPortsApart(desired.routes, s.history[s.processes[a.process].agentId][rho]);
    NoneRecordedNoClash(rec, desired.routes, a.env.relayPorts);
    T.ReconcileTracks(rec, desired, a.env);
  }

  /** A step changes at most one process, and adds at most the pass that left it as it is. */
  lemma NextRecords(s: System, options: Options, a: Action)
    requires !a.StartProcess?
    ensures var s' := Next(s, options, a);
      && (HandedBy(s, a).None? ==>
            s'.passes == s.passes
            && forall k :: k in s'.processes ==> k in s.processes && s'.processes[k].rec == s.processes[k].rec)
      && (HandedBy(s, a).Some? ==>
            var after := R.ReconcilePass(s.processes[a.process].rec, HandedBy(s, a).value, a.env).s;
            && (s'.passes == s.passes || s'.passes == s.passes + [PassRecord(s.processes[a.process].agentId, after)])
            && forall k :: k in s'.processes ==>
                 k in s.processes && s'.processes[k].agentId == s.processes[k].agentId
                 && (s'.processes[k].rec == s.processes[k].rec || (k == a.process && s'.processes[k].rec == after)))
  {
    hide Execute, Recorded, R.ReconcilePass, R.ErrorReportsFor, Y.Step, Heartbeat, IsListing;
  }

  lemma StartTracks(bindHost: string, ready: bool, master: R.Master)
    requires ready ==> master.live == {}
    ensures T.Tracking(R.State(bindHost, map[], map[], ready, 0, master))
  {
    var none: map<string, R.Forward> := map[];
    assert none.Values == {};
  }

  lemma NextTracks(s: System, options: Options, a: Action)
    requires Inv(s, options) && RecordsTrack(s) && Orderly(s, a)
    ensures RecordsTrack(Next(s, options, a))
  {
    hide Inv, T.Tracking, R.ReconcilePass, HandedBy, NoneRecorded;
    if a.StartProcess? {
      StartTracks(a.bindHost, a.ready, a.master);
    } else {
      NextRecords(s, options, a);
      hide Next;
      if HandedBy(s, a).Some? { PassTracks(s, options, a); }
    }
  }

  lemma {:induction false} RunTracks(options: Options, actions: seq<Action>)
    requires OrderlyRun(options, actions)
    ensures RecordsTrack(SystemAfter(options, actions))
  {
    hide Inv, Next, Orderly;
    if actions != [] {
      var n := |actions| - 1;
      var earlier := actions[..n];
      forall m | 0 <= m < n ensures Orderly(SystemAfter(options, earlier[..m]), earlier[m]) {
        assert earlier[..m] == actions[..m] && earlier[m] == actions[m];
      }
      RunTracks(options, earlier);
      C.RunKeeps(options, earlier);
      NextTracks(SystemAfter(options, earlier), options, actions[n]);
    }
  }

  lemma TrackedHolds(s: System, row: Route, q: int)
    requires ServedBy(s, row, q) && T.Tracking(s.passes[q].after)
    ensures HeldBy(s, row, q)
  {
    var after := s.passes[q].after;
    assert row.id in after.active;
    assert after.active[row.id] in after.active.Values;
  }

  /** In an orderly run a converged row's forward was, as the row now stands, held by the master of its agent when a
      pass ended. */
  lemma ConvergedMeansHeld(options: Options, actions: seq<Action>, id: string)
    requires OrderlyRun(options, actions)
    requires id in SystemAfter(options, actions).tables.routes
    requires Converged(SystemAfter(options, actions).tables.routes[id])
    ensures var s := SystemAfter(options, actions);
      exists q :: HeldBy(s, s.tables.routes[id], q)
  {
    hide SystemAfter, ServedBy, HeldBy, OrderlyRun, T.Tracking;
    var s := SystemAfter(options, actions);
    C.ConvergedMeansForwarded(options, actions, id);
    RunTracks(options, actions);
    var q :| ServedBy(s, s.tables.routes[id], q);
    assert 0 <= q < |s.passes| by { ServedIsPass(s, s.tables.routes[id], q); }
    TrackedHolds(s, s.tables.routes[id], q);
  }

  lemma ServedIsPass(s: System, row: Route, q: int)
    requires ServedBy(s, row, q)
    ensures 0 <= q < |s.passes|
  {}

  // ---- A condition on the routes' history alone ----

  /** Configuration k of the agent has the route with that remote port. */
  predicate OwnedAt(s: System, agentId: string, k: int, id: string, port: int) {
    && agentId in s.history && 0 <= k < |s.history[agentId]|
    && id in s.history[agentId][k] && s.history[agentId][k][id].remotePort == port
  }

  /** No remote port ever went from one route of an agent to another. */
  ghost predicate PortsOwned(s: System) {
    forall agentId, i, j, a, b, port :: OwnedAt(s, agentId, i, a, port) && OwnedAt(s, agentId, j, b, port) ==> a == b
  }

  /** Every recorded forward has the remote port that some configuration gave its route. */
  ghost predicate RecordOwned(s: System, agentId: string, rec: R.State) {
    forall id :: id in rec.active ==> exists k :: OwnedAt(s, agentId, k, id, rec.active[id].remotePort)
  }

  ghost predicate RecordsOwned(s: System) {
    forall k :: k in s.processes ==> RecordOwned(s, s.processes[k].agentId, s.processes[k].rec)
  }

  predicate StartsEmpty(actions: seq<Action>) {
    forall a :: a in actions && a.StartProcess? && a.ready ==> a.master.live == {}
  }

  ghost predicate HistoryGrows(s: System, s': System) {
    forall a :: a in s.history ==> a in s'.history && s.history[a] <= s'.history[a]
  }

  lemma NextGrows(s: System, options: Options, a: Action)
    requires Inv(s, options)
    ensures HistoryGrows(s, Next(s, options, a))
  {
    hide TablesOk, RowsStable, ResponsesShowHistory, ProcessesOk, ReportsBacked, UpRowsServed, ConfigOf, Execute, Recorded,
      R.ReconcilePass, R.ErrorReportsFor, Y.Step, Heartbeat, IsListing, C.AdminEffect;
    if a.Admin? && !a.command.SendHeartbeat? {
      var t' := Execute(s.tables, options, a.command);
      C.ExecuteEffect(s.tables, options, a.command);
      AgentsStay(s.tables, t');
      forall agentId | agentId in s.history
        ensures agentId in Recorded(s.history, s.tables, t')
        ensures s.history[agentId] <= Recorded(s.history, s.tables, t')[agentId]
      {
        C.RecordedShape(s, t', agentId);
      }
    }
  }

  lemma AgentsStay(t: Tables, t': Tables)
    requires C.AdminEffect(t, t')
    ensures forall a :: a in t.agents ==> a in t'.agents
  {}

  lemma OwnedGrows(s: System, s': System, agentId: string, k: int, id: string, port: int)
    requires HistoryGrows(s, s') && OwnedAt(s, agentId, k, id, port)
    ensures OwnedAt(s', agentId, k, id, port)
  {
    assert s'.history[agentId][k] == s.history[agentId][k];
  }

  lemma RecordOwnedGrows(s: System, s': System, agentId: string, rec: R.State)
    requires HistoryGrows(s, s') && RecordOwned(s, agentId, rec)
    ensures RecordOwned(s', agentId, rec)
  {
    hide OwnedAt, HistoryGrows;
    forall id | id in rec.active ensures exists k :: OwnedAt(s', agentId, k, id, rec.active[id].remotePort) {
      var k :| OwnedAt(s, agentId, k, id, rec.active[id].remotePort);
      OwnedGrows(s, s', agentId, k, id, rec.active[id].remotePort);
    }
  }

  lemma PortsOwnedBefore(s: System, s': System)
    requires HistoryGrows(s, s') && PortsOwned(s')
    ensures PortsOwned(s)
  {
    hide OwnedAt, HistoryGrows;
    forall agentId, i, j, a, b, port | OwnedAt(s, agentId, i, a, port) && OwnedAt(s, agentId, j, b, port) ensures a == b {
      OwnedGrows(s, s', agentId, i, a, port);
      OwnedGrows(s, s', agentId, j, b, port);
    }
  }

  /** What a pass leaves recorded was recorded before or is wanted. */
  lemma RecordedAfterPass(rec: R.State, desired: R.Desired, env: R.PassEnv, id: string)
    requires id in R.ReconcilePass(rec, desired, env).s.active
    ensures var f := R.ReconcilePass(rec, desired, env).s.active[id];
      || (id in rec.active && rec.active[id] == f)
      || P.Wanted(R.AfterCheck(rec, env), desired.routes, env.relayPorts, id) == Some(f)
  {
    hide R.HandleAll, R.Swept, P.Wanted, P.UpReportsHold, R.FailureReports;
    if !R.MasterUnknown(rec, env) {
      var s0, p := R.AfterCheck(rec, env), P.LoopOf(rec, desired, env);
      P.LoopSettles(s0, desired.routes, env);
      P.SweepKeepsSeen(p, env);
      T.RecordedOrWanted(s0, p, desired.routes, env.relayPorts, id);
    }
  }

  lemma WantedIsOwned(s: System, agentId: string, desired: R.Desired, rho: int, rec: R.State, ports: map<string, int>, id: string)
    requires ShowsRevision(s, agentId, desired, rho) && P.Wanted(rec, desired.routes, ports, id).Some?
    ensures OwnedAt(s, agentId, rho, id, P.Wanted(rec, desired.routes, ports, id).value.remotePort)
  {
    hide P.Wanted, P.FirstRoute, Canonical;
    A.WantedPort(rec, desired.routes, ports, id);
    var route := P.FirstRoute(desired.routes, id).value;
    var i :| 0 <= i < |desired.routes| && desired.routes[i] == route;
    assert SameSince(s.history[agentId][rho], route);
  }

  lemma PassOwned(s: System, options: Options, a: Action)
    requires Inv(s, options) && HandedBy(s, a).Some? && RecordsOwned(s)
    ensures RecordOwned(s, s.processes[a.process].agentId,
                        R.ReconcilePass(s.processes[a.process].rec, HandedBy(s, a).value, a.env).s)
  {
    hide Inv, HandedBy, R.ReconcilePass, ShowsRevision, P.Wanted, OwnedAt, R.AfterCheck;
    var rho := HandedIsShown(s, options, a);
    var agentId, desired, rec := s.processes[a.process].agentId, HandedBy(s, a).value, s.processes[a.process].rec;
    var after := R.ReconcilePass(rec, desired, a.env).s;
    assert RecordOwned(s, agentId, rec);
    forall id | id in after.active ensures exists k :: OwnedAt(s, agentId, k, id, after.active[id].remotePort) {
      RecordedAfterPass(rec, desired, a.env, id);
      if !(id in rec.active && rec.active[id] == after.active[id]) {
        WantedIsOwned(s, agentId, desired, rho, R.AfterCheck(rec, a.env), a.env.relayPorts, id);
      }
    }
  }

  lemma NextOwned(s: System, options: Options, a: Action)
    requires Inv(s, options) && RecordsOwned(s)
    ensures RecordsOwned(Next(s, options, a))
  {
    hide Inv, RecordOwned, R.ReconcilePass, HandedBy, HistoryGrows;
    var s' := Next(s, options, a);
    NextGrows(s, options, a);
    if a.StartProcess? {
      NothingRecorded(s, a.agentId, R.State(a.bindHost, map[], map[], a.ready, 0, a.master));
    } else {
      NextRecords(s, options, a);
      hide Next;
      if HandedBy(s, a).Some? { PassOwned(s, options, a); }
    }
    hide Next;
    forall k | k in s'.processes ensures RecordOwned(s', s'.processes[k].agentId, s'.processes[k].rec) {
      RecordOwnedGrows(s, s', s'.processes[k].agentId, s'.processes[k].rec);
    }
  }

  lemma NothingRecorded(s: System, agentId: string, rec: R.State)
    requires rec.active == map[]
    ensures RecordOwned(s, agentId, rec)
  {}

  lemma {:induction false} RunOwned(options: Options, actions: seq<Action>)
    ensures RecordsOwned(SystemAfter(options, actions))
  {
    hide Inv, Next, RecordOwned;
    if actions != [] {
      RunOwned(options, actions[..|actions| - 1]);
      C.RunKeeps(options, actions[..|actions| - 1]);
      NextOwned(SystemAfter(options, actions[..|actions| - 1]), options, actions[|actions| - 1]);
    }
  }

  /** While no port has changed hands, no route can want what is recorded for another. */
  lemma OwnedIsOrderly(s: System, options: Options, a: Action)
    requires Inv(s, options) && RecordsOwned(s) && PortsOwned(s)
    requires a.StartProcess? && a.ready ==> a.master.live == {}
    ensures Orderly(s, a)
  {
    hide Inv, HandedBy, ShowsRevision, P.Wanted, OwnedAt;
    if HandedBy(s, a).Some? {
      var rho := HandedIsShown(s, options, a);
      var agentId, desired, rec := s.processes[a.process].agentId, HandedBy(s, a).value, s.processes[a.process].rec;
      assert RecordOwned(s, agentId, rec);
      forall x, y | x != y && rec.master.alive && x in rec.active
        ensures P.Wanted(rec, desired.routes, a.env.relayPorts, y) != Some(rec.active[x])
      {
        var k :| OwnedAt(s, agentId, k, x, rec.active[x].remotePort);
        if P.Wanted(rec, desired.routes, a.env.relayPorts, y) == Some(rec.active[x]) {
          WantedIsOwned(s, agentId, desired, rho, rec, a.env.relayPorts, y);
        }
      }
    }
  }

  lemma {:induction false} OwnedRunIsOrderly(options: Options, actions: seq<Action>)
    requires StartsEmpty(actions) && PortsOwned(SystemAfter(options, actions))
    ensures OrderlyRun(options, actions)
  {
    hide Inv, Next, Orderly, PortsOwned, RecordsOwned;
    if actions != [] {
      var n := |actions| - 1;
      var earlier, s := actions[..n], SystemAfter(options, actions[..n]);
      C.RunKeeps(options, earlier);
      NextGrows(s, options, actions[n]);
      PortsOwnedBefore(s, SystemAfter(options, actions));
      OwnedRunIsOrderly(options, earlier);
      RunOwned(options, earlier);
      OwnedIsOrderly(s, options, actions[n]);
      forall m | 0 <= m < |actions| ensures Orderly(SystemAfter(options, actions[..m]), actions[m]) {
        if m < n { assert earlier[..m] == actions[..m] && earlier[m] == actions[m]; }
      }
    }
  }

  /** So where no remote port ever changed hands, a converged row's forward was really held. */
  lemma OwnedPortsMeanHeld(options: Options, actions: seq<Action>, id: string)
    requires StartsEmpty(actions) && PortsOwned(SystemAfter(options, actions))
    requires id in SystemAfter(options, actions).tables.routes
    requires Converged(SystemAfter(options, actions).tables.routes[id])
    ensures var s := SystemAfter(options, actions);
      exists q :: HeldBy(s, s.tables.routes[id], q)
  {
    hide SystemAfter, HeldBy, OrderlyRun, PortsOwned;
    OwnedRunIsOrderly(options, actions);
    ConvergedMeansHeld(options, actions, id);
  }

  // ---- One undisturbed round, exactly ----

  /** The record that a round starts from clashes with the list that it fetches. */
  ghost predicate RoundClashes(s: System, process: string, order: seq<string>, env: R.PassEnv)
    requires G.CanRun(s, process, order)
  {
    A.WantsRecorded(s.processes[process].rec, Listed(s.tables, order), env.relayPorts)
  }

  /** The pass of a round is the last one, and no earlier one is lost. */
  lemma RoundPasses(s: System, options: Options, process: string, order: seq<string>, ttl: int, env: R.PassEnv, now: int)
    requires Inv(s, options) && options.Valid() && G.CanRun(s, process, order)
    requires G.Undisturbed(env, s.processes[process].rec, order)
    ensures var later := G.From(s, options, G.Round(s, process, order, ttl, env, now));
      later.passes == s.passes + [PassRecord(s.processes[process].agentId, G.RoundPass(s, process, order, env).s)]
  {
    hide Inv, G.Undisturbed, R.ReconcilePass, G.From, G.Round, IsListing, Heartbeat;
    G.UndisturbedOutcome(s, options, process, order, env);
    G.RoundDelivers(s, options, process, order, ttl, env, now);
  }

  /** A listed row that a pass reports up is, however it has been observed since, as the pass served it. */
  lemma UpRowServed(t: Tables, options: Options, agentId: string, order: seq<string>, rec: R.State, env: R.PassEnv, i: nat,
                    row: Route)
    requires TablesOk(t, options) && options.Valid() && agentId in t.agents && IsListing(t, agentId, order) && i < |order|
    requires Y.NormalizedRoute(row) == Y.NormalizedRoute(t.routes[order[i]])
    requires var o := R.ReconcilePass(rec, G.Fetched(t, agentId, order), env);
      i < |o.reports| && o.reports[i].routeId == order[i] && o.reports[i].tunnelStatus == "up"
    ensures P.Serves(R.ReconcilePass(rec, G.Fetched(t, agentId, order), env).s, row)
  {
    hide TablesOk, R.ReconcilePass, P.Serves, Y.NormalizedRoute, P.FirstRoute, P.ServesRequest;
    var desired, routes := G.Fetched(t, agentId, order), Listed(t, order);
    P.UpMeansServed(rec, desired, env, i);
    P.FirstRouteInIds(routes, order[i]);
    G.ListedIds(t, options, agentId, order);
    hide IsListing;
    OnlyOne(routes, i, P.FirstRoute(routes, order[i]).value);
    RowServed(t, options, order[i], R.ReconcilePass(rec, desired, env).s, row);
  }

  /** An enabled row that the round fetched is served by its pass. */
  lemma RoundServes(s: System, options: Options, process: string, order: seq<string>, env: R.PassEnv, row: Route)
    requires Inv(s, options) && options.Valid() && G.CanRun(s, process, order)
    requires G.Undisturbed(env, s.processes[process].rec, order)
    requires row.id in order && s.tables.routes[row.id].enabled
    requires Y.NormalizedRoute(row) == Y.NormalizedRoute(s.tables.routes[row.id])
    ensures P.Serves(G.RoundPass(s, process, order, env).s, row)
  {
    hide Inv, R.ReconcilePass, P.Serves, Y.NormalizedRoute, TablesOk, G.Undisturbed, IsListing;
    G.InvParts(s, options, process);
    G.UndisturbedOutcome(s, options, process, order, env);
    var i :| 0 <= i < |order| && order[i] == row.id;
    UpRowServed(s.tables, options, s.processes[process].agentId, order, s.processes[process].rec, env, i, row);
  }

  lemma OnlyOne(routes: seq<Route>, i: nat, r: Route)
    requires G.DistinctIds(routes) && i < |routes| && r in routes && r.id == routes[i].id
    ensures r == routes[i]
  {
    var j :| 0 <= j < |routes| && routes[j] == r;
  }

  lemma RowServed(t: Tables, options: Options, id: string, after: R.State, row: Route)
    requires TablesOk(t, options) && options.Valid() && id in t.routes && P.ServesRequest(after, Joined(t, id))
    requires Y.NormalizedRoute(row) == Y.NormalizedRoute(t.routes[id])
    ensures P.Serves(after, row)
  {
    hide TablesOk, Validate, P.Serves;
    G.RowFacts(t, options, id);
    CanonicalIgnoresRowState(t.routes[id], Joined(t, id));
    SameTargetServes(after, row, Joined(t, id));
  }

  lemma RoundWants(s: System, options: Options, process: string, order: seq<string>, env: R.PassEnv, id: string)
    requires Inv(s, options) && options.Valid() && G.CanRun(s, process, order)
    requires G.Undisturbed(env, s.processes[process].rec, order)
    ensures var rec := s.processes[process].rec;
      var after, want := G.RoundPass(s, process, order, env).s, P.Wanted(rec, Listed(s.tables, order), env.relayPorts, id);
      && (id in after.active <==> want.Some?) && (id in after.active ==> want == Some(after.active[id]))
      && (want.Some? ==> id in order && s.tables.routes[id].enabled)
  {
    hide Inv, R.ReconcilePass, P.FirstRoute, TablesOk, Validate, R.RelayFor;
    var agentId, rec := s.processes[process].agentId, s.processes[process].rec;
    var desired := G.Fetched(s.tables, agentId, order);
    G.InvParts(s, options, process);
    G.ListedIds(s.tables, options, agentId, order);
    assert T.Everyone(rec, desired) == (set id | id in order) + rec.active.Keys;
    T.CooperativePassConverges(rec, desired, env);
    P.FirstRouteInIds(desired.routes, id);
  }

  /** When the round ends each enabled row stands as its last pass served it. */
  lemma RowAfterRound(s: System, options: Options, process: string, order: seq<string>, ttl: int, env: R.PassEnv, now: int,
                      id: string)
    requires Inv(s, options) && options.Valid() && G.CanRun(s, process, order)
    requires G.Undisturbed(env, s.processes[process].rec, order) && id in order && s.tables.routes[id].enabled
    ensures var later := G.From(s, options, G.Round(s, process, order, ttl, env, now));
      && id in later.tables.routes && later.tables.routes[id].id == id
      && ServedBy(later, later.tables.routes[id], |s.passes|)
  {
    hide Inv, R.ReconcilePass, P.Serves, Y.NormalizedRoute, TablesOk, G.Undisturbed, G.From, G.Round, Heartbeat,
      C.HeartbeatEffect;
    var later := G.From(s, options, G.Round(s, process, order, ttl, env, now));
    RoundPasses(s, options, process, order, ttl, env, now);
    G.UndisturbedOutcome(s, options, process, order, env);
    G.RoundDelivers(s, options, process, order, ttl, env, now);
    var r := G.RoundReport(s, process, order, env);
    C.HeartbeatHasEffect(s.tables, options, r.agentId, r.observed.revision, Observations(r.observed), now);
    KeptByEffect(s.tables, later.tables, options, id);
    RoundServes(s, options, process, order, env, later.tables.routes[id]);
  }

  lemma KeptByEffect(t: Tables, t': Tables, options: Options, id: string)
    requires TablesOk(t, options) && C.HeartbeatEffect(t, t') && id in t.routes
    ensures id in t'.routes && Y.NormalizedRoute(t'.routes[id]) == Y.NormalizedRoute(t.routes[id])
    ensures t'.routes[id].id == id && t'.routes[id].clientId == t.routes[id].clientId
  {
    hide TablesOk, Y.NormalizedRoute;
    C.RowIdentity(t, options, id);
    C.EffectKeepsIdentity(t, t');
  }

  lemma ListedPortsApart(s: System, options: Options, process: string, order: seq<string>)
    requires Inv(s, options) && G.CanRun(s, process, order)
    ensures A.PortsApart(Listed(s.tables, order))
  {
    hide TablesOk, Inv, Shows, A.PortsApart;
    var agentId := s.processes[process].agentId;
    G.InvParts(s, options, process);
    C.ListedShows(s.tables, options, agentId, order);
    ShownPortsApart(Listed(s.tables, order), ConfigOf(s.tables, agentId));
  }

  lemma RoundGrants(s: System, options: Options, process: string, order: seq<string>, env: R.PassEnv)
    requires Inv(s, options) && G.CanRun(s, process, order) && G.Undisturbed(env, s.processes[process].rec, order)
    ensures T.Grants(env, T.Everyone(s.processes[process].rec, G.Fetched(s.tables, s.processes[process].agentId, order)))
  {
    hide TablesOk, Inv, T.Grants, R.Ids;
    var agentId, rec := s.processes[process].agentId, s.processes[process].rec;
    G.InvParts(s, options, process);
    G.ListedIds(s.tables, options, agentId, order);
    assert T.Everyone(rec, G.Fetched(s.tables, agentId, order)) == (set id | id in order) + rec.active.Keys;
  }

  /** The undisturbed round leaves every enabled route converged, and every one held by the living master, exactly if none
      of them asks for the forward recorded for a route that the list dropped or names later. */
  lemma RoundHoldsIff(options: Options, actions: seq<Action>, process: string, order: seq<string>, ttl: int,
                      env: R.PassEnv, now: int)
    requires var s := SystemAfter(options, actions);
      && options.Valid() && G.CanRun(s, process, order) && G.Undisturbed(env, s.processes[process].rec, order)
      && T.Tracking(s.processes[process].rec)
    ensures var s := SystemAfter(options, actions);
      var later := SystemAfter(options, actions + G.Round(s, process, order, ttl, env, now));
      !RoundClashes(s, process, order, env) <==>
        forall id :: id in order && s.tables.routes[id].enabled ==>
          id in later.tables.routes && HeldBy(later, later.tables.routes[id], |s.passes|)
  {
    hide SystemAfter, Inv, G.Undisturbed, G.Round, G.From, R.ReconcilePass, T.Tracking, P.Serves, A.WantsOf,
      A.PortsApart, T.Grants;
    var s := SystemAfter(options, actions);
    C.RunKeeps(options, actions);
    G.AfterIsFrom(options, actions, G.Round(s, process, order, ttl, env, now));
    RoundPasses(s, options, process, order, ttl, env, now);
    ListedPortsApart(s, options, process, order);
    RoundGrants(s, options, process, order, env);
    var desired, rec := G.Fetched(s.tables, s.processes[process].agentId, order), s.processes[process].rec;
    A.CooperativeAgreesIffNoneRecorded(rec, desired, env);
    var later := G.From(s, options, G.Round(s, process, order, ttl, env, now));
    if !RoundClashes(s, process, order, env) {
      forall id | id in order && s.tables.routes[id].enabled
        ensures id in later.tables.routes && HeldBy(later, later.tables.routes[id], |s.passes|)
      {
        RowAfterRound(s, options, process, order, ttl, env, now, id);
        AgreedHolds(later, later.tables.routes[id], |s.passes|) by { PassReady(rec, desired, env); }
      }
    } else {
      var a, b :| A.WantsOf(rec, desired.routes, env.relayPorts, a, b);
      RoundTakes(s, options, process, order, ttl, env, now, a, b);
    }
  }

  lemma PassReady(rec: R.State, desired: R.Desired, env: R.PassEnv)
    requires T.Tracking(rec)
    ensures P.ReadyOrIdle(R.ReconcilePass(rec, desired, env).s)
  {
    hide R.ReconcilePass;
    C.PassStaysReady(rec, desired, env);
  }

  lemma AgreedHolds(s: System, row: Route, q: int)
    requires ServedBy(s, row, q) && T.Agrees(s.passes[q].after) && P.ReadyOrIdle(s.passes[q].after)
    ensures HeldBy(s, row, q)
  {
    var after := s.passes[q].after;
    assert row.id in after.active;
    assert after.active[row.id] in after.active.Values;
  }

  /** A row that takes a recorded forward converges all the same, and its master does not hold the forward. */
  lemma RoundTakes(s: System, options: Options, process: string, order: seq<string>, ttl: int, env: R.PassEnv, now: int,
                   a: string, b: string)
    requires Inv(s, options) && options.Valid() && G.CanRun(s, process, order)
    requires G.Undisturbed(env, s.processes[process].rec, order)
    requires A.WantsOf(s.processes[process].rec, Listed(s.tables, order), env.relayPorts, a, b)
    ensures b in order && s.tables.routes[b].enabled
    ensures var later := G.From(s, options, G.Round(s, process, order, ttl, env, now));
      && b in later.tables.routes && later.tables.routes[b].id == b
      && ServedBy(later, later.tables.routes[b], |s.passes|) && !HeldBy(later, later.tables.routes[b], |s.passes|)
  {
    hide Inv, G.Undisturbed, G.Round, G.From, R.ReconcilePass, P.Serves, A.HandledBefore, IsListing, A.PortsApart, P.Wanted,
      T.Grants;
    RoundPasses(s, options, process, order, ttl, env, now);
    ListedPortsApart(s, options, process, order);
    RoundGrants(s, options, process, order, env);
    G.InvParts(s, options, process);
    RoundWants(s, options, process, order, env, b);
    A.CooperativeTaking(s.processes[process].rec, G.Fetched(s.tables, s.processes[process].agentId, order), env, a, b);
    RowAfterRound(s, options, process, order, ttl, env, now, b);
  }
}
