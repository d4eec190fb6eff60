/** The whole loop from a route write to a published route: server tables, torn fetches, agent processes
    that restart, and reports that may be lost, delayed or duplicated. */
module Convergence {
  import opened Results
  import opened Routes
  import opened RouteStore
  import opened StoreInvariants
  import R = Reconciler
  import P = ReconcilerProperties
  import Y = Syncer

  /** A running agent process: what its syncer remembers and what its reconciler holds. */
  datatype Process = Process(agentId: string, memory: Y.Memory, rec: R.State)

  /** The two halves of a fetch: the revision read from the agent row, then the answer with the routes. */
  datatype RevisionRead = RevisionRead(agentId: string, revision: int)
  datatype Response = Response(agentId: string, desired: R.Desired)

  datatype Report = Report(agentId: string, observed: R.Observed)

  /** A finished reconcile pass and the state it ended in. */
  datatype PassRecord = PassRecord(agentId: string, after: R.State)

  /** An agent's routes at one desired revision, without what observation writes. */
  type Config = map<string, Route>

  datatype System = System(
    tables: Tables, pending: set<RevisionRead>, responses: set<Response>, processes: map<string, Process>,
    reports: set<Report>, history: map<string, seq<Config>>, passes: seq<PassRecord>)

  datatype Action =
    | Admin(command: Command)
    | ReadRevision(agentId: string)
    | ReadRoutes(read: RevisionRead, order: seq<string>)
    | StartProcess(process: string, agentId: string, bindHost: string, ready: bool, master: R.Master)
    | Synchronize(process: string, ttl: int, event: Y.Event, env: R.PassEnv, tail: seq<R.RouteReport>)
    | Deliver(report: Report, now: int)

  function ConfigOf(t: Tables, agentId: string): Config {
    map id | id in t.routes && t.routes[id].clientId == agentId :: Y.NormalizedRoute(t.routes[id])
  }

  /** The record of configurations grows by one at each new desired revision. */
  function Recorded(h: map<string, seq<Config>>, t: Tables, t': Tables): map<string, seq<Config>> {
    map a | a in t'.agents ::
      if a !in h then [ConfigOf(t', a)]
      else if a in t.agents && t.agents[a].desiredRevision < t'.agents[a].desiredRevision then h[a] + [ConfigOf(t', a)]
      else h[a]
  }

  /** The rows of one agent in remote-port order, as the second query of a fetch returns them. */
  predicate IsListing(t: Tables, agentId: string, order: seq<string>) {
    && (forall i :: 0 <= i < |order| ==> order[i] in t.routes && t.routes[order[i]].clientId == agentId)
    && (forall i, j :: 0 <= i < j < |order| ==> t.routes[order[i]].remotePort < t.routes[order[j]].remotePort)
    && (forall id :: id in t.routes && t.routes[id].clientId == agentId ==> id in order)
  }

  function Listed(t: Tables, order: seq<string>): (routes: seq<Route>)
    requires forall i :: 0 <= i < |order| ==> order[i] in t.routes
    ensures |routes| == |order|
    ensures forall i :: 0 <= i < |order| ==> routes[i] == Joined(t, order[i])
  {
    seq(|order|, i requires 0 <= i < |order| => Joined(t, order[i]))
  }

  /** How the API turns a report into observations: every route gets the report's revision. */
  function Observations(o: R.Observed): (os: seq<Observation>)
    ensures |os| == |o.routes|
    ensures forall i :: 0 <= i < |os| ==>
      os[i] == Observation(o.routes[i].routeId, o.revision, o.routes[i].localStatus, o.routes[i].tunnelStatus, o.routes[i].error)
  {
    seq(|o.routes|, i requires 0 <= i < |o.routes| =>
      Observation(o.routes[i].routeId, o.revision, o.routes[i].localStatus, o.routes[i].tunnelStatus, o.routes[i].error))
  }

  /** The API's loop over a report. */
  method BuildObservations(o: R.Observed) returns (os: seq<Observation>)
    ensures os == Observations(o)
  {
    os := [];
    for i := 0 to |o.routes|
      invariant |os| == i
      invariant forall j :: 0 <= j < i ==> os[j] == Observations(o)[j]
    {
      var r := o.routes[i];
      os := os + [Observation(r.routeId, o.revision, r.localStatus, r.tunnelStatus, r.error)];
    }
  }

  function Start(): System { System(Tables(map[], map[]), {}, {}, map[], {}, map[], []) }

  function Synchronized(s: System, a: Action): System
    requires a.Synchronize? && a.process in s.processes
  {
    var p := s.processes[a.process];
    if a.event.fetch.Fetched? && Response(p.agentId, a.event.fetch.desired) !in s.responses then s
    else
      var (memory, handed) := Y.Step(p.memory, a.ttl, a.event);
      match handed
      case None => s.(processes := s.processes[a.process := p.(memory := memory)])
      case Some(h) =>
        var o := R.ReconcilePass(p.rec, h.desired, a.env);
        var passed := s.(processes := s.processes[a.process := Process(p.agentId, memory, o.s)],
                         passes := s.passes + [PassRecord(p.agentId, o.s)]);
        if h.replay then passed
        else if !R.ErrorReportsFor(a.tail, o.lastIds, o.lastLocal) then s
        else passed.(reports := s.reports + {Report(p.agentId, R.Observed(o.revision, o.reports + a.tail))})
  }

  /** One step of the system; an action that is not possible in a state leaves it unchanged. */
  function Next(s: System, options: Options, a: Action): System {
    match a
    case Admin(command) =>
      if command.SendHeartbeat? then s
      else
        var t' := Execute(s.tables, options, command);
        s.(tables := t', history := Recorded(s.history, s.tables, t'))
    case ReadRevision(agentId) =>
      if agentId !in s.tables.agents then s
      else s.(pending := s.pending + {RevisionRead(agentId, s.tables.agents[agentId].desiredRevision)})
    case ReadRoutes(read, order) =>
      if read !in s.pending || !IsListing(s.tables, read.agentId, order) then s
      else s.(responses := s.responses + {Response(read.agentId, R.Desired(read.revision, Listed(s.tables, order)))})
    case StartProcess(process, agentId, bindHost, ready, master) =>
      if agentId !in s.tables.agents then s
      else s.(processes :=
        s.processes[process := Process(agentId, Y.EMPTY, R.State(bindHost, map[], map[], ready, 0, master))])
    case Synchronize(process, _, _, _, _) =>
      if process !in s.processes then s else Synchronized(s, a)
    case Deliver(report, now) =>
      if report !in s.reports then s
      else s.(tables := Heartbeat(s.tables, report.agentId, report.observed.revision, Observations(report.observed), now).0)
  }

  function SystemAfter(options: Options, actions: seq<Action>): System {
    if actions == [] then Start()
    else Next(SystemAfter(options, actions[..|actions| - 1]), options, actions[|actions| - 1])
  }

  // ---- The invariant ----

  predicate RevisionOf(s: System, agentId: string, revision: int) {
    agentId in s.tables.agents && 0 <= revision <= s.tables.agents[agentId].desiredRevision
  }

  /** Each agent's history has one configuration for every revision, the last being the current one. */
  ghost predicate HistoryComplete(s: System) {
    && (forall a :: a in s.tables.agents ==>
          a in s.history && 0 < |s.history[a]| == s.tables.agents[a].desiredRevision + 1
          && s.history[a][|s.history[a]| - 1] == ConfigOf(s.tables, a))
    && s.history.Keys == s.tables.agents.Keys
  }

  predicate SameSince(config: Config, row: Route) {
    row.id in config && config[row.id] == Y.NormalizedRoute(row)
  }

  /** A row has been as it is since its own desired revision. */
  ghost predicate RowsStable(s: System) {
    forall id, k :: id in s.tables.routes && RevisionSince(s, s.tables.routes[id], k) ==>
      SameSince(s.history[s.tables.routes[id].clientId][k], s.tables.routes[id])
  }

  predicate RevisionSince(s: System, row: Route, k: int) {
    row.clientId in s.history && 0 <= k && row.desiredRevision <= k < |s.history[row.clientId]|
  }

  /** The routes of an answer are all those of one recorded configuration, by remote port. */
  predicate Shows(routes: seq<Route>, config: Config) {
    && (forall i :: 0 <= i < |routes| ==> routes[i].id != "" && Canonical(routes[i]) && SameSince(config, routes[i]))
    && (forall i, j :: 0 <= i < j < |routes| ==> routes[i].remotePort < routes[j].remotePort)
    && (forall id :: id in config ==> exists i :: 0 <= i < |routes| && routes[i].id == id)
  }

  predicate ShowsRevision(s: System, agentId: string, desired: R.Desired, rho: int) {
    && agentId in s.history && 0 <= desired.revision <= rho < |s.history[agentId]|
    && Shows(desired.routes, s.history[agentId][rho])
  }

  ghost predicate ResponsesShowHistory(s: System) {
    && (forall r :: r in s.pending ==> RevisionOf(s, r.agentId, r.revision))
    && (forall r :: r in s.responses ==> exists rho :: ShowsRevision(s, r.agentId, r.desired, rho))
  }

  predicate Accepted(s: System, p: Process, d: R.Desired) {
    Response(p.agentId, d) in s.responses && p.memory.accepted == Some(Y.Normalized(d))
  }

  /** A process has accepted, and replays, only answers it got; its reconciler is never ahead of what it accepted. */
  ghost predicate ProcessOk(s: System, p: Process) {
    && p.agentId in s.tables.agents && P.ReadyOrIdle(p.rec)
    && (p.memory.accepted.Some? ==> exists d :: Accepted(s, p, d))
    && (p.memory.cached.Some? ==>
          && Response(p.agentId, p.memory.cached.value.desired) in s.responses
          && p.memory.accepted == Some(Y.Normalized(p.memory.cached.value.desired)))
    && p.rec.observedRevision <= (if p.memory.accepted.Some? then p.memory.accepted.value.revision else 0)
  }

  ghost predicate ProcessesOk(s: System) {
    forall k :: k in s.processes ==> ProcessOk(s, s.processes[k])
  }

  /** Every route a report calls up was served, as the configuration rho has it, when pass q ended. */
  predicate Backed(s: System, r: Report, rho: int, q: int) {
    && r.agentId in s.history && r.observed.revision <= rho < |s.history[r.agentId]| && 0 <= rho
    && 0 <= q < |s.passes| && s.passes[q].agentId == r.agentId
    && forall i :: 0 <= i < |r.observed.routes| && r.observed.routes[i].tunnelStatus == "up" ==>
         var id, config := r.observed.routes[i].routeId, s.history[r.agentId][rho];
         id in config && config[id].id == id && P.Serves(s.passes[q].after, config[id])
  }

  ghost predicate ReportsBacked(s: System) {
    forall r :: r in s.reports ==> exists rho, q :: Backed(s, r, rho, q)
  }

  predicate ServedBy(s: System, row: Route, q: int) {
    0 <= q < |s.passes| && s.passes[q].agentId == row.clientId && P.Serves(s.passes[q].after, row)
  }

  predicate UpToDate(row: Route) { row.tunnelStatus == "up" && row.observedRevision >= row.desiredRevision }

  /** A row that is reported up at its revision was forwarded, exactly as it now is, by a finished pass of its owner. */
  ghost predicate UpRowsServed(s: System) {
    forall id :: id in s.tables.routes && UpToDate(s.tables.routes[id]) ==>
      exists q :: ServedBy(s, s.tables.routes[id], q)
  }

  ghost predicate Inv(s: System, options: Options) {
    && TablesOk(s.tables, options)
    && HistoryComplete(s) && RowsStable(s)
    && ResponsesShowHistory(s) && ProcessesOk(s) && ReportsBacked(s)
    && UpRowsServed(s)
  }

  // ---- What a step leaves alone ----

  /** The records only grow: every configuration and every pass stays where it is. */
  ghost predicate Grown(s: System, s': System) {
    && (forall a :: a in s.history ==> a in s'.history && s.history[a] <= s'.history[a])
    && s.passes <= s'.passes
    && s.responses <= s'.responses
    && (forall a :: a in s.tables.agents ==>
          a in s'.tables.agents && s.tables.agents[a].desiredRevision <= s'.tables.agents[a].desiredRevision)
  }

  lemma GrownResponses(s: System, s': System)
    requires Grown(s, s') && ResponsesShowHistory(s) && s'.responses == s.responses && s'.pending == s.pending
    ensures ResponsesShowHistory(s')
  {
    hide Shows;
    forall r | r in s'.responses ensures exists rho :: ShowsRevision(s', r.agentId, r.desired, rho) {
      var rho :| ShowsRevision(s, r.agentId, r.desired, rho);
      assert ShowsRevision(s', r.agentId, r.desired, rho);
    }
  }

  lemma GrownReports(s: System, s': System)
    requires Grown(s, s') && ReportsBacked(s) && s'.reports == s.reports
    ensures ReportsBacked(s')
  {
    hide P.Serves;
    forall r | r in s'.reports ensures exists rho, q :: Backed(s', r, rho, q) {
      var rho, q :| Backed(s, r, rho, q);
      BackedGrows(s, s', r, rho, q);
    }
  }

  lemma BackedGrows(s: System, s': System, r: Report, rho: int, q: int)
    requires Grown(s, s') && Backed(s, r, rho, q)
    ensures Backed(s', r, rho, q)
  {
    hide P.Serves;
    assert s'.history[r.agentId][rho] == s.history[r.agentId][rho];
    assert s'.passes[q] == s.passes[q];
  }

  lemma GrownProcesses(s: System, s': System)
    requires Grown(s, s') && ProcessesOk(s) && s'.processes == s.processes
    ensures ProcessesOk(s')
  {
    hide ProcessOk, Grown;
    forall k | k in s'.processes ensures ProcessOk(s', s'.processes[k]) {
      ProcessStays(s, s', s.processes[k]) by { GrownAnswers(s, s'); }
    }
  }

  lemma GrownAnswers(s: System, s': System)
    requires Grown(s, s')
    ensures s.responses <= s'.responses && forall a :: a in s.tables.agents ==> a in s'.tables.agents
  {}

  lemma ProcessStays(s: System, s': System, p: Process)
    requires ProcessOk(s, p) && s.responses <= s'.responses
    requires forall a :: a in s.tables.agents ==> a in s'.tables.agents
    ensures ProcessOk(s', p)
  {
    hide Y.Normalized;
    if p.memory.accepted.Some? {
      var d :| Accepted(s, p, d);
      assert Accepted(s', p, d);
    }
  }

  /** Rows that did not change keep being served. */
  lemma ServedStays(s: System, s': System, row: Route, row': Route)
    requires Grown(s, s') && exists q :: ServedBy(s, row, q)
    requires Y.NormalizedRoute(row) == Y.NormalizedRoute(row')
    ensures exists q :: ServedBy(s', row', q)
  {
    var q :| ServedBy(s, row, q);
    SameTargetServes(s.passes[q].after, row, row');
    assert ServedBy(s', row', q);
  }

  lemma SameTargetServes(state: R.State, a: Route, b: Route)
    requires Y.NormalizedRoute(a) == Y.NormalizedRoute(b)
    ensures P.Serves(state, a) <==> P.Serves(state, b)
    ensures a.id == b.id && a.clientId == b.clientId && a.enabled == b.enabled && a.desiredRevision == b.desiredRevision
  {
    var n, m := Y.NormalizedRoute(a), Y.NormalizedRoute(b);
    assert n.id == a.id && n.protocol == a.protocol && n.localHost == a.localHost
      && n.localPort == a.localPort && n.remotePort == a.remotePort;
    assert m.id == b.id && m.protocol == b.protocol && m.localHost == b.localHost
      && m.localPort == b.localPort && m.remotePort == b.remotePort;
  }
}
