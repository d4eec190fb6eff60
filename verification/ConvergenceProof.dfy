/** Every step of the system keeps its invariant, so a published route is one that a pass of its agent has forwarded, as
    far as the agent's own record goes. */
module ConvergenceProof {
  import opened Results
  import opened Routes
  import opened RouteStore
  import opened StoreInvariants
  import opened Convergence
  import R = Reconciler
  import P = ReconcilerProperties
  import Y = Syncer

  // ---- Administrative writes ----

  /** A row just written: at its owner's new revision, and not yet observed there. */
  predicate JustWritten(t: Tables, t': Tables, row: Route) {
    && row.clientId in t.agents && row.clientId in t'.agents
    && row.desiredRevision == t'.agents[row.clientId].desiredRevision == t.agents[row.clientId].desiredRevision + 1
    && !UpToDate(row)
  }

  /** A write changes rows only of an agent whose revision it advances by one. */
  ghost predicate AdminEffect(t: Tables, t': Tables) {
    && (forall a :: a in t.agents ==>
          && a in t'.agents
          && t.agents[a].desiredRevision <= t'.agents[a].desiredRevision <= t.agents[a].desiredRevision + 1)
    && (forall a :: a in t'.agents && a !in t.agents ==> t'.agents[a].desiredRevision == 0)
    && (forall id :: id in t'.routes ==>
          JustWritten(t, t', t'.routes[id]) || (id in t.routes && t.routes[id] == t'.routes[id]))
    && (forall a :: a in t.agents && t.agents[a].desiredRevision == t'.agents[a].desiredRevision ==>
          ConfigOf(t', a) == ConfigOf(t, a))
  }

  lemma NoEffect(t: Tables)
    ensures AdminEffect(t, t)
  {}

  lemma WrittenEffect(t: Tables, options: Options, id: string, row: Route)
    requires TablesOk(t, options) && RowFits(t, options, id, row)
    requires row.observedRevision < row.desiredRevision
    ensures AdminEffect(t, Written(t, id, row))
  {
    hide Canonical, PublicPortAvailable, EndpointAvailable, Y.NormalizedRoute, EndpointsDistinct, RemotePortsDistinct,
      RevisionsBounded;
    var t' := Written(t, id, row);
    forall a | a in t.agents && a != row.clientId ensures ConfigOf(t', a) == ConfigOf(t, a) {
      assert forall k :: k in t'.routes && t'.routes[k].clientId == a <==> k in t.routes && t.routes[k].clientId == a;
    }
  }

  lemma DeletedEffect(t: Tables, options: Options, id: string)
    requires TablesOk(t, options) && id in t.routes
    ensures AdminEffect(t, Bumped(t, t.routes[id].clientId).(routes := t.routes - {id}))
  {
    hide Canonical, Y.NormalizedRoute, EndpointsDistinct, RemotePortsDistinct, RevisionsBounded;
    var t' := Bumped(t, t.routes[id].clientId).(routes := t.routes - {id});
    forall a | a in t.agents && a != t.routes[id].clientId ensures ConfigOf(t', a) == ConfigOf(t, a) {
      assert forall k :: k in t'.routes && t'.routes[k].clientId == a <==> k in t.routes && t.routes[k].clientId == a;
    }
  }

  lemma ExecuteEffect(t: Tables, options: Options, c: Command)
    requires TablesOk(t, options) && !c.SendHeartbeat?
    ensures AdminEffect(t, Execute(t, options, c))
  {
    hide Create, Update, Delete, TablesOk, RowFits, AdminEffect;
    NoEffect(t);
    match c
    case Enroll(a) => EnrollEffect(t, options, a);
    case CreateRoute(route, id, bindable, now) =>
      if id != "" {
        CreateWritesOrLeaves(t, options, route, id, bindable, now);
        var result := Create(t, options, route, id, bindable, now).1;
        if result.Ok? {
          RowIsNew(t, options, id, result.value);
          WrittenEffect(t, options, id, result.value);
        }
      }
    case UpdateRoute(id, update, now) =>
      UpdateWritesOrLeaves(t, options, id, update, now);
      var result := Update(t, id, update, now).1;
      if result.Ok? { WrittenEffect(t, options, id, result.value); }
    case DeleteRoute(id) =>
      DeleteKeeps(t, options, id);
      if id in t.routes && Delete(t, id).1.Ok? { DeletedEffect(t, options, id); }
  }

  lemma RowIsNew(t: Tables, options: Options, id: string, row: Route)
    requires TablesOk(t, options) && RowFits(t, options, id, row) && row.observedRevision == 0
    ensures row.observedRevision < row.desiredRevision
  {
    hide Canonical;
  }

  lemma EnrollEffect(t: Tables, options: Options, a: string)
    requires TablesOk(t, options)
    ensures AdminEffect(t, Execute(t, options, Enroll(a)))
  {
    hide Canonical, Y.NormalizedRoute;
  }

  /** After a write an agent's history ends in its present configuration and is otherwise what it was. */
  lemma RecordedShape(s: System, t': Tables, a: string)
    requires HistoryComplete(s) && AdminEffect(s.tables, t') && a in t'.agents
    ensures var h' := Recorded(s.history, s.tables, t');
      && a in h' && 0 < |h'[a]| == t'.agents[a].desiredRevision + 1
      && h'[a][|h'[a]| - 1] == ConfigOf(t', a)
      && (a in s.history ==> s.history[a] <= h'[a])
      && (|h'[a]| > 1 ==> a in s.history && |h'[a]| - 1 <= |s.history[a]|)
  {
    hide ConfigOf;
  }

  lemma AdminGrows(s: System, t': Tables)
    requires HistoryComplete(s) && AdminEffect(s.tables, t')
    ensures var s' := s.(tables := t', history := Recorded(s.history, s.tables, t'));
      Grown(s, s') && HistoryComplete(s')
  {
    hide ConfigOf, Recorded;
    assert Recorded(s.history, s.tables, t').Keys == t'.agents.Keys by { RecordedKeys(s.history, s.tables, t'); }
    forall a | a in t'.agents
      ensures var h' := Recorded(s.history, s.tables, t');
        && a in h' && 0 < |h'[a]| == t'.agents[a].desiredRevision + 1
        && h'[a][|h'[a]| - 1] == ConfigOf(t', a)
        && (a in s.history ==> s.history[a] <= h'[a])
    {
      RecordedShape(s, t', a);
    }
  }

  lemma RecordedKeys(h: map<string, seq<Config>>, t: Tables, t': Tables)
    ensures Recorded(h, t, t').Keys == t'.agents.Keys
  {
    hide ConfigOf;
  }

  lemma AdminStable(s: System, options: Options, t': Tables)
    requires HistoryComplete(s) && RowsStable(s) && AdminEffect(s.tables, t')
    requires forall id :: id in t'.routes ==> t'.routes[id].id == id && t'.routes[id].clientId in t'.agents
    ensures RowsStable(s.(tables := t', history := Recorded(s.history, s.tables, t')))
  {
    hide Y.NormalizedRoute, Recorded, HistoryComplete;
    var s' := s.(tables := t', history := Recorded(s.history, s.tables, t'));
    forall id, k | id in t'.routes && RevisionSince(s', t'.routes[id], k)
      ensures SameSince(s'.history[t'.routes[id].clientId][k], t'.routes[id])
    {
      var row, a := t'.routes[id], t'.routes[id].clientId;
      RecordedShape(s, t', a);
      if k == |s'.history[a]| - 1 {
        LastShowsCurrent(t', id);
      } else {
        assert !JustWritten(s.tables, t', row);
        assert RevisionSince(s, row, k);
      }
    }
  }

  lemma LastShowsCurrent(t: Tables, id: string)
    requires id in t.routes && t.routes[id].id == id
    ensures SameSince(ConfigOf(t, t.routes[id].clientId), t.routes[id])
  {
    hide Y.NormalizedRoute;
  }

  lemma AdminServed(s: System, options: Options, t': Tables)
    requires UpRowsServed(s) && AdminEffect(s.tables, t') && HistoryComplete(s)
    ensures UpRowsServed(s.(tables := t', history := Recorded(s.history, s.tables, t')))
  {
    hide ConfigOf, P.Serves;
    var s' := s.(tables := t', history := Recorded(s.history, s.tables, t'));
    forall id | id in t'.routes && UpToDate(t'.routes[id]) ensures exists q :: ServedBy(s', t'.routes[id], q) {
      var q :| ServedBy(s, s.tables.routes[id], q);
      assert ServedBy(s', t'.routes[id], q);
    }
  }

  lemma RowIdentities(t: Tables, options: Options)
    requires TablesOk(t, options)
    ensures forall id :: id in t.routes ==> t.routes[id].id == id && t.routes[id].clientId in t.agents
  {
    hide Canonical;
  }

  lemma AdminKeeps(s: System, options: Options, c: Command)
    requires Inv(s, options) && !c.SendHeartbeat?
    ensures Inv(Next(s, options, Admin(c)), options)
  {
    hide TablesOk, HistoryComplete, RowsStable, ResponsesShowHistory, ProcessesOk, ReportsBacked, UpRowsServed,
      Execute, Recorded, AdminEffect, Grown;
    var t' := Execute(s.tables, options, c);
    var s' := Next(s, options, Admin(c));
    ExecuteKeeps(s.tables, options, c);
    ExecuteEffect(s.tables, options, c);
    AdminGrows(s, t');
    RowIdentities(t', options);
    AdminStable(s, options, t');
    AdminServed(s, options, t');
    GrownResponses(s, s');
    GrownReports(s, s');
    GrownProcesses(s, s');
  }

  // ---- Delivering a report ----

  /** Where a row's observation comes from: it is as before, or a matching observation wrote it. */
  predicate WrittenBy(before: Route, after: Route, agentId: string, o: Observation) {
    && o.routeId == before.id && before.clientId == agentId && before.desiredRevision <= o.observedRevision
    && after.observedRevision == o.observedRevision && after.tunnelStatus == o.tunnelStatus
  }

  lemma {:induction false} ObserveAllWrites(
      routes: map<string, Route>, agentId: string, os: seq<Observation>, now: int, id: string)
    requires id in routes && routes[id].id == id
    ensures id in ObserveAll(routes, agentId, os, now)
    ensures Y.NormalizedRoute(ObserveAll(routes, agentId, os, now)[id]) == Y.NormalizedRoute(routes[id])
    ensures ObserveAll(routes, agentId, os, now)[id] == routes[id]
      || exists i :: 0 <= i < |os| && WrittenBy(routes[id], ObserveAll(routes, agentId, os, now)[id], agentId, os[i])
  {
    if os != [] {
      ObserveAllWrites(routes, agentId, os[..|os| - 1], now, id);
      var earlier := ObserveAll(routes, agentId, os[..|os| - 1], now);
      var last := os[|os| - 1];
      var later := Observe(earlier, agentId, last, now);
      SameButObserved(routes[id], earlier[id]);
      if last.routeId == id && later[id] != earlier[id] {
        assert WrittenBy(routes[id], later[id], agentId, os[|os| - 1]);
      } else if earlier[id] != routes[id] {
        var i :| 0 <= i < |os| - 1 && WrittenBy(routes[id], earlier[id], agentId, os[..|os| - 1][i]);
        assert WrittenBy(routes[id], later[id], agentId, os[i]);
      }
    }
  }

  lemma SameButObserved(a: Route, b: Route)
    requires Y.NormalizedRoute(a) == Y.NormalizedRoute(b)
    ensures a.id == b.id && a.clientId == b.clientId && a.desiredRevision == b.desiredRevision
  {
    var n, m := Y.NormalizedRoute(a), Y.NormalizedRoute(b);
    assert n.id == a.id && n.clientId == a.clientId && n.desiredRevision == a.desiredRevision;
    assert m.id == b.id && m.clientId == b.clientId && m.desiredRevision == b.desiredRevision;
  }

  /** A heartbeat leaves configurations and revisions as they are. */
  ghost predicate HeartbeatEffect(t: Tables, t': Tables) {
    && t'.agents.Keys == t.agents.Keys && t'.routes.Keys == t.routes.Keys
    && (forall a :: a in t.agents ==> t'.agents[a].desiredRevision == t.agents[a].desiredRevision)
    && (forall id :: id in t.routes ==> Y.NormalizedRoute(t'.routes[id]) == Y.NormalizedRoute(t.routes[id]))
  }

  lemma HeartbeatHasEffect(t: Tables, options: Options, agentId: string, revision: int, os: seq<Observation>, now: int)
    requires TablesOk(t, options)
    ensures HeartbeatEffect(t, Heartbeat(t, agentId, revision, os, now).0)
  {
    hide ObserveAll, Canonical, Y.NormalizedRoute;
    HeartbeatKeeps(t, options, agentId, revision, os, now);
    forall id | id in t.routes
      ensures Y.NormalizedRoute(Heartbeat(t, agentId, revision, os, now).0.routes[id]) == Y.NormalizedRoute(t.routes[id])
    {
      ObserveAllWrites(t.routes, agentId, os, now, id);
    }
  }

  lemma EffectKeepsIdentity(t: Tables, t': Tables)
    requires HeartbeatEffect(t, t')
    ensures forall id :: id in t.routes ==>
      && t'.routes[id].id == t.routes[id].id && t'.routes[id].clientId == t.routes[id].clientId
      && t'.routes[id].desiredRevision == t.routes[id].desiredRevision
  {
    hide Y.NormalizedRoute;
    forall id | id in t.routes
      ensures t'.routes[id].id == t.routes[id].id && t'.routes[id].clientId == t.routes[id].clientId
      ensures t'.routes[id].desiredRevision == t.routes[id].desiredRevision
    {
      SameButObserved(t'.routes[id], t.routes[id]);
    }
  }

  lemma HeartbeatKeepsHistory(s: System, t': Tables)
    requires HistoryComplete(s) && HeartbeatEffect(s.tables, t')
    ensures HistoryComplete(s.(tables := t')) && Grown(s, s.(tables := t'))
  {
    hide Y.NormalizedRoute;
    EffectKeepsIdentity(s.tables, t');
    forall a | a in t'.agents ensures ConfigOf(t', a) == ConfigOf(s.tables, a) {}
    hide ConfigOf;
  }

  lemma HeartbeatStable(s: System, t': Tables)
    requires RowsStable(s) && HeartbeatEffect(s.tables, t')
    ensures RowsStable(s.(tables := t'))
  {
    hide Y.NormalizedRoute;
    var s' := s.(tables := t');
    EffectKeepsIdentity(s.tables, t');
    forall id, k | id in t'.routes && RevisionSince(s', t'.routes[id], k)
      ensures SameSince(s'.history[t'.routes[id].clientId][k], t'.routes[id])
    {
      assert RevisionSince(s, s.tables.routes[id], k);
    }
  }

  /** The heart of the matter: what an accepted report calls up is served as the row now is. */
  lemma DeliveredIsServed(s: System, options: Options, r: Report, now: int, id: string)
    requires Inv(s, options) && r in s.reports && id in s.tables.routes
    requires var row := Heartbeat(s.tables, r.agentId, r.observed.revision, Observations(r.observed), now).0.routes;
      id in row && UpToDate(row[id])
    ensures exists q :: ServedBy(s, s.tables.routes[id], q)
  {
    hide TablesOk, ResponsesShowHistory, ProcessesOk, ObserveAll, P.Serves, Y.NormalizedRoute, HistoryComplete;
    var os, before := Observations(r.observed), s.tables.routes[id];
    RowIdentity(s.tables, options, id);
    var after := Heartbeat(s.tables, r.agentId, r.observed.revision, os, now).0.routes[id];
    ObserveAllWrites(s.tables.routes, r.agentId, os, now, id);
    if after != before {
      var i :| 0 <= i < |os| && WrittenBy(before, after, r.agentId, os[i]);
      var rho, q :| Backed(s, r, rho, q);
      assert os[i].tunnelStatus == "up" && r.observed.routes[i].tunnelStatus == "up";
      assert RevisionSince(s, before, rho);
      assert SameSince(s.history[r.agentId][rho], before);
      SameTargetServes(s.passes[q].after, s.history[r.agentId][rho][id], before) by {
        NormalizedTwice(before);
      }
      assert ServedBy(s, before, q);
    }
  }

  lemma NormalizedTwice(r: Route)
    ensures Y.NormalizedRoute(Y.NormalizedRoute(r)) == Y.NormalizedRoute(r)
  {}

  lemma RowIdentity(t: Tables, options: Options, id: string)
    requires TablesOk(t, options) && id in t.routes
    ensures t.routes[id].id == id && 0 < t.routes[id].desiredRevision && t.routes[id].clientId in t.agents
  {
    hide Canonical;
  }

  lemma DeliverKeeps(s: System, options: Options, r: Report, now: int)
    requires Inv(s, options)
    ensures Inv(Next(s, options, Deliver(r, now)), options)
  {
    hide TablesOk, HistoryComplete, RowsStable, ResponsesShowHistory, ProcessesOk, ReportsBacked,
      Heartbeat, Grown, HeartbeatEffect, P.Serves;
    if r in s.reports {
      var os := Observations(r.observed);
      var s' := Next(s, options, Deliver(r, now));
      HeartbeatKeeps(s.tables, options, r.agentId, r.observed.revision, os, now);
      HeartbeatHasEffect(s.tables, options, r.agentId, r.observed.revision, os, now);
      HeartbeatKeepsHistory(s, s'.tables);
      HeartbeatStable(s, s'.tables);
      GrownResponses(s, s');
      GrownReports(s, s');
      GrownProcesses(s, s');
      forall id | id in s'.tables.routes && UpToDate(s'.tables.routes[id])
        ensures exists q :: ServedBy(s', s'.tables.routes[id], q)
      {
        EffectKeepsContent(s.tables, s'.tables, id);
        DeliveredIsServed(s, options, r, now, id);
        ServedStays(s, s', s.tables.routes[id], s'.tables.routes[id]);
      }
    }
  }

  lemma EffectKeepsContent(t: Tables, t': Tables, id: string)
    requires HeartbeatEffect(t, t') && id in t'.routes
    ensures id in t.routes && Y.NormalizedRoute(t.routes[id]) == Y.NormalizedRoute(t'.routes[id])
  {}

  // ---- Fetching ----

  lemma ListedShows(t: Tables, options: Options, agentId: string, order: seq<string>)
    requires TablesOk(t, options) && IsListing(t, agentId, order)
    ensures Shows(Listed(t, order), ConfigOf(t, agentId))
  {
    hide Canonical, EndpointsDistinct, RemotePortsDistinct, RevisionsBounded;
    forall i | 0 <= i < |order|
      ensures Listed(t, order)[i].id != ""
      ensures Canonical(Listed(t, order)[i]) && SameSince(ConfigOf(t, agentId), Listed(t, order)[i])
    {
      CanonicalIgnoresRowState(t.routes[order[i]], Joined(t, order[i]));
    }
  }

  lemma FetchKeeps(s: System, options: Options, a: Action)
    requires Inv(s, options) && (a.ReadRevision? || a.ReadRoutes?)
    ensures Inv(Next(s, options, a), options)
  {
    hide TablesOk, RowsStable, ProcessOk, Backed, ServedBy, Shows, ConfigOf, HistoryComplete;
    var s' := Next(s, options, a);
    SameHistory(s, s');
    if a.ReadRevision? {
      HistoryLength(s, a.agentId, options);
    } else if s' != s {
      var r := Response(a.read.agentId, R.Desired(a.read.revision, Listed(s.tables, a.order)));
      ListedShows(s.tables, options, a.read.agentId, a.order);
      HistoryLength(s, a.read.agentId, options);
      assert ShowsRevision(s', r.agentId, r.desired, |s.history[r.agentId]| - 1);
    }
    forall r | r in s.responses ensures exists rho :: ShowsRevision(s', r.agentId, r.desired, rho) {
      var rho :| ShowsRevision(s, r.agentId, r.desired, rho);
      assert ShowsRevision(s', r.agentId, r.desired, rho);
    }
  }

  lemma HistoryLength(s: System, a: string, options: Options)
    requires Inv(s, options)
    ensures a in s.tables.agents ==>
      && 0 <= s.tables.agents[a].desiredRevision
      && a in s.history && |s.history[a]| == s.tables.agents[a].desiredRevision + 1
      && s.history[a][|s.history[a]| - 1] == ConfigOf(s.tables, a)
  {
    hide TablesOk, RowsStable, ResponsesShowHistory, ProcessesOk, ReportsBacked, UpRowsServed, ConfigOf;
  }

  /** Steps that only add fetched data keep every other part of the invariant. */
  lemma SameHistory(s: System, s': System)
    requires s' == s.(pending := s'.pending, responses := s'.responses) && s.responses <= s'.responses
    ensures HistoryComplete(s) ==> HistoryComplete(s')
    ensures RowsStable(s) ==> RowsStable(s')
    ensures ProcessesOk(s) ==> ProcessesOk(s')
    ensures ReportsBacked(s) ==> ReportsBacked(s')
    ensures UpRowsServed(s) ==> UpRowsServed(s')
  {
    hide P.Serves, ConfigOf, Y.NormalizedRoute, ProcessOk;
    if ProcessesOk(s) {
      forall k | k in s'.processes ensures ProcessOk(s', s'.processes[k]) { ProcessStays(s, s', s.processes[k]); }
    }
    if ReportsBacked(s) {
      forall r | r in s'.reports ensures exists rho, q :: Backed(s', r, rho, q) {
        var rho, q :| Backed(s, r, rho, q);
        assert Backed(s', r, rho, q);
      }
    }
    if UpRowsServed(s) {
      forall id | id in s'.tables.routes && UpToDate(s'.tables.routes[id])
        ensures exists q :: ServedBy(s', s'.tables.routes[id], q)
      {
        var q :| ServedBy(s, s.tables.routes[id], q);
        assert ServedBy(s', s'.tables.routes[id], q);
      }
    }
  }

  // ---- Agent processes ----

  /** One process changes and passes and reports are added. */
  ghost predicate AgentEffect(s: System, s': System) {
    && s' == s.(processes := s'.processes, passes := s'.passes, reports := s'.reports)
    && s.passes <= s'.passes && s.reports <= s'.reports
    && (forall k :: k in s'.processes ==>
          (k in s.processes && s'.processes[k] == s.processes[k]) || ProcessOk(s', s'.processes[k]))
    && (forall r :: r in s'.reports ==> r in s.reports || exists rho, q :: Backed(s', r, rho, q))
  }

  lemma AgentEffectKeeps(s: System, s': System, options: Options)
    requires Inv(s, options) && AgentEffect(s, s')
    ensures Inv(s', options)
  {
    hide TablesOk, P.Serves, ConfigOf, Y.NormalizedRoute, Shows, ProcessOk;
    forall k | k in s'.processes ensures ProcessOk(s', s'.processes[k]) {
      if k in s.processes && s'.processes[k] == s.processes[k] { ProcessStays(s, s', s.processes[k]); }
    }
    forall r | r in s'.reports ensures exists rho, q :: Backed(s', r, rho, q) {
      if r in s.reports {
        var rho, q :| Backed(s, r, rho, q);
        BackedGrows(s, s', r, rho, q);
      }
    }
    forall id | id in s'.tables.routes && UpToDate(s'.tables.routes[id])
      ensures exists q :: ServedBy(s', s'.tables.routes[id], q)
    {
      var q :| ServedBy(s, s.tables.routes[id], q);
      assert ServedBy(s', s'.tables.routes[id], q);
    }
    GrownResponses(s, s');
  }

  lemma StartKeeps(s: System, options: Options, a: Action)
    requires Inv(s, options) && a.StartProcess?
    ensures Inv(Next(s, options, a), options)
  {
    hide TablesOk, HistoryComplete, RowsStable, ResponsesShowHistory, ReportsBacked, UpRowsServed, ProcessesOk, Backed;
    var s' := Next(s, options, a);
    assert AgentEffect(s, s');
    AgentEffectKeeps(s, s', options);
  }

  /** A reconciler's revision after a pass is its own old one or the one it was given. */
  lemma RevisionAfterPass(rec: R.State, desired: R.Desired, env: R.PassEnv)
    ensures var o := R.ReconcilePass(rec, desired, env);
      o.revision == o.s.observedRevision && (o.revision == rec.observedRevision || o.revision == desired.revision)
  {
    hide R.ReconcilePass, P.Wanted, P.FirstRoute;
    P.AdvanceLeavesNoStaleForward(rec, desired, env);
  }

  /** A synchronization keeps a process from running ahead of what it accepted. */
  lemma MemoryAfterStep(s: System, p: Process, a: Action)
    requires a.Synchronize? && ProcessOk(s, p)
    requires a.event.fetch.Fetched? ==> Response(p.agentId, a.event.fetch.desired) in s.responses
    ensures var (memory, handed) := Y.Step(p.memory, a.ttl, a.event);
      && ProcessOk(s, p.(memory := memory))
      && (a.event.fetch.Fetched? && handed.Some? ==> handed.value.desired == a.event.fetch.desired)
      && (handed.Some? ==>
            && Response(p.agentId, handed.value.desired) in s.responses
            && memory.accepted == Some(Y.Normalized(handed.value.desired))
            && p.rec.observedRevision <= handed.value.desired.revision)
  {
    hide Y.NormalizedRoutes;
    var (memory, handed) := Y.Step(p.memory, a.ttl, a.event);
    if handed.Some? {
      assert Accepted(s, p.(memory := memory), handed.value.desired);
    } else if p.memory.accepted.Some? {
      var d :| Accepted(s, p, d);
      assert Accepted(s, p.(memory := memory), d);
    }
  }

  /** A reconciler that counts on no master has nothing recorded, after any pass. */
  lemma PassStaysReady(rec: R.State, desired: R.Desired, env: R.PassEnv)
    requires P.ReadyOrIdle(rec)
    ensures P.ReadyOrIdle(R.ReconcilePass(rec, desired, env).s)
  {
    hide R.HandleAll, R.Swept, P.Settled, P.UpReportsHold;
    if !R.MasterUnknown(rec, env) {
      P.LoopSettles(R.AfterCheck(rec, env), desired.routes, env);
      P.SweepKeepsSeen(P.LoopOf(rec, desired, env), env);
    }
  }

  lemma PassedProcess(s: System, s': System, p: Process, memory: Y.Memory, desired: R.Desired, env: R.PassEnv)
    requires ProcessOk(s, p.(memory := memory)) && s'.responses == s.responses && s'.tables == s.tables
    requires memory.accepted.Some? && p.rec.observedRevision <= desired.revision == memory.accepted.value.revision
    ensures ProcessOk(s', Process(p.agentId, memory, R.ReconcilePass(p.rec, desired, env).s))
  {
    hide R.ReconcilePass, P.ReadyOrIdle, Y.Normalized;
    RevisionAfterPass(p.rec, desired, env);
    PassStaysReady(p.rec, desired, env);
    var d :| Accepted(s, p.(memory := memory), d);
    assert Accepted(s', Process(p.agentId, memory, R.ReconcilePass(p.rec, desired, env).s), d);
  }

  /** The fresh report of a pass is backed by that pass and by the configuration its fetch showed. */
  lemma FreshReportBacked(s: System, s': System, options: Options, p: Process, a: Action, desired: R.Desired)
    requires Inv(s, options) && a.Synchronize?
    requires Response(p.agentId, desired) in s.responses && p.rec.observedRevision <= desired.revision
    requires var o := R.ReconcilePass(p.rec, desired, a.env);
      R.ErrorReportsFor(a.tail, o.lastIds, o.lastLocal)
      && s'.passes == s.passes + [PassRecord(p.agentId, o.s)] && s'.history == s.history
    ensures var o := R.ReconcilePass(p.rec, desired, a.env);
      exists rho, q :: Backed(s', Report(p.agentId, R.Observed(o.revision, o.reports + a.tail)), rho, q)
  {
    hide TablesOk, HistoryComplete, RowsStable, ProcessesOk, ReportsBacked, UpRowsServed, R.ReconcilePass, P.Serves,
      Y.NormalizedRoute, P.FirstRoute, Validate;
    var o := R.ReconcilePass(p.rec, desired, a.env);
    RevisionAfterPass(p.rec, desired, a.env);
    var rho :| ShowsRevision(s, p.agentId, desired, rho);
    var config, r := s.history[p.agentId][rho], Report(p.agentId, R.Observed(o.revision, o.reports + a.tail));
    forall i | 0 <= i < |r.observed.routes| && r.observed.routes[i].tunnelStatus == "up"
      ensures var id := r.observed.routes[i].routeId;
        id in config && config[id].id == id && P.Serves(o.s, config[id])
    {
      assert i < |o.reports| && r.observed.routes[i] == o.reports[i];
      UpReportShown(p.rec, desired, a.env, i, config);
    }
    assert Backed(s', r, rho, |s.passes|);
  }

  lemma UpReportShown(rec: R.State, desired: R.Desired, env: R.PassEnv, i: nat, config: Config)
    requires Shows(desired.routes, config)
    requires var o := R.ReconcilePass(rec, desired, env); i < |o.reports| && o.reports[i].tunnelStatus == "up"
    ensures var o := R.ReconcilePass(rec, desired, env);
      var id := o.reports[i].routeId;
      id in config && config[id].id == id && P.Serves(o.s, config[id])
  {
    hide R.ReconcilePass, P.Serves, Y.NormalizedRoute, P.FirstRoute, Validate;
    var o := R.ReconcilePass(rec, desired, env);
    P.UpMeansServed(rec, desired, env, i);
    P.FirstRouteInIds(desired.routes, o.reports[i].routeId);
    var route := P.FirstRoute(desired.routes, o.reports[i].routeId).value;
    NormalizedTwice(route);
    SameTargetServes(o.s, config[route.id], route);
  }

  lemma SynchronizeKeeps(s: System, options: Options, a: Action)
    requires Inv(s, options) && a.Synchronize?
    ensures Inv(Next(s, options, a), options)
  {
    hide TablesOk, HistoryComplete, RowsStable, ResponsesShowHistory, ReportsBacked, UpRowsServed, Backed, ProcessOk,
      R.ReconcilePass, R.ErrorReportsFor, Y.Step, Y.Normalized;
    var s' := Next(s, options, a);
    if s' != s {
      var p := s.processes[a.process];
      MemoryAfterStep(s, p, a);
      var (memory, handed) := Y.Step(p.memory, a.ttl, a.event);
      if handed.Some? {
        var desired := handed.value.desired;
        var o := R.ReconcilePass(p.rec, desired, a.env);
        Y.NormalizedRevision(desired);
        PassedProcess(s, s', p, memory, desired, a.env);
        if !handed.value.replay { FreshReportBacked(s, s', options, p, a, desired); }
      } else {
        ProcessStays(s, s', p.(memory := memory));
      }
      assert AgentEffect(s, s');
      AgentEffectKeeps(s, s', options);
    }
  }

  // ---- Every run ----

  lemma NextKeeps(s: System, options: Options, a: Action)
    requires Inv(s, options)
    ensures Inv(Next(s, options, a), options)
  {
    hide Inv, Next;
    match a
    case Admin(command) =>
      if command.SendHeartbeat? { NoHeartbeatCommand(s, options, command); } else { AdminKeeps(s, options, command); }
    case ReadRevision(_) => FetchKeeps(s, options, a);
    case ReadRoutes(_, _) => FetchKeeps(s, options, a);
    case StartProcess(_, _, _, _, _) => StartKeeps(s, options, a);
    case Synchronize(_, _, _, _, _) => SynchronizeKeeps(s, options, a);
    case Deliver(report, now) => DeliverKeeps(s, options, report, now);
  }

  lemma NoHeartbeatCommand(s: System, options: Options, command: Command)
    requires command.SendHeartbeat?
    ensures Next(s, options, Admin(command)) == s
  {}

  lemma {:induction false} RunKeeps(options: Options, actions: seq<Action>)
    ensures Inv(SystemAfter(options, actions), options)
  {
    if actions == [] {
      EmptyTablesOk(options);
    } else {
      hide Inv, Next;
      RunKeeps(options, actions[..|actions| - 1]);
      NextKeeps(SystemAfter(options, actions[..|actions| - 1]), options, actions[|actions| - 1]);
    }
  }

  /** In every run, a finished reconcile pass of its owner has recorded for a converged row the forward, remote port and
      local target, that the row now asks for. When the master held it too is the matter of ConvergenceHeld. */
  lemma ConvergedMeansForwarded(options: Options, actions: seq<Action>, id: string)
    requires id in SystemAfter(options, actions).tables.routes
    requires Converged(SystemAfter(options, actions).tables.routes[id])
    ensures var s := SystemAfter(options, actions);
      exists q :: ServedBy(s, s.tables.routes[id], q)
  {
    hide SystemAfter, ServedBy, TablesOk, HistoryComplete, RowsStable, ResponsesShowHistory, ProcessesOk, ReportsBacked;
    RunKeeps(options, actions);
    assert UpToDate(SystemAfter(options, actions).tables.routes[id]);
  }

  /** So no edge ever publishes a route whose present target no pass of its agent has recorded as forwarded. */
  lemma PublishedMeansForwarded(options: Options, actions: seq<Action>, id: string, now: int)
    requires id in SystemAfter(options, actions).tables.routes
    requires PublicationReadyAt(Joined(SystemAfter(options, actions).tables, id), now)
    ensures var s := SystemAfter(options, actions);
      exists q :: ServedBy(s, s.tables.routes[id], q)
  {
    hide SystemAfter, ServedBy;
    ConvergedMeansForwarded(options, actions, id);
  }
}
