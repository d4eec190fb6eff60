/** What every reachable pair of tables satisfies, whatever writes and heartbeats produced it. */
module StoreInvariants {
  import opened Results
  import opened Routes
  import opened RouteStore

  /** No row's endpoint or public port collides with another row's. */
  predicate EndpointsDistinct(routes: map<string, Route>) {
    forall a, b :: a in routes && b in routes && a != b ==>
      !SameEndpoint(routes[a], routes[b]) && !PortClash(routes[a], routes[b])
  }

  predicate RemotePortsDistinct(routes: map<string, Route>, options: Options) {
    && (forall a, b :: a in routes && b in routes && a != b ==> routes[a].remotePort != routes[b].remotePort)
    && (forall a :: a in routes ==> options.portStart <= routes[a].remotePort <= options.portEnd)
  }

  predicate RowsWellFormed(t: Tables) {
    forall id :: id in t.routes ==>
      id != "" && t.routes[id].id == id && t.routes[id].clientId in t.agents && Canonical(t.routes[id])
  }

  predicate RowRevisions(r: Route, agent: AgentRow) {
    0 < r.desiredRevision <= agent.desiredRevision && 0 <= r.observedRevision <= agent.desiredRevision
  }

  predicate RevisionsBounded(t: Tables) {
    && (forall a :: a in t.agents ==> 0 <= t.agents[a].observedRevision <= t.agents[a].desiredRevision)
    && (forall id :: id in t.routes ==>
          t.routes[id].clientId in t.agents && RowRevisions(t.routes[id], t.agents[t.routes[id].clientId]))
    && (forall x, y :: x in t.routes && y in t.routes && x != y && t.routes[x].clientId == t.routes[y].clientId ==>
          t.routes[x].desiredRevision != t.routes[y].desiredRevision)
  }

  ghost predicate TablesOk(t: Tables, options: Options) {
    && RowsWellFormed(t)
    && RevisionsBounded(t)
    && EndpointsDistinct(t.routes)
    && RemotePortsDistinct(t.routes, options)
  }

  lemma ClashIsSymmetric(a: Route, b: Route)
    requires a.protocol.IsWeb() || a.protocol.IsStream()
    requires b.protocol.IsWeb() || b.protocol.IsStream()
    ensures PortClash(a, b) <==> PortClash(b, a)
    ensures SameEndpoint(a, b) <==> SameEndpoint(b, a)
  {}

  /** The allocated port is the least free one; None means that every port of the range is taken. */
  lemma {:induction false} AllocatePortIsLeast(routes: map<string, Route>, bindable: set<int>, first: int, last: int)
    ensures match AllocatePort(routes, bindable, first, last)
      case Some(p) =>
        && first <= p <= last && p in bindable && !RemotePortUsed(routes, p)
        && forall q :: first <= q < p ==> q !in bindable || RemotePortUsed(routes, q)
      case None => forall q :: first <= q <= last ==> q !in bindable || RemotePortUsed(routes, q)
    decreases last - first + 1
  {
    if first <= last && (RemotePortUsed(routes, first) || first !in bindable) {
      AllocatePortIsLeast(routes, bindable, first + 1, last);
    }
  }

  lemma CanonicalIgnoresRowState(r: Route, s: Route)
    requires Canonical(r)
    requires s == r.(id := s.id, clientId := s.clientId, remotePort := s.remotePort,
      enabled := s.enabled, desiredRevision := s.desiredRevision, observedRevision := s.observedRevision,
      localStatus := s.localStatus, tunnelStatus := s.tunnelStatus, lastError := s.lastError,
      agentLastSeenAt := s.agentLastSeenAt, publicStatus := s.publicStatus,
      createdAt := s.createdAt, updatedAt := s.updatedAt)
    ensures Canonical(s)
  {
    hide Validate, Hosts.NormalizeHost, Hosts.NormalizeDNSHost, NormalizePathPrefix, Hosts.ValidHost, Text.TrimSpace;
    CanonicalIffFields(r);
    CanonicalIffFields(s);
  }

  // ---- One row written at the owner's next revision ----

  /** A committed write: one row at the owner's next desired revision. */
  function Written(t: Tables, id: string, row: Route): Tables
    requires row.clientId in t.agents
  {
    Bumped(t, row.clientId).(routes := t.routes[id := row])
  }

  ghost predicate RowFits(t: Tables, options: Options, id: string, row: Route) {
    && id != "" && row.id == id && Canonical(row)
    && row.clientId in t.agents
    && row.desiredRevision == t.agents[row.clientId].desiredRevision + 1
    && 0 <= row.observedRevision <= t.agents[row.clientId].desiredRevision
    && (id in t.routes ==> t.routes[id].clientId == row.clientId)
    && PublicPortAvailable(t.routes, row, id) && EndpointAvailable(t.routes, row, id)
    && options.portStart <= row.remotePort <= options.portEnd
    && forall k :: k in t.routes && k != id ==> t.routes[k].remotePort != row.remotePort
  }

  lemma WrittenEndpointsDistinct(t: Tables, options: Options, id: string, row: Route)
    requires TablesOk(t, options) && RowFits(t, options, id, row)
    ensures EndpointsDistinct(t.routes[id := row])
  {
    hide Validate;
    CanonicalProtocol(row);
    forall k | k in t.routes && k != id
      ensures !SameEndpoint(row, t.routes[k]) && !PortClash(row, t.routes[k])
      ensures !SameEndpoint(t.routes[k], row) && !PortClash(t.routes[k], row)
    {
      CanonicalProtocol(t.routes[k]);
      ClashIsSymmetric(row, t.routes[k]);
    }
  }

  lemma CanonicalProtocol(r: Route)
    requires Canonical(r)
    ensures r.protocol.IsWeb() || r.protocol.IsStream()
  {
    hide Validate;
    CanonicalHasFields(r);
  }

  lemma WrittenRevisionsBounded(t: Tables, options: Options, id: string, row: Route)
    requires TablesOk(t, options) && RowFits(t, options, id, row)
    ensures RevisionsBounded(Written(t, id, row))
  {
    hide Canonical, PublicPortAvailable, EndpointAvailable;
  }

  lemma WrittenKeeps(t: Tables, options: Options, id: string, row: Route)
    requires TablesOk(t, options) && RowFits(t, options, id, row)
    ensures TablesOk(Written(t, id, row), options)
  {
    hide Canonical, PublicPortAvailable, EndpointAvailable, EndpointsDistinct, RevisionsBounded;
    WrittenEndpointsDistinct(t, options, id, row);
    WrittenRevisionsBounded(t, options, id, row);
  }

  /** A create commits one fitting row with the least free remote port, or changes nothing. */
  lemma CreateWritesOrLeaves(t: Tables, options: Options, route: Route, id: string, bindable: set<int>, now: int)
    requires TablesOk(t, options) && id != ""
    ensures var (t', result) := Create(t, options, route, id, bindable, now);
      match result
      case Err(_) => t' == t
      case Ok(row) =>
        && id !in t.routes && RowFits(t, options, id, row) && t' == Written(t, id, row)
        && row.observedRevision == 0 && row.tunnelStatus == ""
        && row.remotePort in bindable
        && forall q :: options.portStart <= q < row.remotePort ==> q !in bindable || RemotePortUsed(t.routes, q)
  {
    hide Validate, PublicPortAvailable, EndpointAvailable, AllocatePort;
    AllocatePortIsLeast(t.routes, bindable, options.portStart, options.portEnd);
    var (t', result) := Create(t, options, route, id, bindable, now);
    if result.Ok? {
      var valid := Validate(route).value;
      var row := result.value;
      ValidateFixed(route);
      CanonicalIgnoresRowState(valid, row);
      AvailabilityIgnoresRowState(t.routes, valid, row, "", id);
      AvailabilityIgnoresRowState(t.routes, row, row, "", id);
    }
  }

  /** Availability depends on a route's place alone, and excluding an absent row excludes nothing. */
  lemma AvailabilityIgnoresRowState(routes: map<string, Route>, a: Route, b: Route, x: string, y: string)
    requires x !in routes && y !in routes
    requires a.protocol == b.protocol && a.domain == b.domain && a.pathPrefix == b.pathPrefix && a.publicPort == b.publicPort
    ensures PublicPortAvailable(routes, a, x) <==> PublicPortAvailable(routes, b, y)
    ensures EndpointAvailable(routes, a, x) <==> EndpointAvailable(routes, b, y)
  {
    forall id | id in routes
      ensures PortClash(a, routes[id]) <==> PortClash(b, routes[id])
      ensures SameEndpoint(a, routes[id]) <==> SameEndpoint(b, routes[id])
    {}
  }

  /** An update commits one fitting row that keeps identity, owner and remote port, or changes nothing. */
  lemma UpdateWritesOrLeaves(t: Tables, options: Options, id: string, update: Route, now: int)
    requires TablesOk(t, options)
    ensures var (t', result) := Update(t, id, update, now);
      match result
      case Err(_) => t' == t
      case Ok(row) =>
        && id in t.routes && RowFits(t, options, id, row) && t' == Written(t, id, row)
        && row.remotePort == t.routes[id].remotePort
        && row.observedRevision == t.routes[id].observedRevision < row.desiredRevision
  {
    hide Validate, PublicPortAvailable, EndpointAvailable;
    var (t', result) := Update(t, id, update, now);
    if result.Ok? {
      var merged := Merged(t.routes[id], update);
      var valid := Validate(merged).value;
      ValidateFixed(merged);
      ValidateKeeps(merged);
      CanonicalIgnoresRowState(valid, result.value);
    }
  }

  /** A delete removes one row and advances its owner, or changes nothing. */
  lemma DeleteKeeps(t: Tables, options: Options, id: string)
    requires TablesOk(t, options)
    ensures var (t', result) := Delete(t, id);
      && TablesOk(t', options)
      && (result.Err? ==> t' == t && id !in t.routes)
      && (result.Ok? ==> id in t.routes && t' == Bumped(t, t.routes[id].clientId).(routes := t.routes - {id}))
  {
    hide Canonical;
  }

  /** After a delete the next created row, whoever owns it, has the remote port of the deleted one exactly when no lower
      port can be had: not when it is still bound by what the deleted row's agent forwards there. */
  lemma DeletedPortIsReused(t: Tables, options: Options, id: string, route: Route, newId: string, bindable: set<int>, now: int)
    requires TablesOk(t, options) && id in t.routes && newId != ""
    requires Create(Delete(t, id).0, options, route, newId, bindable, now).1.Ok?
    ensures var port := t.routes[id].remotePort;
      Create(Delete(t, id).0, options, route, newId, bindable, now).1.value.remotePort == port <==>
        port in bindable && forall q :: options.portStart <= q < port ==> q !in bindable || RemotePortUsed(t.routes, q)
  {
    hide Create, Delete, TablesOk, RowFits;
    DeleteKeeps(t, options, id);
    var t' := Delete(t, id).0;
    CreateWritesOrLeaves(t', options, route, newId, bindable, now);
    PortsAfterDelete(t, options, id);
    var row := Create(t', options, route, newId, bindable, now).1.value;
    FittingPort(t', options, newId, row);
    assert !RemotePortUsed(t'.routes, t.routes[id].remotePort);
  }

  lemma PortsAfterDelete(t: Tables, options: Options, id: string)
    requires TablesOk(t, options) && id in t.routes
    ensures options.portStart <= t.routes[id].remotePort <= options.portEnd
    ensures forall q :: RemotePortUsed(t.routes - {id}, q) <==> RemotePortUsed(t.routes, q) && q != t.routes[id].remotePort
  {
    hide Canonical, RevisionsBounded, EndpointsDistinct;
    forall q ensures RemotePortUsed(t.routes - {id}, q) <==> RemotePortUsed(t.routes, q) && q != t.routes[id].remotePort {
      if RemotePortUsed(t.routes, q) && q != t.routes[id].remotePort {
        var k :| k in t.routes && t.routes[k].remotePort == q;
        assert k in t.routes - {id} && (t.routes - {id})[k].remotePort == q;
      }
    }
  }

  lemma FittingPort(t: Tables, options: Options, id: string, row: Route)
    requires RowFits(t, options, id, row) && id !in t.routes
    ensures options.portStart <= row.remotePort <= options.portEnd && !RemotePortUsed(t.routes, row.remotePort)
  {
    hide Canonical, PublicPortAvailable, EndpointAvailable;
  }

  // ---- Heartbeats ----

  /** b differs from a at most in what an observation may write, and its observed revision is not older. */
  predicate ObservedLater(a: Route, b: Route, bound: int) {
    && b == a.(observedRevision := b.observedRevision, localStatus := b.localStatus, tunnelStatus := b.tunnelStatus,
               lastError := b.lastError, updatedAt := b.updatedAt)
    && a.observedRevision <= b.observedRevision
    && (b.observedRevision == a.observedRevision || b.observedRevision <= bound)
  }

  predicate RowsObservedLater(before: map<string, Route>, after: map<string, Route>, agentId: string, bound: int) {
    && before.Keys == after.Keys
    && forall id :: id in before ==>
         ObservedLater(before[id], after[id], bound) && (before[id].clientId != agentId ==> after[id] == before[id])
  }

  lemma {:induction false} ObserveAllOnlyObserves(
      routes: map<string, Route>, agentId: string, os: seq<Observation>, now: int, bound: int)
    requires forall i :: 0 <= i < |os| ==> os[i].observedRevision <= bound
    ensures RowsObservedLater(routes, ObserveAll(routes, agentId, os, now), agentId, bound)
  {
    if os != [] {
      ObserveAllOnlyObserves(routes, agentId, os[..|os| - 1], now, bound);
    }
  }

  lemma ObservedLaterStaysCanonical(a: Route, b: Route, bound: int)
    requires Canonical(a) && ObservedLater(a, b, bound)
    ensures Canonical(b)
  {
    hide Canonical;
    CanonicalIgnoresRowState(a, b);
  }

  lemma RowsObservedLaterKeeps(t: Tables, t': Tables, options: Options, agentId: string)
    requires TablesOk(t, options) && agentId in t.agents
    requires RowsObservedLater(t.routes, t'.routes, agentId, t.agents[agentId].desiredRevision)
    requires t'.agents.Keys == t.agents.Keys
    requires forall a :: a in t.agents ==>
      t'.agents[a].desiredRevision == t.agents[a].desiredRevision
      && 0 <= t'.agents[a].observedRevision <= t'.agents[a].desiredRevision
    ensures TablesOk(t', options)
  {
    hide Canonical, RevisionsBounded, EndpointsDistinct, RowsObservedLater;
    ObservedRowsBounded(t, t', options, agentId);
    ObservedRowsKeep(t, t', agentId, t.agents[agentId].desiredRevision);
    forall id | id in t.routes ensures Canonical(t'.routes[id]) {
      ObservedLaterStaysCanonical(t.routes[id], t'.routes[id], t.agents[agentId].desiredRevision);
    }
    SamePlacesDistinct(t.routes, t'.routes);
  }

  /** What observing does not touch. */
  lemma ObservedRowsKeep(t: Tables, t': Tables, agentId: string, bound: int)
    requires RowsObservedLater(t.routes, t'.routes, agentId, bound)
    ensures t'.routes.Keys == t.routes.Keys
    ensures forall id :: id in t.routes ==>
      && ObservedLater(t.routes[id], t'.routes[id], bound)
      && t'.routes[id].id == t.routes[id].id && t'.routes[id].clientId == t.routes[id].clientId
      && t'.routes[id].remotePort == t.routes[id].remotePort && t'.routes[id].publicPort == t.routes[id].publicPort
      && t'.routes[id].protocol == t.routes[id].protocol && t'.routes[id].domain == t.routes[id].domain
      && t'.routes[id].pathPrefix == t.routes[id].pathPrefix
  {}

  lemma ObservedRowsBounded(t: Tables, t': Tables, options: Options, agentId: string)
    requires TablesOk(t, options) && agentId in t.agents
    requires RowsObservedLater(t.routes, t'.routes, agentId, t.agents[agentId].desiredRevision)
    requires t'.agents.Keys == t.agents.Keys
    requires forall a :: a in t.agents ==>
      t'.agents[a].desiredRevision == t.agents[a].desiredRevision
      && 0 <= t'.agents[a].observedRevision <= t'.agents[a].desiredRevision
    ensures RevisionsBounded(t')
  {
    hide RowsWellFormed, EndpointsDistinct, RemotePortsDistinct;
  }

  lemma SamePlacesDistinct(routes: map<string, Route>, routes': map<string, Route>)
    requires EndpointsDistinct(routes) && routes.Keys == routes'.Keys
    requires forall id :: id in routes ==>
      routes[id].protocol == routes'[id].protocol && routes[id].domain == routes'[id].domain
      && routes[id].pathPrefix == routes'[id].pathPrefix && routes[id].publicPort == routes'[id].publicPort
    ensures EndpointsDistinct(routes')
  {}

  /** A rejected heartbeat changes nothing; an accepted one keeps every invariant. */
  lemma HeartbeatKeeps(t: Tables, options: Options, agentId: string, revision: int, os: seq<Observation>, now: int)
    requires TablesOk(t, options)
    ensures var (t', result) := Heartbeat(t, agentId, revision, os, now);
      && TablesOk(t', options)
      && (result.Err? ==> t' == t)
      && (result.Ok? ==>
            && agentId in t.agents && t.agents[agentId].observedRevision <= revision
            && RowsObservedLater(t.routes, t'.routes, agentId, t.agents[agentId].desiredRevision))
  {
    hide TablesOk, RowsObservedLater, ObserveAll;
    var (t', result) := Heartbeat(t, agentId, revision, os, now);
    if result.Ok? {
      assert 0 <= revision;
      ObserveAllOnlyObserves(t.routes, agentId, os, now, t.agents[agentId].desiredRevision);
      AgentsBounded(t, options);
      RowsObservedLaterKeeps(t, t', options, agentId);
    }
  }

  lemma AgentsBounded(t: Tables, options: Options)
    requires TablesOk(t, options)
    ensures forall a :: a in t.agents ==> 0 <= t.agents[a].observedRevision <= t.agents[a].desiredRevision
  {}

  // ---- Every run ----

  datatype Command =
    | Enroll(agentId: string)
    | CreateRoute(route: Route, id: string, bindable: set<int>, now: int)
    | UpdateRoute(id: string, update: Route, now: int)
    | DeleteRoute(id: string)
    | SendHeartbeat(agentId: string, revision: int, observations: seq<Observation>, now: int)

  function Execute(t: Tables, options: Options, c: Command): Tables {
    match c
    case Enroll(a) => if a in t.agents then t else t.(agents := t.agents[a := AgentRow(0, 0, None)])
    case CreateRoute(route, id, bindable, now) =>
      if id == "" then t else Create(t, options, route, id, bindable, now).0
    case UpdateRoute(id, update, now) => Update(t, id, update, now).0
    case DeleteRoute(id) => Delete(t, id).0
    case SendHeartbeat(a, revision, os, now) => Heartbeat(t, a, revision, os, now).0
  }

  function Run(options: Options, commands: seq<Command>): Tables {
    if commands == [] then Tables(map[], map[])
    else Execute(Run(options, commands[..|commands| - 1]), options, commands[|commands| - 1])
  }

  /** Nothing the tables record as observed is ever taken back. */
  predicate ObservationsGrow(t: Tables, t': Tables) {
    && (forall a :: a in t.agents ==>
          && a in t'.agents
          && t.agents[a].observedRevision <= t'.agents[a].observedRevision
          && t.agents[a].desiredRevision <= t'.agents[a].desiredRevision)
    && (forall id :: id in t.routes && id in t'.routes ==>
          t.routes[id].observedRevision <= t'.routes[id].observedRevision)
  }

  lemma ExecuteKeeps(t: Tables, options: Options, c: Command)
    requires TablesOk(t, options)
    ensures TablesOk(Execute(t, options, c), options)
    ensures ObservationsGrow(t, Execute(t, options, c))
  {
    hide Create, Update, Delete, Heartbeat, TablesOk, RowFits;
    match c
    case Enroll(a) => EnrollKeeps(t, options, a);
    case CreateRoute(route, id, bindable, now) =>
      if id != "" {
        CreateWritesOrLeaves(t, options, route, id, bindable, now);
        var result := Create(t, options, route, id, bindable, now).1;
        if result.Ok? { WrittenGrows(t, options, id, result.value); }
      }
    case UpdateRoute(id, update, now) =>
      UpdateWritesOrLeaves(t, options, id, update, now);
      var result := Update(t, id, update, now).1;
      if result.Ok? { WrittenGrows(t, options, id, result.value); }
    case DeleteRoute(id) => DeleteKeeps(t, options, id);
    case SendHeartbeat(a, revision, os, now) =>
      HeartbeatKeeps(t, options, a, revision, os, now);
      HeartbeatGrows(t, options, a, revision, os, now);
  }

  lemma EnrollKeeps(t: Tables, options: Options, a: string)
    requires TablesOk(t, options)
    ensures TablesOk(Execute(t, options, Enroll(a)), options)
    ensures ObservationsGrow(t, Execute(t, options, Enroll(a)))
  {
    hide Canonical;
  }

  lemma WrittenGrows(t: Tables, options: Options, id: string, row: Route)
    requires TablesOk(t, options) && RowFits(t, options, id, row)
    requires id in t.routes ==> row.observedRevision == t.routes[id].observedRevision
    ensures TablesOk(Written(t, id, row), options)
    ensures ObservationsGrow(t, Written(t, id, row))
  {
    hide Canonical, PublicPortAvailable, EndpointAvailable, TablesOk;
    WrittenKeeps(t, options, id, row);
  }

  lemma HeartbeatGrows(t: Tables, options: Options, agentId: string, revision: int, os: seq<Observation>, now: int)
    requires TablesOk(t, options)
    ensures ObservationsGrow(t, Heartbeat(t, agentId, revision, os, now).0)
  {
    hide TablesOk, ObserveAll;
    HeartbeatKeeps(t, options, agentId, revision, os, now);
  }

  /** Every table reachable by enrolments, route writes and heartbeats is well formed. */
  lemma {:induction false} ReachableTablesOk(options: Options, commands: seq<Command>)
    ensures TablesOk(Run(options, commands), options)
  {
    hide TablesOk, Execute;
    if commands == [] {
      EmptyTablesOk(options);
    } else {
      ReachableTablesOk(options, commands[..|commands| - 1]);
      ExecuteKeeps(Run(options, commands[..|commands| - 1]), options, commands[|commands| - 1]);
    }
  }

  lemma EmptyTablesOk(options: Options)
    ensures TablesOk(Tables(map[], map[]), options)
  {}

  /** Along every run the revisions of an agent only grow. */
  lemma {:induction false} ReachableObservationsGrow(options: Options, commands: seq<Command>, more: seq<Command>)
    ensures forall a :: a in Run(options, commands).agents ==>
      && a in Run(options, commands + more).agents
      && Run(options, commands).agents[a].observedRevision <= Run(options, commands + more).agents[a].observedRevision
      && Run(options, commands).agents[a].desiredRevision <= Run(options, commands + more).agents[a].desiredRevision
  {
    hide TablesOk, Execute;
    if more == [] {
      assert commands + more == commands;
    } else {
      var shorter := commands + more[..|more| - 1];
      ReachableObservationsGrow(options, commands, more[..|more| - 1]);
      assert (commands + more)[..|commands + more| - 1] == shorter;
      ReachableTablesOk(options, shorter);
      ExecuteKeeps(Run(options, shorter), options, more[|more| - 1]);
    }
  }

  lemma RowStays(t: Tables, options: Options, c: Command, id: string)
    requires TablesOk(t, options) && id in t.routes && c != DeleteRoute(id)
    ensures id in Execute(t, options, c).routes
    ensures t.routes[id].observedRevision <= Execute(t, options, c).routes[id].observedRevision
    ensures t.routes[id].desiredRevision <= Execute(t, options, c).routes[id].desiredRevision
  {
    hide Create, Update, Delete, Heartbeat, TablesOk, RowFits, RowsObservedLater;
    ExecuteKeeps(t, options, c);
    match c
    case Enroll(a) =>
    case CreateRoute(route, newId, bindable, now) =>
      if newId != "" { CreateWritesOrLeaves(t, options, route, newId, bindable, now); }
    case UpdateRoute(k, update, now) =>
      UpdateWritesOrLeaves(t, options, k, update, now);
      if k == id && Update(t, id, update, now).1.Ok? { FittingRowIsLater(t, options, id, Update(t, id, update, now).1.value); }
    case DeleteRoute(k) => DeleteKeeps(t, options, k);
    case SendHeartbeat(a, revision, os, now) =>
      HeartbeatKeeps(t, options, a, revision, os, now);
      if Heartbeat(t, a, revision, os, now).1.Ok? {
        ObservedRowsKeep(t, Heartbeat(t, a, revision, os, now).0, a, t.agents[a].desiredRevision);
      }
  }

  lemma FittingRowIsLater(t: Tables, options: Options, id: string, row: Route)
    requires TablesOk(t, options) && RowFits(t, options, id, row) && id in t.routes
    ensures t.routes[id].desiredRevision < row.desiredRevision
  {
    hide Canonical, PublicPortAvailable, EndpointAvailable, EndpointsDistinct, RemotePortsDistinct;
  }

  /** Along every run that does not delete it a row stays, and its revisions only grow. */
  lemma {:induction false} RowObservationsGrow(options: Options, commands: seq<Command>, more: seq<Command>, id: string)
    requires id in Run(options, commands).routes && DeleteRoute(id) !in more
    ensures id in Run(options, commands + more).routes
    ensures Run(options, commands).routes[id].observedRevision <= Run(options, commands + more).routes[id].observedRevision
    ensures Run(options, commands).routes[id].desiredRevision <= Run(options, commands + more).routes[id].desiredRevision
  {
    hide TablesOk, Execute;
    if more == [] {
      assert commands + more == commands;
    } else {
      var shorter := commands + more[..|more| - 1];
      assert more[|more| - 1] in more;
      RowObservationsGrow(options, commands, more[..|more| - 1], id);
      assert (commands + more)[..|commands + more| - 1] == shorter;
      ReachableTablesOk(options, shorter);
      RowStays(Run(options, shorter), options, more[|more| - 1], id);
    }
  }
}
