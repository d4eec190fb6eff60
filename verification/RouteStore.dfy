/** The server's agent and route tables: route writes and heartbeats (internal/store/routes.go). */
module RouteStore {
  import opened Results
  import opened Routes

  datatype StoreError = NotFound | Conflict | Invalid | PortRangeExhausted

  datatype AgentRow = AgentRow(desiredRevision: int, observedRevision: int, lastSeenAt: Option<int>)

  /** Both tables. A stored route has no joined heartbeat time and no public status. */
  datatype Tables = Tables(agents: map<string, AgentRow>, routes: map<string, Route>)

  datatype Options = Options(portStart: int, portEnd: int) {
    /** What opening a store checks. */
    predicate Valid() { 1 <= portStart <= portEnd <= 65535 }
  }

  datatype Observation = Observation(
    routeId: string, observedRevision: int, localStatus: string, tunnelStatus: string, lastError: string)

  // ---- Constraints ----

  /** The two partial unique indexes. */
  predicate SameEndpoint(a: Route, b: Route) {
    || (a.protocol.IsWeb() && a.protocol == b.protocol && a.domain == b.domain
        && a.publicPort == b.publicPort && a.pathPrefix == b.pathPrefix)
    || (a.protocol.IsStream() && b.protocol.IsStream() && a.publicPort > 0 && a.publicPort == b.publicPort)
  }

  /** A public port shared across classes, or by two schemes. */
  predicate PortClash(route: Route, other: Route) {
    && route.publicPort != 0 && other.publicPort == route.publicPort
    && if route.protocol.IsStream() then other.protocol.IsWeb()
       else other.protocol.IsStream() || (other.protocol.IsWeb() && other.protocol != route.protocol)
  }

  predicate PublicPortAvailable(routes: map<string, Route>, route: Route, excludeId: string) {
    forall id :: id in routes && id != excludeId ==> !PortClash(route, routes[id])
  }

  predicate EndpointAvailable(routes: map<string, Route>, route: Route, excludeId: string) {
    forall id :: id in routes && id != excludeId ==> !SameEndpoint(route, routes[id])
  }

  predicate RemotePortUsed(routes: map<string, Route>, port: int) {
    exists id :: id in routes && routes[id].remotePort == port
  }

  /** The least port from `first` on that no row holds and that can be bound, if any. */
  function AllocatePort(routes: map<string, Route>, bindable: set<int>, first: int, last: int): Option<int>
    decreases last - first + 1
  {
    if first > last then None
    else if !RemotePortUsed(routes, first) && first in bindable then Some(first)
    else AllocatePort(routes, bindable, first + 1, last)
  }

  // ---- Transactions as functions on the tables ----

  function Bumped(t: Tables, agentId: string): Tables
    requires agentId in t.agents
  {
    var row := t.agents[agentId];
    t.(agents := t.agents[agentId := row.(desiredRevision := row.desiredRevision + 1)])
  }

  /** A new row as the insert writes it. */
  function Inserted(valid: Route, id: string, remotePort: int, revision: int, now: int): Route {
    valid.(id := id, remotePort := remotePort, desiredRevision := revision, observedRevision := 0,
           localStatus := "", tunnelStatus := "", lastError := "",
           agentLastSeenAt := None, publicStatus := "", createdAt := now, updatedAt := now)
  }

  function Create(t: Tables, options: Options, route: Route, id: string, bindable: set<int>, now: int)
    : (Tables, Result<Route, StoreError>)
    requires id != ""
  {
    match Validate(route)
    case Err(_) => (t, Err(Invalid))
    case Ok(valid) =>
      if valid.clientId !in t.agents then (t, Err(NotFound))
      else
        var revision := t.agents[valid.clientId].desiredRevision + 1;
        match AllocatePort(t.routes, bindable, options.portStart, options.portEnd)
        case None => (t, Err(PortRangeExhausted))
        case Some(port) =>
          var row := Inserted(valid, id, port, revision, now);
          if !PublicPortAvailable(t.routes, valid, "") then (t, Err(Conflict))
          else if id in t.routes || !EndpointAvailable(t.routes, row, "") then (t, Err(Conflict))
          else (Bumped(t, valid.clientId).(routes := t.routes[id := row]), Ok(row))
  }

  /** The update request with every server-owned field taken from the current row. */
  function Merged(current: Route, update: Route): Route {
    update.(id := current.id, clientId := current.clientId, remotePort := current.remotePort,
            createdAt := current.createdAt, observedRevision := current.observedRevision,
            localStatus := current.localStatus, tunnelStatus := current.tunnelStatus,
            lastError := current.lastError, agentLastSeenAt := current.agentLastSeenAt, publicStatus := "")
  }

  function Update(t: Tables, id: string, update: Route, now: int): (Tables, Result<Route, StoreError>) {
    if id !in t.routes then (t, Err(NotFound))
    else
      match Validate(Merged(t.routes[id], update))
      case Err(_) => (t, Err(Invalid))
      case Ok(valid) =>
        if valid.clientId !in t.agents then (t, Err(NotFound))
        else
          var row := valid.(desiredRevision := t.agents[valid.clientId].desiredRevision + 1, updatedAt := now);
          if !PublicPortAvailable(t.routes, row, id) || !EndpointAvailable(t.routes, row, id) then (t, Err(Conflict))
          else (Bumped(t, valid.clientId).(routes := t.routes[id := row]), Ok(row))
  }

  function Delete(t: Tables, id: string): (Tables, Result<(), StoreError>) {
    if id !in t.routes then (t, Err(NotFound))
    else if t.routes[id].clientId !in t.agents then (t, Err(NotFound))
    else (Bumped(t, t.routes[id].clientId).(routes := t.routes - {id}), Ok(()))
  }

  /** The guarded per-route update of a heartbeat. */
  function Observe(routes: map<string, Route>, agentId: string, o: Observation, now: int): map<string, Route> {
    if o.routeId in routes && routes[o.routeId].clientId == agentId
       && routes[o.routeId].desiredRevision <= o.observedRevision
       && routes[o.routeId].observedRevision <= o.observedRevision
    then
      routes[o.routeId := routes[o.routeId].(
        observedRevision := o.observedRevision, localStatus := o.localStatus, tunnelStatus := o.tunnelStatus,
        lastError := o.lastError, updatedAt := now)]
    else routes
  }

  function ObserveAll(routes: map<string, Route>, agentId: string, os: seq<Observation>, now: int): map<string, Route> {
    if os == [] then routes
    else Observe(ObserveAll(routes, agentId, os[..|os| - 1], now), agentId, os[|os| - 1], now)
  }

  predicate HeartbeatAccepted(row: AgentRow, revision: int, os: seq<Observation>) {
    && row.observedRevision <= revision && 0 <= revision <= row.desiredRevision
    && forall i :: 0 <= i < |os| ==> 0 <= os[i].observedRevision <= row.desiredRevision
  }

  function Heartbeat(t: Tables, agentId: string, revision: int, os: seq<Observation>, now: int)
    : (Tables, Result<(), StoreError>)
  {
    if agentId !in t.agents then (t, Err(NotFound))
    else if !HeartbeatAccepted(t.agents[agentId], revision, os) then (t, Err(Invalid))
    else
      (Tables(t.agents[agentId := t.agents[agentId].(observedRevision := revision, lastSeenAt := Some(now))],
              ObserveAll(t.routes, agentId, os, now)),
       Ok(()))
  }

  /** A route as a query returns it, with its agent's last heartbeat joined in. */
  function Joined(t: Tables, id: string): Route
    requires id in t.routes
  {
    var r := t.routes[id];
    r.(agentLastSeenAt := if r.clientId in t.agents then t.agents[r.clientId].lastSeenAt else None)
  }

  // ---- The store ----

  class Store {
    const options: Options
    var agents: map<string, AgentRow>
    var routes: map<string, Route>

    constructor (options: Options)
      requires options.Valid()
      ensures this.options == options && Current() == Tables(map[], map[])
    {
      this.options := options;
      agents := map[];
      routes := map[];
    }

    ghost function Current(): Tables
      reads this
    {
      Tables(agents, routes)
    }

    /** The search loop over the remote-port range. */
    method FindPort(bindable: set<int>) returns (port: Option<int>)
      ensures port == AllocatePort(routes, bindable, options.portStart, options.portEnd)
    {
      var p := options.portStart;
      while p <= options.portEnd
        invariant options.portStart <= p
        invariant AllocatePort(routes, bindable, options.portStart, options.portEnd)
               == AllocatePort(routes, bindable, p, options.portEnd)
        decreases options.portEnd - p
      {
        if !RemotePortUsed(routes, p) && p in bindable {
          return Some(p);
        }
        p := p + 1;
      }
      return None;
    }

    method CreateRoute(route: Route, id: string, bindable: set<int>, now: int) returns (result: Result<Route, StoreError>)
      requires id != ""
      modifies this
      ensures (Current(), result) == Create(old(Current()), options, route, id, bindable, now)
    {
      hide Validate, AllocatePort, PublicPortAvailable, EndpointAvailable;
      var checked := Validate(route);
      if checked.Err? { return Err(Invalid); }
      var row := checked.value;
      if row.clientId !in agents { return Err(NotFound); }
      var agent := agents[row.clientId];
      var revision := agent.desiredRevision + 1;
      var port := FindPort(bindable);
      if port.None? { return Err(PortRangeExhausted); }
      if !PublicPortAvailable(routes, row, "") { return Err(Conflict); }
      row := Inserted(row, id, port.value, revision, now);
      if id in routes || !EndpointAvailable(routes, row, "") { return Err(Conflict); }
      agents := agents[row.clientId := agent.(desiredRevision := revision)];
      routes := routes[id := row];
      return Ok(row);
    }

    method UpdateRoute(id: string, update: Route, now: int) returns (result: Result<Route, StoreError>)
      modifies this
      ensures (Current(), result) == Update(old(Current()), id, update, now)
    {
      hide Validate, PublicPortAvailable, EndpointAvailable;
      if id !in routes { return Err(NotFound); }
      var checked := Validate(Merged(routes[id], update));
      if checked.Err? { return Err(Invalid); }
      var row := checked.value;
      if row.clientId !in agents { return Err(NotFound); }
      var agent := agents[row.clientId];
      var revision := agent.desiredRevision + 1;
      row := row.(desiredRevision := revision, updatedAt := now);
      if !PublicPortAvailable(routes, row, id) { return Err(Conflict); }
      if !EndpointAvailable(routes, row, id) { return Err(Conflict); }
      agents := agents[row.clientId := agent.(desiredRevision := revision)];
      routes := routes[id := row];
      return Ok(row);
    }

    method DeleteRoute(id: string) returns (result: Result<(), StoreError>)
      modifies this
      ensures (Current(), result) == Delete(old(Current()), id)
    {
      if id !in routes { return Err(NotFound); }
      var clientId := routes[id].clientId;
      if clientId !in agents { return Err(NotFound); }
      routes := routes - {id};
      agents := agents[clientId := agents[clientId].(desiredRevision := agents[clientId].desiredRevision + 1)];
      return Ok(());
    }

    method RecordHeartbeat(agentId: string, revision: int, observations: seq<Observation>, now: int)
      returns (result: Result<(), StoreError>)
      modifies this
      ensures (Current(), result) == Heartbeat(old(Current()), agentId, revision, observations, now)
    {
      if agentId !in agents { return Err(NotFound); }
      var agent := agents[agentId];
      if revision < agent.observedRevision || revision < 0 || revision > agent.desiredRevision {
        return Err(Invalid);
      }
      for i := 0 to |observations|
        invariant forall j :: 0 <= j < i ==> 0 <= observations[j].observedRevision <= agent.desiredRevision
        invariant Current() == old(Current())
      {
        if observations[i].observedRevision < 0 || observations[i].observedRevision > agent.desiredRevision {
          return Err(Invalid);
        }
      }
      var observed := if agent.observedRevision < revision then revision else agent.observedRevision;
      agents := agents[agentId := agent.(observedRevision := observed, lastSeenAt := Some(now))];
      for i := 0 to |observations|
        invariant agents == old(agents)[agentId := agent.(observedRevision := observed, lastSeenAt := Some(now))]
        invariant routes == ObserveAll(old(routes), agentId, observations[..i], now)
      {
        assert observations[..i + 1][..i] == observations[..i];
        routes := Observe(routes, agentId, observations[i], now);
      }
      assert observations[..|observations|] == observations;
      return Ok(());
    }
  }
}
