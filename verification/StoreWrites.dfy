/** What a create and an update take from their request, and exactly when they are refused. */
module StoreWrites {
  import opened Results
  import opened Text
  import opened Hosts
  import opened Routes
  import opened RouteStore
  import opened StoreInvariants

  /** The row has what the request supplies, in normal form. */
  predicate TakesFrom(row: Route, request: Route) {
    && row.protocol == request.protocol && row.localPort == request.localPort
    && row.stripPath == request.stripPath && row.enabled == request.enabled
    && row.name == TrimSpace(request.name) && row.localHost == NormalizeHost(request.localHost)
    && row.tunnelGroup == (if TrimSpace(request.tunnelGroup) != "" then TrimSpace(request.tunnelGroup)
                           else if request.protocol.IsStream() then request.protocol.Name() else "web")
    && if request.protocol.IsWeb() then
         && NormalizeDNSHost(request.domain) == Some(row.domain)
         && NormalizePathPrefix(request.pathPrefix) == Some(row.pathPrefix)
         && row.publicPort == (if request.publicPort == request.protocol.DefaultPublicPort() then 0 else request.publicPort)
       else row.domain == "" && row.pathPrefix == "" && row.publicPort == request.publicPort
  }

  /** A request whose fields have the normal forms that a route needs. */
  predicate Acceptable(request: Route) {
    && TrimSpace(request.name) != "" && !request.protocol.OtherProtocol?
    && ValidHost(NormalizeHost(request.localHost)) && ValidPort(request.localPort)
    && if request.protocol.IsWeb() then
         && NormalizeDNSHost(request.domain).Some? && NormalizePathPrefix(request.pathPrefix).Some?
         && (request.stripPath ==> NormalizePathPrefix(request.pathPrefix) != Some(""))
         && 0 <= request.publicPort <= 65535
       else
         && NormalizeHost(request.domain) == "" && request.pathPrefix == "" && !request.stripPath
         && ValidPort(request.publicPort)
  }

  /** Every field that a client supplies. */
  predicate SameSupplied(a: Route, b: Route) {
    && a.name == b.name && a.protocol == b.protocol && a.domain == b.domain && a.pathPrefix == b.pathPrefix
    && a.stripPath == b.stripPath && a.localHost == b.localHost && a.localPort == b.localPort
    && a.publicPort == b.publicPort && a.tunnelGroup == b.tunnelGroup && a.enabled == b.enabled
  }

  lemma EndpointTakes(r: Route)
    requires ValidatedEndpoint(r).Ok?
    ensures var e := ValidatedEndpoint(r).value;
      if r.protocol.IsWeb() then
        && NormalizeDNSHost(r.domain) == Some(e.domain) && NormalizePathPrefix(r.pathPrefix) == Some(e.pathPrefix)
        && e.publicPort == (if r.publicPort == r.protocol.DefaultPublicPort() then 0 else r.publicPort)
      else e.domain == "" && e.pathPrefix == "" && e.publicPort == r.publicPort
  {
    hide NormalizeHost, NormalizeDNSHost, NormalizePathPrefix;
  }

  lemma EndpointIff(r: Route)
    requires !r.protocol.OtherProtocol?
    ensures ValidatedEndpoint(r).Ok? <==>
      if r.protocol.IsWeb() then
        && NormalizeDNSHost(r.domain).Some? && NormalizePathPrefix(r.pathPrefix).Some?
        && (r.stripPath ==> NormalizePathPrefix(r.pathPrefix) != Some("")) && 0 <= r.publicPort <= 65535
      else NormalizeHost(r.domain) == "" && r.pathPrefix == "" && !r.stripPath && ValidPort(r.publicPort)
  {
    hide NormalizeHost, NormalizeDNSHost, NormalizePathPrefix;
  }

  lemma GroupTaken(r: Route)
    requires ValidatedTarget(r).Ok? && !r.protocol.OtherProtocol?
    ensures ValidatedTarget(r).value.tunnelGroup ==
      if r.tunnelGroup != "" then r.tunnelGroup else if r.protocol.IsStream() then r.protocol.Name() else "web"
  {
    hide ValidHost;
  }

  lemma TargetIff(r: Route)
    ensures ValidatedTarget(r).Ok? <==> ValidHost(r.localHost) && ValidPort(r.localPort)
  {
    hide ValidHost;
  }

  /** Validation accepts exactly the acceptable requests, and gives back what they supply in normal form. */
  lemma ValidateIff(r: Route)
    ensures Validate(r).Ok? <==> Acceptable(r)
    ensures Validate(r).Ok? ==> TakesFrom(Validate(r).value, r)
  {
    hide NormalizeHost, NormalizeDNSHost, NormalizePathPrefix, ValidHost, TrimSpace, ValidatedEndpoint, ValidatedTarget;
    var cleaned := Cleaned(r);
    if !cleaned.protocol.OtherProtocol? {
      EndpointIff(cleaned);
      if ValidatedEndpoint(cleaned).Ok? {
        var endpoint := ValidatedEndpoint(cleaned).value;
        EndpointKeeps(cleaned);
        EndpointTakes(cleaned);
        TargetIff(endpoint);
        if ValidatedTarget(endpoint).Ok? {
          GroupTaken(endpoint);
          ValidatedTargetFixed(endpoint);
        }
      }
    }
  }

  // ---- Committed rows ----

  /** A created row has what the request supplies, belongs to the agent it names, and is not yet observed. */
  lemma CreateTakes(t: Tables, options: Options, route: Route, id: string, bindable: set<int>, now: int)
    requires id != "" && Create(t, options, route, id, bindable, now).1.Ok?
    ensures var row := Create(t, options, route, id, bindable, now).1.value;
      && TakesFrom(row, route) && row.id == id && row.clientId == route.clientId && row.clientId in t.agents
      && row.desiredRevision == t.agents[row.clientId].desiredRevision + 1 && row.observedRevision == 0
      && row.localStatus == row.tunnelStatus == row.lastError == "" && row.createdAt == row.updatedAt == now
    ensures Canonical(route) ==> SameSupplied(Create(t, options, route, id, bindable, now).1.value, route)
  {
    hide Validate, TakesFrom, Create;
    CreatedRow(t, options, route, id, bindable, now);
    ValidateIff(route);
    ValidateKeeps(route);
    TakesPlaced(Validate(route).value, Create(t, options, route, id, bindable, now).1.value, route);
  }

  lemma CreatedRow(t: Tables, options: Options, route: Route, id: string, bindable: set<int>, now: int)
    requires id != "" && Create(t, options, route, id, bindable, now).1.Ok?
    ensures var row := Create(t, options, route, id, bindable, now).1.value;
      && Validate(route).Ok? && Validate(route).value.clientId in t.agents
      && row == Inserted(Validate(route).value, id, row.remotePort,
                         t.agents[Validate(route).value.clientId].desiredRevision + 1, now)
  {
    hide Validate, AllocatePort, PublicPortAvailable, EndpointAvailable;
  }

  /** An updated row has what the request supplies; owner, remote port, birth and observation stay as they were. */
  lemma UpdateTakes(t: Tables, id: string, update: Route, now: int)
    requires id in t.routes && Update(t, id, update, now).1.Ok?
    ensures var row, current := Update(t, id, update, now).1.value, t.routes[id];
      && TakesFrom(row, update) && row.id == current.id && row.clientId == current.clientId && row.clientId in t.agents
      && row.desiredRevision == t.agents[row.clientId].desiredRevision + 1
      && row.remotePort == current.remotePort && row.createdAt == current.createdAt && row.updatedAt == now
      && row.observedRevision == current.observedRevision && row.localStatus == current.localStatus
      && row.tunnelStatus == current.tunnelStatus && row.lastError == current.lastError
    ensures Canonical(update) ==> SameSupplied(Update(t, id, update, now).1.value, update)
  {
    hide Validate, TakesFrom, PublicPortAvailable, EndpointAvailable;
    var merged := Merged(t.routes[id], update);
    ValidateIff(merged);
    ValidateKeeps(merged);
    TakesPlaced(Validate(merged).value, Update(t, id, update, now).1.value, merged);
    SuppliedByUpdate(t.routes[id], update, Update(t, id, update, now).1.value);
    if Canonical(update) { CanonicalIgnoresRowState(update, merged); }
  }

  /** Placing a row does not touch what it takes from its request. */
  lemma TakesPlaced(valid: Route, row: Route, request: Route)
    requires TakesFrom(valid, request) && SameSupplied(row, valid)
    ensures TakesFrom(row, request)
  {
    hide NormalizeHost, NormalizeDNSHost, NormalizePathPrefix, TrimSpace;
  }

  lemma SuppliedByUpdate(current: Route, update: Route, row: Route)
    ensures SameSupplied(Merged(current, update), update)
    ensures TakesFrom(row, Merged(current, update)) ==> TakesFrom(row, update)
  {
    hide NormalizeHost, NormalizeDNSHost, NormalizePathPrefix, TrimSpace;
  }

  // ---- Exactly when a write is refused ----

  predicate PortLeft(t: Tables, options: Options, bindable: set<int>) {
    exists p :: options.portStart <= p <= options.portEnd && p in bindable && !RemotePortUsed(t.routes, p)
  }

  /** A row that asks for the same place in public asks for the same as any other row of the request. */
  lemma SamePlace(routes: map<string, Route>, a: Route, b: Route, request: Route, x: string, y: string)
    requires TakesFrom(a, request) && TakesFrom(b, request) && (x == y || (x !in routes && y !in routes))
    ensures PublicPortAvailable(routes, a, x) <==> PublicPortAvailable(routes, b, y)
    ensures EndpointAvailable(routes, a, x) <==> EndpointAvailable(routes, b, y)
  {
    hide NormalizeHost, NormalizeDNSHost, NormalizePathPrefix, TrimSpace;
    forall id | id in routes
      ensures PortClash(a, routes[id]) <==> PortClash(b, routes[id])
      ensures SameEndpoint(a, routes[id]) <==> SameEndpoint(b, routes[id])
    {}
  }

  /** The two cannot be published side by side: a stream port is theirs alone, a web port has one scheme, and a web place
      one route. */
  predicate Collide(a: Route, b: Route) {
    if a.protocol.IsStream() then
      if b.protocol.IsStream() then a.publicPort > 0 && a.publicPort == b.publicPort
      else b.protocol.IsWeb() && a.publicPort != 0 && a.publicPort == b.publicPort
    else if b.protocol.IsStream() then a.publicPort != 0 && a.publicPort == b.publicPort
    else if a.protocol == b.protocol then
      a.publicPort == b.publicPort && a.domain == b.domain && a.pathPrefix == b.pathPrefix
    else b.protocol.IsWeb() && a.publicPort != 0 && a.publicPort == b.publicPort
  }

  ghost predicate CollidesWithNone(t: Tables, id: string, row: Route) {
    forall k :: k in t.routes && k != id ==> !Collide(row, t.routes[k])
  }

  /** A place is available exactly if nothing collides there. */
  lemma AvailableIff(t: Tables, options: Options, id: string, row: Route)
    requires TablesOk(t, options) && (row.protocol.IsWeb() || row.protocol.IsStream())
    ensures PublicPortAvailable(t.routes, row, id) && EndpointAvailable(t.routes, row, id) <==> CollidesWithNone(t, id, row)
  {
    hide Canonical, RevisionsBounded, RemotePortsDistinct, EndpointsDistinct;
    forall k | k in t.routes && k != id
      ensures Collide(row, t.routes[k]) <==> SameEndpoint(row, t.routes[k]) || PortClash(row, t.routes[k])
    {
      CanonicalProtocol(t.routes[k]);
    }
    hide PortClash, SameEndpoint, Collide;
  }

  /** A create commits if and only if the request is acceptable, its agent exists, a remote port is left, the id is
      new and the row collides with no other; and the error says which of these failed first. */
  lemma CreateIff(t: Tables, options: Options, route: Route, id: string, bindable: set<int>, now: int, row: Route)
    requires TablesOk(t, options) && id != "" && (Acceptable(route) ==> TakesFrom(row, route))
    ensures var result := Create(t, options, route, id, bindable, now).1;
      if !Acceptable(route) then result == Err(Invalid)
      else if route.clientId !in t.agents then result == Err(NotFound)
      else if !PortLeft(t, options, bindable) then result == Err(PortRangeExhausted)
      else if id in t.routes || !CollidesWithNone(t, id, row) then result == Err(Conflict)
      else result.Ok?
  {
    hide Validate, Acceptable, TakesFrom, AllocatePort, PublicPortAvailable, EndpointAvailable, TablesOk,
      CollidesWithNone;
    ValidateIff(route);
    if Acceptable(route) {
      var valid := Validate(route).value;
      ValidateKeeps(route);
      AllocatePortIsLeast(t.routes, bindable, options.portStart, options.portEnd);
      if valid.clientId in t.agents && PortLeft(t, options, bindable) && id !in t.routes {
        var port := AllocatePort(t.routes, bindable, options.portStart, options.portEnd).value;
        NotEmptyId(t, options);
        var placed := Inserted(valid, id, port, t.agents[valid.clientId].desiredRevision + 1, now);
        TakesPlaced(valid, placed, route);
        SamePlace(t.routes, valid, row, route, "", id);
        SamePlace(t.routes, placed, row, route, "", id);
        AcceptableProtocol(route, row);
        AvailableIff(t, options, id, row);
      }
    }
  }

  lemma NotEmptyId(t: Tables, options: Options)
    requires TablesOk(t, options)
    ensures "" !in t.routes
  {
    hide Canonical;
  }

  lemma AcceptableProtocol(request: Route, row: Route)
    requires Acceptable(request) && TakesFrom(row, request)
    ensures row.protocol.IsWeb() || row.protocol.IsStream()
  {
    hide NormalizeHost, NormalizeDNSHost, NormalizePathPrefix, TrimSpace, ValidHost;
  }

  /** An update commits if and only if its row exists, the request is acceptable, and the new row collides with no
      other. */
  lemma UpdateIff(t: Tables, options: Options, id: string, update: Route, now: int, row: Route)
    requires TablesOk(t, options) && (Acceptable(update) ==> TakesFrom(row, update))
    ensures var result := Update(t, id, update, now).1;
      if id !in t.routes then result == Err(NotFound)
      else if !Acceptable(update) then result == Err(Invalid)
      else if !CollidesWithNone(t, id, row) then result == Err(Conflict)
      else result.Ok?
  {
    hide Validate, Acceptable, TakesFrom, PublicPortAvailable, EndpointAvailable, TablesOk,
      CollidesWithNone;
    if id in t.routes {
      var merged := Merged(t.routes[id], update);
      ValidateIff(merged);
      AcceptableMerged(t.routes[id], update);
      if Acceptable(update) {
        var valid := Validate(merged).value;
        ValidateKeeps(merged);
        OwnerExists(t, options, id);
        var placed := valid.(desiredRevision := t.agents[valid.clientId].desiredRevision + 1, updatedAt := now);
        TakesPlaced(valid, placed, merged);
        SuppliedByUpdate(t.routes[id], update, placed);
        SamePlace(t.routes, placed, row, update, id, id);
        AcceptableProtocol(update, row);
        AvailableIff(t, options, id, row);
      }
    }
  }

  lemma AcceptableMerged(current: Route, update: Route)
    ensures Acceptable(Merged(current, update)) <==> Acceptable(update)
  {
    hide NormalizeHost, NormalizeDNSHost, NormalizePathPrefix, TrimSpace, ValidHost;
  }

  lemma OwnerExists(t: Tables, options: Options, id: string)
    requires TablesOk(t, options) && id in t.routes
    ensures t.routes[id].clientId in t.agents
  {
    hide Canonical;
  }
}
