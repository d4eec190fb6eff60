/** The management host: which routes may share it, and what its requests reach (internal/api/api.go,
    internal/edge/edge.go). */
module Management {
  import opened Results
  import opened Text
  import opened Hosts
  import opened Routes
  import opened RouteStore
  import opened StoreInvariants
  import opened Listing
  import opened Gateway

  const RESERVED := ["/api", "/assets", "/healthz"]

  /** The path is a reserved one or lies below it. */
  predicate UnderReserved(path: string) {
    exists i :: 0 <= i < |RESERVED| && (path == RESERVED[i] || HasPrefix(path, RESERVED[i] + "/"))
  }

  /** The check of the API on the route as the caller sent it; an empty public host reserves nothing. */
  predicate UsesReserved(r: Route, publicHost: string) {
    && r.protocol.IsWeb() && publicHost != "" && NormalizeHost(r.domain) == NormalizeHost(publicHost)
    && var prefix := NormalizePathPrefix(r.pathPrefix);
       || prefix.None? || prefix.value == ""
       || !r.protocol.HTTPS?
       || (r.publicPort != 0 && r.publicPort != 443)
       || UnderReserved(prefix.value)
  }

  /** What the API lets through: route writes that pass the check. */
  predicate Admitted(c: Command, publicHost: string) {
    match c
    case CreateRoute(route, _, _, _) => !UsesReserved(route, publicHost)
    case UpdateRoute(_, route, _) => !UsesReserved(route, publicHost)
    case _ => true
  }

  /** The check gives the same answer on the route as sent and on the route as stored. */
  lemma ReservedAgrees(raw: Route, publicHost: string)
    requires Validate(raw).Ok?
    ensures UsesReserved(raw, publicHost) <==> UsesReserved(Validate(raw).value, publicHost)
  {
    hide Validate, NormalizeHost, NormalizeDNSHost, NormalizePathPrefix, UnderReserved;
    StoredPlace(raw);
    if raw.protocol.IsWeb() {
      NormalizersAgree(raw.domain);
      NormalizePathPrefixFixed(raw.pathPrefix);
    }
  }

  lemma StoredPlace(raw: Route)
    requires Validate(raw).Ok?
    ensures var v := Validate(raw).value;
      v.protocol == raw.protocol && (raw.protocol.IsWeb() ==> StoredWebPlace(raw, v))
  {
    hide NormalizeHost, TrimSpace, ValidatedWeb, ValidatedStream, ValidatedTarget, StoredWebPlace;
    var endpoint := ValidatedEndpoint(Cleaned(raw)).value;
    ValidatedEndpointFixed(Cleaned(raw), "");
    ValidatedTargetFixed(endpoint);
    if raw.protocol.IsWeb() {
      ValidatedWebPlace(raw, Cleaned(raw), endpoint, Validate(raw).value);
    }
  }

  /** The place of a web route as validation stores it. */
  predicate StoredWebPlace(raw: Route, stored: Route) {
    && NormalizeDNSHost(raw.domain) == Some(stored.domain) && NormalizePathPrefix(raw.pathPrefix) == Some(stored.pathPrefix)
    && stored.publicPort == if raw.publicPort == raw.protocol.DefaultPublicPort() then 0 else raw.publicPort
  }

  lemma ValidatedWebPlace(raw: Route, cleaned: Route, endpoint: Route, stored: Route)
    requires SamePlace(raw, cleaned) && SamePlace(endpoint, stored) && ValidatedWeb(cleaned) == Ok(endpoint)
    ensures StoredWebPlace(raw, stored)
  {
    hide NormalizeDNSHost, NormalizePathPrefix;
  }

  /** The place of a route, which is all that the check looks at. */
  predicate SamePlace(a: Route, b: Route) {
    a.protocol == b.protocol && a.domain == b.domain && a.pathPrefix == b.pathPrefix && a.publicPort == b.publicPort
  }

  ghost predicate NoneReserved(t: Tables, publicHost: string) {
    forall id :: id in t.routes ==> !UsesReserved(t.routes[id], publicHost)
  }

  lemma SamePlaceSameAnswer(a: Route, b: Route, publicHost: string)
    requires SamePlace(a, b)
    ensures UsesReserved(a, publicHost) <==> UsesReserved(b, publicHost)
  {}

  lemma CreateAdmitted(t: Tables, options: Options, route: Route, id: string, bindable: set<int>, now: int, publicHost: string)
    requires NoneReserved(t, publicHost) && id != "" && !UsesReserved(route, publicHost)
    ensures NoneReserved(Create(t, options, route, id, bindable, now).0, publicHost)
  {
    hide Validate, UsesReserved, AllocatePort, PublicPortAvailable, EndpointAvailable;
    var (t', result) := Create(t, options, route, id, bindable, now);
    if result.Ok? {
      ReservedAgrees(route, publicHost);
      SamePlaceSameAnswer(Validate(route).value, result.value, publicHost);
    }
  }

  lemma UpdateAdmitted(t: Tables, id: string, update: Route, now: int, publicHost: string)
    requires NoneReserved(t, publicHost) && !UsesReserved(update, publicHost)
    ensures NoneReserved(Update(t, id, update, now).0, publicHost)
  {
    hide Validate, UsesReserved, PublicPortAvailable, EndpointAvailable;
    var (t', result) := Update(t, id, update, now);
    if result.Ok? {
      var merged := Merged(t.routes[id], update);
      SamePlaceSameAnswer(update, merged, publicHost);
      ReservedAgrees(merged, publicHost);
      SamePlaceSameAnswer(Validate(merged).value, result.value, publicHost);
    }
  }

  lemma HeartbeatAdmitted(t: Tables, options: Options, a: string, revision: int, os: seq<Observation>, now: int,
                          publicHost: string)
    requires NoneReserved(t, publicHost) && TablesOk(t, options)
    ensures NoneReserved(Heartbeat(t, a, revision, os, now).0, publicHost)
  {
    hide Heartbeat, TablesOk, UsesReserved;
    HeartbeatKeeps(t, options, a, revision, os, now);
    var t' := Heartbeat(t, a, revision, os, now).0;
    if t' != t {
      forall id | id in t'.routes ensures !UsesReserved(t'.routes[id], publicHost) {
        SamePlaceSameAnswer(t.routes[id], t'.routes[id], publicHost);
      }
    }
  }

  /** With a fixed public host no run of admitted commands stores a reserved route. */
  lemma {:induction false} ReachableNoneReserved(options: Options, commands: seq<Command>, publicHost: string)
    requires forall c :: c in commands ==> Admitted(c, publicHost)
    ensures NoneReserved(Run(options, commands), publicHost)
  {
    hide UsesReserved, Create, Update, Delete, Heartbeat, TablesOk;
    if commands != [] {
      var before, last := commands[..|commands| - 1], commands[|commands| - 1];
      ReachableNoneReserved(options, before, publicHost);
      var t := Run(options, before);
      assert Admitted(last, publicHost);
      match last
      case CreateRoute(route, id, bindable, now) =>
        if id != "" { CreateAdmitted(t, options, route, id, bindable, now, publicHost); }
      case UpdateRoute(id, update, now) => UpdateAdmitted(t, id, update, now, publicHost);
      case SendHeartbeat(a, revision, os, now) =>
        ReachableTablesOk(options, before);
        HeartbeatAdmitted(t, options, a, revision, os, now, publicHost);
      case DeleteRoute(id) => DeleteAdmitted(t, id, publicHost);
      case Enroll(a) =>
    }
  }

  lemma DeleteAdmitted(t: Tables, id: string, publicHost: string)
    requires NoneReserved(t, publicHost)
    ensures NoneReserved(Delete(t, id).0, publicHost)
  {
    hide UsesReserved;
  }

  // ---- Requests for the management host ----

  /** Paths that belong to the control plane. */
  predicate ControlPath(path: string) { path == "/" || UnderReserved(path) }

  datatype Target = Control | ToRoute(route: Route) | NoRoute

  /** The HTTPS edge: on the management host a route comes first, then the control plane. */
  function Dispatch(routes: seq<Route>, publicHost: string, port: int, host: string, path: string, now: int): Target {
    var h := NormalizeHost(host);
    var selected := Select(routes, Query(Edge("https", port, true), h, path, now));
    if selected.Some? then ToRoute(selected.value)
    else if h == NormalizeHost(publicHost) then Control
    else NoRoute
  }

  /** A prefix that captures a reserved path is itself reserved. */
  lemma CapturesOnlyIfReserved(prefix: string, path: string)
    requires PrefixShape(prefix) && prefix != "" && ControlPath(path) && MatchesPath(prefix, path)
    ensures UnderReserved(prefix)
  {
    hide AllPathChars, AllSegments, MatchesPath, Segments;
    if path == "/" {
      assert |prefix| > 1;
      RootIsNotMatched(prefix);
    } else {
      var i :| 0 <= i < |RESERVED| && (path == RESERVED[i] || HasPrefix(path, RESERVED[i] + "/"));
      OneSegment(i);
      CapturesReserved(prefix, path, RESERVED[i]);
    }
  }

  /** A web route is refused for the sake of the management host if and only if it has that host and is not an HTTPS route
      on the default port, or some path of the control plane lies in its prefix. */
  lemma ReservedIff(r: Route, publicHost: string)
    requires r.protocol.IsWeb() && NormalizePathPrefix(r.pathPrefix) == Some(r.pathPrefix)
    ensures UsesReserved(r, publicHost) <==>
      && publicHost != "" && NormalizeHost(r.domain) == NormalizeHost(publicHost)
      && (r.protocol.HTTP? || r.publicPort !in {0, 443}
          || exists path :: ControlPath(path) && MatchesPath(r.pathPrefix, path))
  {
    hide NormalizeHost, UnderReserved;
    NormalizedPrefixShape(r.pathPrefix);
    if r.pathPrefix == "" {
      assert ControlPath("/") && MatchesPath(r.pathPrefix, "/");
    } else {
      if UnderReserved(r.pathPrefix) { assert ControlPath(r.pathPrefix) && MatchesPath(r.pathPrefix, r.pathPrefix); }
      hide PrefixShape, MatchesPath, NormalizePathPrefix, ControlPath;
      forall path | ControlPath(path) && MatchesPath(r.pathPrefix, path) ensures UnderReserved(r.pathPrefix) {
        CapturesOnlyIfReserved(r.pathPrefix, path);
      }
    }
  }

  /** A live route that shares the management host gets its requests, if none with a longer prefix does. */
  lemma RouteSharesHost(routes: seq<Route>, publicHost: string, port: int, host: string, path: string, now: int, r: Route)
    requires r in routes && IsLive(r, now) && r.protocol.HTTPS? && r.publicPort == 0
    requires r.domain == NormalizeHost(host) && MatchesPath(r.pathPrefix, path)
    ensures var target := Dispatch(routes, publicHost, port, host, path, now);
      target.ToRoute? && IsLive(target.route, now) && |r.pathPrefix| <= |target.route.pathPrefix|
  {
    hide NormalizeHost, IsLive, MatchesPath, Select;
    LiveIsServed(routes, Query(Edge("https", port, true), NormalizeHost(host), path, now), r);
  }

  lemma RootIsNotMatched(prefix: string)
    requires |prefix| > 1
    ensures !MatchesPath(prefix, "/")
  {}

  lemma OneSegment(i: nat)
    requires i < |RESERVED|
    ensures |RESERVED[i]| > 1 && RESERVED[i][0] == '/' && forall k :: 1 <= k < |RESERVED[i]| ==> RESERVED[i][k] != '/'
  {}

  lemma CapturesReserved(prefix: string, path: string, reserved: string)
    requires |prefix| > 1 && prefix[|prefix| - 1] != '/' && MatchesPath(prefix, path)
    requires |reserved| > 1 && forall k :: 1 <= k < |reserved| ==> reserved[k] != '/'
    requires path == reserved || HasPrefix(path, reserved + "/")
    ensures prefix == reserved || HasPrefix(prefix, reserved + "/")
  {
    assert prefix <= path && reserved <= path;
    if |prefix| > |reserved| {
      assert path[|reserved|] == '/' && prefix[|reserved|] == path[|reserved|];
    } else {
      assert |prefix| < |path| ==> path[|prefix|] == '/';
    }
  }

  /** The control plane gets every request for its paths on the management host, whatever routes the API admitted. */
  lemma ControlIsNeverShadowed(options: Options, commands: seq<Command>, routes: seq<Route>, publicHost: string,
                               port: int, host: string, path: string, now: int)
    requires forall c :: c in commands ==> Admitted(c, publicHost)
    requires Lists(routes, Run(options, commands))
    requires publicHost != "" && NormalizeHost(host) == NormalizeHost(publicHost) && ControlPath(path)
    ensures Dispatch(routes, publicHost, port, host, path, now) == Control
  {
    hide NormalizeHost, UsesReserved, ControlPath, Run, Select, Lists, Eligible;
    ReachableNoneReserved(options, commands, publicHost);
    ReachableTablesOk(options, commands);
    var q := Query(Edge("https", port, true), NormalizeHost(host), path, now);
    SelectsLongest(routes, q);
    forall r | r in routes ensures !Eligible(r, q) {
      NotEligible(options, Run(options, commands), routes, publicHost, q, r);
    }
  }

  lemma NotEligible(options: Options, t: Tables, routes: seq<Route>, publicHost: string, q: Query, r: Route)
    requires TablesOk(t, options) && NoneReserved(t, publicHost) && Lists(routes, t) && r in routes
    requires publicHost != "" && q.host == NormalizeHost(publicHost) && ControlPath(q.path)
    ensures !Eligible(r, q)
  {
    hide NormalizeHost, NormalizeDNSHost, NormalizePathPrefix, ValidHost, TrimSpace, ControlPath, UnderReserved,
      EndpointsDistinct, RevisionsBounded, PublicationReadyAt, PrefixShape, MatchesPath;
    var row := t.routes[r.id];
    CanonicalHasFields(row);
    assert SamePlace(r, row);
    if RouteMatches(r, q) {
      NormalizersAgree(row.domain);
      NormalizedPrefixShape(row.pathPrefix);
      if row.pathPrefix != "" {
        CapturesOnlyIfReserved(row.pathPrefix, q.path);
      }
    }
  }
}
