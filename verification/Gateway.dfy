/** Which route serves a request, and the path it is given (internal/gateway/gateway.go). */
module Gateway {
  import opened Results
  import opened Text
  import opened Routes
  import opened RouteStore
  import opened StoreInvariants
  import opened Listing

  /** The listener a request came in through; the legacy listener has no scheme. */
  datatype Edge = Edge(scheme: string, port: int, isDefault: bool)

  datatype Query = Query(edge: Edge, host: string, path: string, now: int)

  predicate RouteMatches(r: Route, q: Query) {
    && r.protocol.IsWeb() && r.domain == q.host
    && (if q.edge.scheme == "" then r.publicPort == 0
        else if q.edge.scheme == r.protocol.Name() then
          if r.publicPort == 0 then q.edge.isDefault else !q.edge.isDefault && q.edge.port == r.publicPort
        else false)
    && MatchesPath(r.pathPrefix, q.path)
  }

  predicate Eligible(r: Route, q: Query) {
    RouteMatches(r, q) && PublicationReadyAt(r, q.now)
  }

  /** Going through the list, a route replaces the selected one only with a longer prefix. */
  function Select(routes: seq<Route>, q: Query): Option<Route> {
    if routes == [] then None
    else
      var before, last := Select(routes[..|routes| - 1], q), routes[|routes| - 1];
      if Eligible(last, q) && (before.None? || |last.pathPrefix| > |before.value.pathPrefix|) then Some(last) else before
  }

  method SelectRoute(routes: seq<Route>, q: Query) returns (selected: Option<Route>)
    ensures selected == Select(routes, q)
  {
    hide RouteMatches, PublicationReadyAt;
    selected := None;
    for i := 0 to |routes|
      invariant selected == Select(routes[..i], q)
    {
      assert routes[..i + 1][..i] == routes[..i];
      var route := routes[i];
      if RouteMatches(route, q) && PublicationReadyAt(route, q.now) {
        if selected.None? || |route.pathPrefix| > |selected.value.pathPrefix| {
          selected := Some(route);
        }
      }
    }
    assert routes[..|routes|] == routes;
  }

  // ---- Who serves what ----

  /** The route is enabled, reported up at its revision, and its agent was seen no more than 90 seconds ago. */
  predicate IsLive(r: Route, now: int) {
    && r.enabled && r.tunnelStatus == "up" && r.desiredRevision <= r.observedRevision
    && r.agentLastSeenAt.Some? && r.agentLastSeenAt.value - 5_000_000_000 <= now <= r.agentLastSeenAt.value + 90_000_000_000
  }

  /** A route without a port of its own is served on the default listener of its scheme, wherever that is bound, and on
      the legacy listener; a route with one is served on the listener of its scheme at that port. */
  predicate BelongsTo(r: Route, edge: Edge) {
    && (r.protocol.HTTP? || r.protocol.HTTPS?)
    && if r.publicPort == 0 then
         edge.scheme == "" || (edge.isDefault && edge.scheme == if r.protocol.HTTP? then "http" else "https")
       else
         edge.scheme == (if r.protocol.HTTP? then "http" else "https") && !edge.isDefault && edge.port == r.publicPort
  }

  /** A request is served by a route exactly if the route lives, belongs to the listener, and has the host and the path. */
  lemma EligibleIff(r: Route, q: Query)
    ensures Eligible(r, q) <==>
      IsLive(r, q.now) && BelongsTo(r, q.edge) && r.domain == q.host
      && (r.pathPrefix == "" || q.path == r.pathPrefix || r.pathPrefix + "/" <= q.path)
  {
    assert HTTP.Name() == "http" && HTTPS.Name() == "https";
  }

  /** So a live route that belongs to the listener is served, by itself or by one with a longer prefix. */
  lemma LiveIsServed(routes: seq<Route>, q: Query, r: Route)
    requires r in routes && IsLive(r, q.now) && BelongsTo(r, q.edge) && r.domain == q.host && MatchesPath(r.pathPrefix, q.path)
    ensures Select(routes, q).Some? && |r.pathPrefix| <= |Select(routes, q).value.pathPrefix|
    ensures IsLive(Select(routes, q).value, q.now) && BelongsTo(Select(routes, q).value, q.edge)
  {
    hide IsLive, BelongsTo, Eligible, Select;
    EligibleIff(r, q);
    SelectsLongest(routes, q);
    EligibleIff(Select(routes, q).value, q);
  }

  // ---- The longest eligible prefix ----

  /** Nothing is selected exactly when nothing is eligible; the selected route is eligible, and no eligible one has a
      longer prefix. */
  lemma {:induction false} SelectsLongest(routes: seq<Route>, q: Query)
    ensures Select(routes, q).None? <==> forall r :: r in routes ==> !Eligible(r, q)
    ensures Select(routes, q).Some? ==>
      && Select(routes, q).value in routes && Eligible(Select(routes, q).value, q)
      && forall r :: r in routes && Eligible(r, q) ==> |r.pathPrefix| <= |Select(routes, q).value.pathPrefix|
  {
    hide Eligible;
    if routes != [] {
      SelectsLongest(routes[..|routes| - 1], q);
      assert routes == routes[..|routes| - 1] + [routes[|routes| - 1]];
    }
  }

  /** A path prefix as a list of segments. */
  function PrefixSegments(prefix: string): seq<string> { if prefix == "" then [] else Segments(prefix) }

  /** Eligible prefixes are comparable segment by segment: a shorter one is an initial part of a longer one. */
  lemma EligiblePrefixesNest(a: Route, b: Route, q: Query)
    requires Eligible(a, q) && Eligible(b, q) && |a.pathPrefix| <= |b.pathPrefix|
    requires PrefixShape(a.pathPrefix) && PrefixShape(b.pathPrefix) && q.path != "" && q.path[0] == '/'
    ensures PrefixSegments(a.pathPrefix) <= PrefixSegments(b.pathPrefix)
    ensures |a.pathPrefix| == |b.pathPrefix| ==> a.pathPrefix == b.pathPrefix
  {
    hide Segments, PublicationReadyAt, AllPathChars, AllSegments;
    if a.pathPrefix != "" {
      MatchesPathIsSegmentwise(a.pathPrefix, b.pathPrefix);
      PrefixesOfPath(a.pathPrefix, b.pathPrefix, q.path);
    }
  }

  lemma PrefixesOfPath(a: string, b: string, path: string)
    requires MatchesPath(a, path) && MatchesPath(b, path) && |a| <= |b| && a != ""
    ensures MatchesPath(a, b) && (|a| == |b| ==> a == b)
  {
    assert a <= path && b <= path;
    if |a| < |b| {
      assert path[|a|] == '/';
      assert b[..|a|] == a && b[|a|] == '/';
      assert b == a + "/" + b[|a| + 1..];
    }
  }

  /** Two eligible routes with prefixes of one length have the same prefix. */
  lemma SameLengthSamePrefix(a: Route, b: Route, q: Query)
    requires Eligible(a, q) && Eligible(b, q) && |a.pathPrefix| == |b.pathPrefix|
    ensures a.pathPrefix == b.pathPrefix
  {
    hide PublicationReadyAt;
    if a.pathPrefix != "" { PrefixesOfPath(a.pathPrefix, b.pathPrefix, q.path); }
  }

  // ---- List order ----

  /** Two routes of the list are eligible with the longest prefix. */
  ghost predicate Tied(routes: seq<Route>, q: Query) {
    exists a, b :: a in routes && b in routes && a != b && Longest(a, routes, q) && Longest(b, routes, q)
  }

  ghost predicate Longest(a: Route, routes: seq<Route>, q: Query) {
    && a in routes && Eligible(a, q)
    && forall r :: r in routes && Eligible(r, q) ==> |r.pathPrefix| <= |a.pathPrefix|
  }

  predicate Reordered(p: seq<Route>, routes: seq<Route>) { multiset(p) == multiset(routes) }

  lemma SameMembers(p: seq<Route>, routes: seq<Route>)
    requires Reordered(p, routes)
    ensures forall r :: r in p <==> r in routes
  {
    forall r ensures r in p <==> r in routes {
      assert r in p <==> r in multiset(p);
      assert r in routes <==> r in multiset(routes);
    }
  }

  /** A longest eligible route that comes first is selected. */
  lemma {:induction false} FirstLongestWins(a: Route, rest: seq<Route>, q: Query)
    requires Eligible(a, q) && forall r :: r in rest && Eligible(r, q) ==> |r.pathPrefix| <= |a.pathPrefix|
    ensures Select([a] + rest, q) == Some(a)
  {
    hide Eligible;
    var all := [a] + rest;
    if rest == [] {
      assert all[..0] == [];
    } else {
      var shorter := rest[..|rest| - 1];
      assert all[..|all| - 1] == [a] + shorter;
      FirstLongestWins(a, shorter, q);
    }
  }

  /** The list with one route moved to the front. */
  lemma MovedToFront(routes: seq<Route>, a: Route) returns (p: seq<Route>)
    requires a in routes
    ensures Reordered([a] + p, routes)
  {
    var i :| 0 <= i < |routes| && routes[i] == a;
    p := routes[..i] + routes[i + 1..];
    assert routes == routes[..i] + [a] + routes[i + 1..];
  }

  /** The selection depends on the order of the list exactly when two longest eligible routes tie. */
  lemma OrderMattersIffTied(routes: seq<Route>, q: Query)
    ensures (forall p :: Reordered(p, routes) ==> Select(p, q) == Select(routes, q)) <==> !Tied(routes, q)
  {
    hide Select, Longest, Reordered, Tied;
    if Tied(routes, q) {
      var p, p' := TieBreaks(routes, q);
    } else {
      forall p | Reordered(p, routes) ensures Select(p, q) == Select(routes, q) {
        NoTieNoOrder(routes, p, q);
      }
    }
  }

  lemma TieBreaks(routes: seq<Route>, q: Query) returns (p: seq<Route>, p': seq<Route>)
    requires Tied(routes, q)
    ensures Reordered(p, routes) && Reordered(p', routes) && Select(p, q) != Select(p', q)
  {
    hide Eligible, Select, Reordered;
    var a, b :| a in routes && b in routes && a != b && Longest(a, routes, q) && Longest(b, routes, q);
    var withoutA := MovedToFront(routes, a);
    var withoutB := MovedToFront(routes, b);
    p, p' := [a] + withoutA, [b] + withoutB;
    SameMembers(p, routes);
    SameMembers(p', routes);
    assert forall r :: r in withoutA ==> r in p;
    assert forall r :: r in withoutB ==> r in p';
    FirstLongestWins(a, withoutA, q);
    FirstLongestWins(b, withoutB, q);
  }

  lemma NoTieNoOrder(routes: seq<Route>, p: seq<Route>, q: Query)
    requires !Tied(routes, q) && Reordered(p, routes)
    ensures Select(p, q) == Select(routes, q)
  {
    hide Eligible, Select, Reordered;
    SameMembers(p, routes);
    SelectsLongest(p, q);
    SelectsLongest(routes, q);
    if Select(p, q).Some? {
      assert Longest(Select(p, q).value, routes, q) && Longest(Select(routes, q).value, routes, q);
    }
  }

  /** Routes of a reachable table tie only on the legacy listener, and then one is HTTP and the other HTTPS. */
  lemma TiesAreLegacy(options: Options, commands: seq<Command>, routes: seq<Route>, q: Query, a: Route, b: Route)
    requires Lists(routes, Run(options, commands))
    requires Longest(a, routes, q) && Longest(b, routes, q) && a != b
    ensures q.edge.scheme == "" && a.protocol != b.protocol
    ensures a.domain == b.domain && a.pathPrefix == b.pathPrefix && a.publicPort == 0 && b.publicPort == 0
  {
    hide TablesOk, Run, PublicationReadyAt, MatchesPath;
    var t := Run(options, commands);
    ReachableTablesOk(options, commands);
    SameLengthSamePrefix(a, b, q);
    EndpointsOf(t, options);
    assert !SameEndpoint(t.routes[a.id], t.routes[b.id]);
  }

  /** An HTTP and an HTTPS row for one place on the default ports, which the store allows, do tie there. */
  lemma TwinsTie(routes: seq<Route>, q: Query, a: Route, b: Route)
    requires q.edge.scheme == "" && a in routes && b in routes && a.protocol == HTTP && b.protocol == HTTPS
    requires a.domain == b.domain && a.pathPrefix == b.pathPrefix && a.publicPort == 0 && b.publicPort == 0
    requires Longest(a, routes, q) && PublicationReadyAt(b, q.now)
    ensures Tied(routes, q) && !SameEndpoint(a, b) && !PortClash(a, b)
  {
    hide PublicationReadyAt, MatchesPath;
    assert Longest(b, routes, q);
  }

  lemma EndpointsOf(t: Tables, options: Options)
    requires TablesOk(t, options)
    ensures EndpointsDistinct(t.routes)
  {}

  /** On a listener with a scheme the order of a reachable table's list never matters. */
  lemma SelectionIsUnique(options: Options, commands: seq<Command>, routes: seq<Route>, p: seq<Route>, q: Query)
    requires Lists(routes, Run(options, commands)) && Reordered(p, routes) && q.edge.scheme != ""
    ensures Select(p, q) == Select(routes, q)
  {
    hide Select, Run, Longest, Lists, Reordered;
    OrderMattersIffTied(routes, q);
    if Tied(routes, q) {
      var a, b :| a in routes && b in routes && a != b && Longest(a, routes, q) && Longest(b, routes, q);
      TiesAreLegacy(options, commands, routes, q, a, b);
    }
  }

  // ---- The path handed on ----

  /** The path a backend sees. */
  function ForwardedPath(r: Route, path: string): string {
    if r.stripPath && r.pathPrefix != "" then
      var trimmed := TrimPrefix(path, r.pathPrefix);
      if trimmed == "" then "/" else trimmed
    else path
  }

  /** Putting the prefix back in front of a stripped path gives the requested path; a bare prefix becomes "/". */
  lemma StrippingIsUndone(r: Route, path: string)
    requires PrefixShape(r.pathPrefix) && MatchesPath(r.pathPrefix, path) && path != "" && path[0] == '/'
    ensures ForwardedPath(r, path) != "" && ForwardedPath(r, path)[0] == '/'
    ensures !r.stripPath || r.pathPrefix == "" ==> ForwardedPath(r, path) == path
    ensures r.stripPath && r.pathPrefix != "" ==>
      if path == r.pathPrefix then ForwardedPath(r, path) == "/" else r.pathPrefix + ForwardedPath(r, path) == path
  {
    hide AllPathChars, AllSegments;
  }

  /** Stripping keeps different requests apart, but for a bare prefix with and without its final slash. */
  lemma StrippingIsInjective(r: Route, a: string, b: string)
    requires PrefixShape(r.pathPrefix) && a != "" && a[0] == '/' && b != "" && b[0] == '/'
    requires MatchesPath(r.pathPrefix, a) && MatchesPath(r.pathPrefix, b) && ForwardedPath(r, a) == ForwardedPath(r, b)
    ensures a == b || (r.stripPath && {a, b} == {r.pathPrefix, r.pathPrefix + "/"})
  {
    hide ForwardedPath, MatchesPath, PrefixShape;
    StrippingIsUndone(r, a);
    StrippingIsUndone(r, b);
  }
}
