/** Extra HTTP and HTTPS listeners: the reconciling pass over public web ports (internal/edge/ports.go). */
module WebPorts {
  import opened Results
  import opened Routes

  datatype PortStatus = Published | BindError | Conflict

  /** A listener of ours, told from every other one by its serial. */
  datatype Server = Server(scheme: Protocol, serial: nat)

  /** Ports that other processes hold, whether HTTPS can be served, and which of our listeners have ended by themselves. */
  datatype World = World(busy: set<int>, tls: bool, ended: set<nat>)

  /** An enabled web route with a port of its own. */
  predicate WantsPort(r: Route) { r.protocol.IsWeb() && r.publicPort != 0 && r.enabled }

  /** The schemes that enabled routes want on a port. */
  function Schemes(routes: seq<Route>, port: int): (schemes: set<Protocol>)
    ensures forall s :: s in schemes <==> exists r :: r in routes && WantsPort(r) && r.publicPort == port && r.protocol == s
  {
    set i | 0 <= i < |routes| && WantsPort(routes[i]) && routes[i].publicPort == port :: routes[i].protocol
  }

  predicate Startable(port: int, scheme: Protocol, world: World) {
    (scheme.HTTPS? ==> world.tls) && port !in world.busy
  }

  /** The one scheme wanted on a port, if there is just one. */
  function SoleScheme(schemes: set<Protocol>): Option<Protocol> {
    if schemes == {} || (HTTP in schemes && HTTPS in schemes) then None
    else Some(if HTTP in schemes then HTTP else HTTPS)
  }

  /** The pass leaves the port's listener alone: it looks only at its scheme. */
  predicate Keeps(schemes: set<Protocol>, port: int, before: map<int, Server>) {
    port in before && SoleScheme(schemes) == Some(before[port].scheme)
  }

  /** What a port has after a pass: the listener it had, a new one, or none, and its status. */
  predicate PortAfter(server: Option<Server>, status: Option<PortStatus>, schemes: set<Protocol>, port: int,
                      before: map<int, Server>, serials: nat, world: World) {
    match SoleScheme(schemes)
    case None => server == None && status == if schemes == {} then None else Some(Conflict)
    case Some(scheme) =>
      if Keeps(schemes, port, before) then server == Some(before[port]) && status == Some(Published)
      else if Startable(port, scheme, world) then
        && server.Some? && server.value.scheme == scheme && server.value.serial >= serials
        && status == Some(Published)
      else server == None && status == Some(BindError)
  }

  function Found<V>(m: map<int, V>, port: int): Option<V> { if port in m then Some(m[port]) else None }

  lemma SchemesGrow(routes: seq<Route>, r: Route, port: int)
    ensures Schemes(routes + [r], port)
         == Schemes(routes, port) + if WantsPort(r) && r.publicPort == port then {r.protocol} else {}
  {
    hide WantsPort;
  }

  lemma SchemesAreWeb(routes: seq<Route>, port: int)
    ensures Schemes(routes, port) <= {HTTP, HTTPS}
  {}

  /** The first scheme seen on a port, and whether another one turned up. */
  predicate PortCollected(desired: map<int, Protocol>, conflicts: set<int>, schemes: set<Protocol>, p: int) {
    && (p in desired <==> schemes != {})
    && (p in desired ==> desired[p] in schemes)
    && (p in conflicts <==> p in desired && schemes != {desired[p]})
  }

  ghost predicate Collected(desired: map<int, Protocol>, conflicts: set<int>, routes: seq<Route>) {
    forall p: int :: PortCollected(desired, conflicts, Schemes(routes, p), p)
  }

  lemma CollectStep(desired: map<int, Protocol>, conflicts: set<int>, routes: seq<Route>, r: Route)
    requires Collected(desired, conflicts, routes)
    ensures !WantsPort(r) ==> Collected(desired, conflicts, routes + [r])
    ensures WantsPort(r) && r.publicPort in desired && desired[r.publicPort] != r.protocol ==>
      Collected(desired, conflicts + {r.publicPort}, routes + [r])
    ensures WantsPort(r) && (r.publicPort in desired ==> desired[r.publicPort] == r.protocol) ==>
      Collected(desired[r.publicPort := r.protocol], conflicts, routes + [r])
  {
    hide WantsPort, Schemes;
    var more, port := routes + [r], r.publicPort;
    forall p: int
      ensures !WantsPort(r) || p != port ==> PortCollected(desired, conflicts, Schemes(more, p), p)
      ensures WantsPort(r) && p == port ==> Schemes(more, p) == Schemes(routes, p) + {r.protocol}
    {
      assert PortCollected(desired, conflicts, Schemes(routes, p), p);
      SchemesGrow(routes, r, p);
    }
    assert PortCollected(desired, conflicts, Schemes(routes, port), port);
  }

  /** The first loop. */
  method Collect(routes: seq<Route>) returns (desired: map<int, Protocol>, conflicts: set<int>)
    ensures Collected(desired, conflicts, routes)
  {
    hide Schemes, Collected;
    desired, conflicts := map[], {};
    assert Collected(desired, conflicts, routes[..0]) by { NothingCollected(); }
    for i := 0 to |routes|
      invariant Collected(desired, conflicts, routes[..i])
    {
      var route := routes[i];
      CollectStep(desired, conflicts, routes[..i], route);
      assert routes[..i + 1] == routes[..i] + [route];
      if route.protocol.IsWeb() && route.publicPort != 0 && route.enabled {
        if route.publicPort in desired && desired[route.publicPort] != route.protocol {
          conflicts := conflicts + {route.publicPort};
        } else {
          desired := desired[route.publicPort := route.protocol];
        }
      }
    }
    assert routes[..|routes|] == routes;
  }

  lemma NothingCollected()
    ensures Collected(map[], {}, [])
  {}

  lemma Member<T>(s: set<T>) returns (x: T)
    requires s != {}
    ensures x in s
  {
    x :| x in s;
  }

  class PortsManager {
    var servers: map<int, Server>
    var statuses: map<int, PortStatus>
    var serials: nat

    constructor ()
      ensures servers == map[] && statuses == map[] && serials == 0
    {
      servers, statuses, serials := map[], map[], 0;
    }

    /** Opening a listener fails when the port is taken, also by a listener of our own. */
    method Start(port: int, scheme: Protocol, world: World) returns (ok: bool)
      modifies this`servers, this`serials
      ensures ok <==> Startable(port, scheme, world) && port !in old(servers)
      ensures servers == if ok then old(servers)[port := Server(scheme, old(serials))] else old(servers)
      ensures serials == if ok then old(serials) + 1 else old(serials)
    {
      if scheme == HTTPS && !world.tls { return false; }
      if port in world.busy || port in servers { return false; }
      servers := servers[port := Server(scheme, serials)];
      serials := serials + 1;
      return true;
    }

    /** Stops every listener that is not wanted with its scheme. */
    method StopUnwanted(desired: map<int, Protocol>)
      modifies this`servers
      ensures forall p :: p in servers <==> p in old(servers) && p in desired && old(servers)[p].scheme == desired[p]
      ensures forall p :: p in servers ==> servers[p] == old(servers)[p]
    {
      var todo := servers.Keys;
      while todo != {}
        invariant todo <= servers.Keys <= old(servers).Keys
        invariant forall p :: p in servers ==> servers[p] == old(servers)[p]
        invariant forall p :: p in old(servers) && p !in todo ==>
          (p in servers <==> p in desired && old(servers)[p].scheme == desired[p])
        decreases todo
      {
        ghost var some := Member(todo);
        var port :| port in todo;
        if port !in desired || desired[port] != servers[port].scheme {
          servers := servers - {port};
        }
        todo := todo - {port};
      }
    }

    /** Starts what is missing and reports on every desired port. */
    method StartMissing(desired: map<int, Protocol>, conflicts: set<int>, world: World)
      returns (found: map<int, PortStatus>)
      requires forall p :: p in servers ==> p in desired
      requires forall p :: p in conflicts ==> p !in desired
      modifies this`servers, this`serials
      ensures forall p :: p in servers ==> p in desired
      ensures forall p :: p in desired ==> (p in servers <==> p in old(servers) || Startable(p, desired[p], world))
      ensures forall p :: p in old(servers) ==> servers[p] == old(servers)[p]
      ensures forall p :: p in servers && p !in old(servers) ==>
        servers[p].scheme == desired[p] && servers[p].serial >= old(serials)
      ensures found.Keys == desired.Keys + conflicts
      ensures forall p :: p in conflicts ==> found[p] == Conflict
      ensures forall p :: p in desired ==> found[p] == if p in servers then Published else BindError
    {
      hide Startable;
      found := map p | p in conflicts :: Conflict;
      var todo := desired.Keys;
      while todo != {}
        invariant todo <= desired.Keys && old(serials) <= serials
        invariant forall p :: p in servers ==> p in desired
        invariant forall p :: p in desired ==>
          (p in servers <==> p in old(servers) || (p !in todo && Startable(p, desired[p], world)))
        invariant forall p :: p in old(servers) ==> servers[p] == old(servers)[p]
        invariant forall p :: p in servers && p !in old(servers) ==>
          servers[p].scheme == desired[p] && servers[p].serial >= old(serials)
        invariant found.Keys == desired.Keys - todo + conflicts
        invariant forall p :: p in conflicts ==> found[p] == Conflict
        invariant forall p :: p in desired && p !in todo ==> found[p] == if p in servers then Published else BindError
        decreases todo
      {
        ghost var some := Member(todo);
        var port :| port in todo;
        if port in servers {
          found := found[port := Published];
        } else {
          var ok := Start(port, desired[port], world);
          found := found[port := if ok then Published else BindError];
        }
        todo := todo - {port};
      }
    }

    /** One pass. A failing list of routes changes nothing. */
    method Reconcile(list: Option<seq<Route>>, world: World)
      modifies this
      ensures list.None? ==> servers == old(servers) && statuses == old(statuses)
      ensures list.Some? ==> Passed(servers, statuses, list.value, old(servers), old(serials), world)
    {
      hide Schemes, Startable, Collected, PortAfter;
      if list.None? { return; }
      var desired, conflicts := Collect(list.value);
      CollectedSchemes(desired, conflicts, list.value);
      desired := map p | p in desired && p !in conflicts :: desired[p];
      StopUnwanted(desired);
      var found := StartMissing(desired, conflicts, world);
      statuses := found;
      forall p
        ensures PortAfter(Found(servers, p), Found(statuses, p), Schemes(list.value, p), p, old(servers), old(serials), world)
      {
        PortDone(servers, statuses, desired, conflicts, Schemes(list.value, p), p, old(servers), old(serials), world);
      }
    }
  }

  /** What the two loops leave for a port is what a pass is to leave there. */
  lemma PortDone(servers: map<int, Server>, statuses: map<int, PortStatus>, desired: map<int, Protocol>, conflicts: set<int>,
                 schemes: set<Protocol>, p: int, before: map<int, Server>, serials: nat, world: World)
    requires p in conflicts <==> HTTP in schemes && HTTPS in schemes
    requires p in desired <==> SoleScheme(schemes).Some?
    requires p in desired ==> desired[p] == SoleScheme(schemes).value
    requires p in servers ==> p in desired
    requires p in before && p in desired && before[p].scheme == desired[p] ==> p in servers && servers[p] == before[p]
    requires p in desired && !(p in before && before[p].scheme == desired[p]) ==>
      && (p in servers <==> Startable(p, desired[p], world))
      && (p in servers ==> servers[p].scheme == desired[p] && servers[p].serial >= serials)
    requires p in statuses <==> p in desired || p in conflicts
    requires p in conflicts ==> statuses[p] == Conflict
    requires p in desired ==> statuses[p] == if p in servers then Published else BindError
    ensures PortAfter(Found(servers, p), Found(statuses, p), schemes, p, before, serials, world)
  {
    hide Startable;
  }

  /** A pass over the routes has set every port. */
  ghost predicate Passed(servers: map<int, Server>, statuses: map<int, PortStatus>, routes: seq<Route>,
                         before: map<int, Server>, serials: nat, world: World) {
    forall p :: PortAfter(Found(servers, p), Found(statuses, p), Schemes(routes, p), p, before, serials, world)
  }

  lemma CollectedSchemes(desired: map<int, Protocol>, conflicts: set<int>, routes: seq<Route>)
    requires Collected(desired, conflicts, routes)
    ensures forall p ::
      && (p in conflicts <==> HTTP in Schemes(routes, p) && HTTPS in Schemes(routes, p))
      && (p in desired <==> Schemes(routes, p) != {})
      && (p in desired && p !in conflicts ==> desired[p] == if HTTP in Schemes(routes, p) then HTTP else HTTPS)
  {
    forall p ensures Schemes(routes, p) <= {HTTP, HTTPS} { SchemesAreWeb(routes, p); }
    hide Schemes;
  }

  /** Some route wants the port for the scheme. */
  ghost predicate WantedFor(routes: seq<Route>, port: int, scheme: Protocol) {
    exists r :: r in routes && r.enabled && r.publicPort == port != 0 && r.protocol == scheme && (scheme.HTTP? || scheme.HTTPS?)
  }

  /** After a pass a port wanted for one scheme has a listener of that scheme, unless it has to be opened and somebody else
      holds the port or HTTPS cannot be served; a port wanted for both or for none has no listener. */
  lemma ServedUnlessBlocked(servers: map<int, Server>, statuses: map<int, PortStatus>, routes: seq<Route>,
                            before: map<int, Server>, serials: nat, world: World, port: int, scheme: Protocol)
    requires Passed(servers, statuses, routes, before, serials, world)
    requires scheme == HTTP || scheme == HTTPS
    ensures var other := if scheme.HTTP? then HTTPS else HTTP;
      if !WantedFor(routes, port, scheme) then port in servers ==> servers[port].scheme == other
      else if WantedFor(routes, port, other) then
        port !in servers && port in statuses && statuses[port] == Conflict
      else if port in servers then
        && servers[port].scheme == scheme && port in statuses && statuses[port] == Published
        && (port in before && before[port].scheme == scheme ==> servers[port] == before[port])
      else
        && (port in world.busy || (scheme.HTTPS? && !world.tls)) && !(port in before && before[port].scheme == scheme)
        && port in statuses && statuses[port] == BindError
  {
    WantedIsScheme(routes, port, HTTP);
    WantedIsScheme(routes, port, HTTPS);
    SchemesAreWeb(routes, port);
    hide Schemes, WantedFor;
    assert PortAfter(Found(servers, port), Found(statuses, port), Schemes(routes, port), port, before, serials, world);
  }

  lemma WantedIsScheme(routes: seq<Route>, port: int, scheme: Protocol)
    ensures WantedFor(routes, port, scheme) <==> scheme in Schemes(routes, port)
  {}

  // ---- What "published" is worth ----

  /** A published port has a listener that has not ended. */
  ghost predicate PublishedIsLive(servers: map<int, Server>, statuses: map<int, PortStatus>, ended: set<nat>) {
    forall p :: p in statuses && statuses[p] == Published ==> p in servers && servers[p].serial !in ended
  }

  /** After a pass every published port has a live listener if and only if none of the listeners that the pass keeps had
      ended: a new one is live, and an ended one is kept as long as its scheme is wanted. */
  lemma PublishedIsLiveIff(servers: map<int, Server>, statuses: map<int, PortStatus>, routes: seq<Route>,
                           before: map<int, Server>, serials: nat, world: World)
    requires Passed(servers, statuses, routes, before, serials, world)
    requires forall n :: n in world.ended ==> n < serials
    ensures PublishedIsLive(servers, statuses, world.ended) <==>
      forall p :: p in before && before[p].serial in world.ended ==> !Keeps(Schemes(routes, p), p, before)
  {
    hide Schemes, PortAfter, Keeps;
    forall p
      ensures p in statuses && statuses[p] == Published ==> p in servers && (servers[p].serial in world.ended ==>
        p in before && before[p].serial in world.ended && Keeps(Schemes(routes, p), p, before))
      ensures p in before && before[p].serial in world.ended && Keeps(Schemes(routes, p), p, before) ==>
        p in statuses && statuses[p] == Published && p in servers && servers[p].serial in world.ended
    {
      PortLive(Found(servers, p), Found(statuses, p), Schemes(routes, p), p, before, serials, world);
    }
  }

  lemma PortLive(server: Option<Server>, status: Option<PortStatus>, schemes: set<Protocol>, port: int,
                 before: map<int, Server>, serials: nat, world: World)
    requires PortAfter(server, status, schemes, port, before, serials, world)
    requires forall n :: n in world.ended ==> n < serials
    ensures status == Some(Published) ==> server.Some? && (server.value.serial in world.ended ==>
      port in before && before[port].serial in world.ended && Keeps(schemes, port, before))
    ensures Keeps(schemes, port, before) ==> status == Some(Published) && server == Some(before[port])
  {}

  /** A route's listener on port 8080 has ended by itself. The pass publishes the port all the same, and opens no other. */
  lemma EndedStaysPublished(route: Route, servers: map<int, Server>, statuses: map<int, PortStatus>)
    requires route.protocol == HTTP && route.publicPort == 8080 && route.enabled
    requires Passed(servers, statuses, [route], map[8080 := Server(HTTP, 0)], 1, World({}, false, {0}))
    ensures 8080 in statuses && statuses[8080] == Published && servers == map[8080 := Server(HTTP, 0)]
  {
    forall p ensures Schemes([route], p) == if p == 8080 then {HTTP} else {} {
      assert [route][0] == route;
    }
    hide Schemes;
    forall p ensures (p in servers <==> p == 8080) && (p in servers ==> servers[p] == Server(HTTP, 0)) {
      assert PortAfter(Found(servers, p), Found(statuses, p), Schemes([route], p), p, map[8080 := Server(HTTP, 0)], 1,
                       World({}, false, {0}));
    }
    assert PortAfter(Found(servers, 8080), Found(statuses, 8080), Schemes([route], 8080), 8080,
                     map[8080 := Server(HTTP, 0)], 1, World({}, false, {0}));
  }
}
