/** No web port of a reachable route table is wanted twice, by two schemes or by both edges. */
module WebConflicts {
  import opened Routes
  import opened RouteStore
  import opened StoreInvariants
  import opened Listing
  import WebPorts
  import StreamManager

  /** For the list of a reachable table the conflict branch of the web-port pass is never taken. */
  lemma NeverInConflict(options: Options, commands: seq<Command>, routes: seq<Route>, port: int)
    requires Lists(routes, Run(options, commands))
    ensures !(HTTP in WebPorts.Schemes(routes, port) && HTTPS in WebPorts.Schemes(routes, port))
  {
    hide TablesOk, Run;
    var t := Run(options, commands);
    ReachableTablesOk(options, commands);
    Distinct(t, options);
    if HTTP in WebPorts.Schemes(routes, port) && HTTPS in WebPorts.Schemes(routes, port) {
      var a :| a in routes && WebPorts.WantsPort(a) && a.publicPort == port && a.protocol == HTTP;
      var b :| b in routes && WebPorts.WantsPort(b) && b.publicPort == port && b.protocol == HTTPS;
      OneSchemePerPort(t, routes, a, b);
    }
  }

  lemma OneSchemePerPort(t: Tables, routes: seq<Route>, a: Route, b: Route)
    requires EndpointsDistinct(t.routes) && Lists(routes, t) && a in routes && b in routes
    requires WebPorts.WantsPort(a) && WebPorts.WantsPort(b) && a.publicPort == b.publicPort
    ensures a.protocol == b.protocol
  {
    assert a.id == b.id || !PortClash(t.routes[a.id], t.routes[b.id]);
  }

  lemma Distinct(t: Tables, options: Options)
    requires TablesOk(t, options)
    ensures EndpointsDistinct(t.routes)
  {}

  /** The two edges never want the same port. */
  lemma EdgesApart(options: Options, commands: seq<Command>, routes: seq<Route>, now: int, web: Route, stream: Route)
    requires Lists(routes, Run(options, commands)) && web in routes && stream in routes
    requires WebPorts.WantsPort(web) && StreamManager.Claims(stream, now)
    ensures web.publicPort != stream.publicPort
  {
    hide TablesOk, Run, PublicationReadyAt;
    var t := Run(options, commands);
    ReachableTablesOk(options, commands);
    Distinct(t, options);
    assert !PortClash(t.routes[web.id], t.routes[stream.id]);
  }
}
