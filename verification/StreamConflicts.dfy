/** The conflict branches of the stream edge cannot be reached from a reachable route table. */
module StreamConflicts {
  import opened Routes
  import opened RouteStore
  import opened StoreInvariants
  import opened Listing
  import opened StreamManager

  lemma {:induction false} OneCandidate(routes: seq<Route>, now: int, key: PortKey)
    requires forall i, j :: 0 <= i < j < |routes| && Claims(routes[i], now) && Claims(routes[j], now) ==>
      KeyOf(routes[i]) != KeyOf(routes[j])
    ensures |Candidates(routes, now, key)| <= 1
  {
    hide Claims;
    if routes != [] {
      var prefix, last := routes[..|routes| - 1], routes[|routes| - 1];
      OneCandidate(prefix, now, key);
      if Candidates(prefix, now, key) != [] && Claims(last, now) {
        assert Candidates(prefix, now, key)[0] in prefix;
      }
    }
  }

  lemma ClaimsApart(t: Tables, routes: seq<Route>, now: int, i: nat, j: nat)
    requires EndpointsDistinct(t.routes) && Lists(routes, t) && i < j < |routes|
    requires Claims(routes[i], now) && Claims(routes[j], now)
    ensures KeyOf(routes[i]) != KeyOf(routes[j])
  {
    hide PublicationReadyAt;
    assert !SameEndpoint(t.routes[routes[i].id], t.routes[routes[j].id]);
  }

  /** For the list of a reachable table every claimed port has one claimant, and no stream route lacks a port. */
  lemma NeverInConflict(options: Options, commands: seq<Command>, routes: seq<Route>, now: int, r: Route)
    requires Lists(routes, Run(options, commands)) && r in routes && r.protocol.IsStream()
    ensures Claims(r, now) ==> Sole(routes, now, KeyOf(r))
    ensures ScanStatus(r, now) != Status.Invalid
  {
    hide TablesOk, PublicationReadyAt, Candidates, Run;
    var t := Run(options, commands);
    ReachableTablesOk(options, commands);
    FromTables(t, options, routes, r);
    if Claims(r, now) {
      forall i, j | 0 <= i < j < |routes| && Claims(routes[i], now) && Claims(routes[j], now)
        ensures KeyOf(routes[i]) != KeyOf(routes[j])
      {
        ClaimsApart(t, routes, now, i, j);
      }
      OneCandidate(routes, now, KeyOf(r));
      assert r in Candidates(routes, now, KeyOf(r));
    }
  }

  lemma FromTables(t: Tables, options: Options, routes: seq<Route>, r: Route)
    requires TablesOk(t, options) && Lists(routes, t) && r in routes && r.protocol.IsStream()
    ensures EndpointsDistinct(t.routes) && r.publicPort >= 1
  {
    hide EndpointsDistinct, Canonical, RevisionsBounded;
    CanonicalHasFields(t.routes[r.id]);
  }
}
