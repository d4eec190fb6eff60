/** The list of routes that the edges read, against the tables it is read from. */
module Listing {
  import opened Routes
  import opened RouteStore

  /** A list of all rows, in any order, with the owners' heartbeats joined in. */
  ghost predicate Lists(routes: seq<Route>, t: Tables) {
    && (forall i :: 0 <= i < |routes| ==> routes[i].id in t.routes && routes[i] == Joined(t, routes[i].id))
    && (forall i, j :: 0 <= i < j < |routes| ==> routes[i].id != routes[j].id)
    && (forall id :: id in t.routes ==> exists i :: 0 <= i < |routes| && routes[i].id == id)
  }
}
