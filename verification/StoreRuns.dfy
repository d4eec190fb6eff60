/** What the tables remember of a run: each agent its greatest and its last heartbeat, each row its latest observation. */
module StoreRuns {
  import opened Results
  import opened Routes
  import opened RouteStore
  import opened StoreInvariants

  /** Command k is a heartbeat of the agent, and the tables that it met accepted it. */
  predicate AcceptedAt(options: Options, commands: seq<Command>, k: int, agentId: string) {
    && 0 <= k < |commands| && commands[k].SendHeartbeat? && commands[k].agentId == agentId
    && Heartbeat(Run(options, commands[..k]), agentId, commands[k].revision, commands[k].observations, commands[k].now).1.Ok?
  }

  /** Command k is the agent's last accepted heartbeat. */
  ghost predicate LastAcceptedAt(options: Options, commands: seq<Command>, k: int, agentId: string) {
    AcceptedAt(options, commands, k, agentId) && forall j :: AcceptedAt(options, commands, j, agentId) ==> j <= k
  }

  lemma AcceptedInLonger(options: Options, commands: seq<Command>, more: seq<Command>, agentId: string)
    ensures forall k :: k < |commands| ==>
      (AcceptedAt(options, commands + more, k, agentId) <==> AcceptedAt(options, commands, k, agentId))
  {
    hide Heartbeat, Run;
    forall k | k < |commands|
      ensures AcceptedAt(options, commands + more, k, agentId) <==> AcceptedAt(options, commands, k, agentId)
    {
      if 0 <= k { assert (commands + more)[..k] == commands[..k]; }
    }
  }

  /** The tables accept the command as a heartbeat of the agent. */
  predicate AcceptsFrom(t: Tables, c: Command, agentId: string) {
    c.SendHeartbeat? && c.agentId == agentId && Heartbeat(t, agentId, c.revision, c.observations, c.now).1.Ok?
  }

  lemma AcceptedLast(options: Options, commands: seq<Command>, c: Command, agentId: string)
    ensures AcceptedAt(options, commands + [c], |commands|, agentId) <==> AcceptsFrom(Run(options, commands), c, agentId)
    ensures forall k :: AcceptedAt(options, commands + [c], k, agentId) ==> 0 <= k <= |commands|
  {
    hide Heartbeat, Run;
    assert (commands + [c])[..|commands|] == commands;
  }

  /** What a command does to the heartbeat half of an agent row. */
  lemma AgentAfter(t: Tables, options: Options, c: Command, agentId: string)
    requires agentId in Execute(t, options, c).agents
    ensures var after := Execute(t, options, c).agents[agentId];
      if AcceptsFrom(t, c, agentId) then
        && agentId in t.agents && t.agents[agentId].observedRevision <= c.revision
        && after.observedRevision == c.revision && after.lastSeenAt == Some(c.now)
      else if agentId in t.agents then
        after.observedRevision == t.agents[agentId].observedRevision && after.lastSeenAt == t.agents[agentId].lastSeenAt
      else after.observedRevision == 0 && after.lastSeenAt == None
  {
    hide Validate, AllocatePort, PublicPortAvailable, EndpointAvailable, ObserveAll;
  }

  lemma AcceptedHasAgent(options: Options, commands: seq<Command>, k: int, agentId: string)
    requires AcceptedAt(options, commands, k, agentId)
    ensures agentId in Run(options, commands).agents
    ensures commands[k].revision <= Run(options, commands).agents[agentId].observedRevision
  {
    hide Run, TablesOk;
    var before, c := commands[..k], commands[k];
    assert before + [c] == commands[..k + 1] && commands[..k + 1] + commands[k + 1..] == commands;
    assert (before + [c])[..k] == before;
    AcceptedRuns(options, before, c);
    AgentAfter(Run(options, before), options, c, agentId);
    ReachableObservationsGrow(options, before + [c], commands[k + 1..]);
  }

  lemma AcceptedRuns(options: Options, commands: seq<Command>, c: Command)
    ensures Run(options, commands + [c]) == Execute(Run(options, commands), options, c)
  {
    hide Execute;
    assert (commands + [c])[..|commands|] == commands;
  }

  /** The row has the greatest revision that the agent's heartbeats got accepted, and the time of the last one. */
  ghost predicate Remembers(options: Options, commands: seq<Command>, agentId: string, row: AgentRow) {
    && (forall k :: AcceptedAt(options, commands, k, agentId) ==> commands[k].revision <= row.observedRevision)
    && (row.observedRevision == 0
        || exists k :: AcceptedAt(options, commands, k, agentId) && commands[k].revision == row.observedRevision)
    && (row.lastSeenAt.None? ==> forall k :: !AcceptedAt(options, commands, k, agentId))
    && (row.lastSeenAt.Some? ==>
          exists k :: LastAcceptedAt(options, commands, k, agentId) && row.lastSeenAt == Some(commands[k].now))
  }

  /** After every run an agent row has the greatest revision that its heartbeats got accepted, and the time of the last. */
  lemma {:induction false} AgentRemembers(options: Options, commands: seq<Command>, agentId: string)
    requires agentId in Run(options, commands).agents
    ensures Remembers(options, commands, agentId, Run(options, commands).agents[agentId])
  {
    hide Run, Execute;
    forall k | AcceptedAt(options, commands, k, agentId)
      ensures commands[k].revision <= Run(options, commands).agents[agentId].observedRevision
    {
      AcceptedHasAgent(options, commands, k, agentId);
    }
    if commands == [] {
      NothingRun(options);
    } else {
      var n := |commands| - 1;
      var earlier, c := commands[..n], commands[n];
      assert commands == earlier + [c];
      AcceptedRuns(options, earlier, c);
      AgentAfter(Run(options, earlier), options, c, agentId);
      AcceptedInLonger(options, earlier, [c], agentId);
      AcceptedLast(options, earlier, c, agentId);
      if agentId in Run(options, earlier).agents { AgentRemembers(options, earlier, agentId); }
      AgentRemembersStep(options, earlier, c, agentId);
    }
  }

  lemma NothingRun(options: Options)
    ensures Run(options, []).agents == map[]
  {}

  lemma AgentRemembersStep(options: Options, earlier: seq<Command>, c: Command, agentId: string)
    requires agentId in Run(options, earlier + [c]).agents
    requires var row := Run(options, earlier + [c]).agents[agentId];
      if AcceptsFrom(Run(options, earlier), c, agentId) then
        row.observedRevision == c.revision && row.lastSeenAt == Some(c.now)
      else if agentId in Run(options, earlier).agents then
        && row.observedRevision == Run(options, earlier).agents[agentId].observedRevision
        && row.lastSeenAt == Run(options, earlier).agents[agentId].lastSeenAt
      else row.observedRevision == 0 && row.lastSeenAt == None
    requires forall k :: k < |earlier| ==>
      (AcceptedAt(options, earlier + [c], k, agentId) <==> AcceptedAt(options, earlier, k, agentId))
    requires AcceptedAt(options, earlier + [c], |earlier|, agentId) <==> AcceptsFrom(Run(options, earlier), c, agentId)
    requires forall k :: AcceptedAt(options, earlier + [c], k, agentId) ==> 0 <= k <= |earlier|
    requires agentId in Run(options, earlier).agents ==>
      Remembers(options, earlier, agentId, Run(options, earlier).agents[agentId])
    requires forall k :: AcceptedAt(options, earlier + [c], k, agentId) ==>
      (earlier + [c])[k].revision <= Run(options, earlier + [c]).agents[agentId].observedRevision
    ensures Remembers(options, earlier + [c], agentId, Run(options, earlier + [c]).agents[agentId])
  {
    hide Run, AcceptsFrom;
    var commands := earlier + [c];
    if AcceptsFrom(Run(options, earlier), c, agentId) {
      assert LastAcceptedAt(options, commands, |earlier|, agentId);
    } else if agentId in Run(options, earlier).agents {
      var row := Run(options, earlier).agents[agentId];
      if row.observedRevision != 0 {
        var k :| AcceptedAt(options, earlier, k, agentId) && earlier[k].revision == row.observedRevision;
        assert AcceptedAt(options, commands, k, agentId) && commands[k] == earlier[k];
      }
      if row.lastSeenAt.Some? {
        var k :| LastAcceptedAt(options, earlier, k, agentId) && row.lastSeenAt == Some(earlier[k].now);
        assert LastAcceptedAt(options, commands, k, agentId) && commands[k] == earlier[k];
      }
    } else {
      forall k ensures !AcceptedAt(options, earlier, k, agentId) {
        if AcceptedAt(options, earlier, k, agentId) { AcceptedHasAgent(options, earlier, k, agentId); }
      }
    }
  }

  /** Once a heartbeat was accepted, every later one of that agent at an older revision is refused and changes nothing. */
  lemma LateIsRefused(options: Options, commands: seq<Command>, k: int, agentId: string, revision: int, os: seq<Observation>,
                      now: int)
    requires AcceptedAt(options, commands, k, agentId) && revision < commands[k].revision
    ensures Heartbeat(Run(options, commands), agentId, revision, os, now) == (Run(options, commands), Err(Invalid))
  {
    hide Run;
    AcceptedHasAgent(options, commands, k, agentId);
  }

  /** In every run a heartbeat is accepted if and only if its agent is enrolled, it is not behind any accepted one, and
      neither it nor any of its observations is negative or ahead of the agent's desired revision. */
  lemma AcceptedIff(options: Options, commands: seq<Command>, agentId: string, revision: int, os: seq<Observation>, now: int)
    ensures var t := Run(options, commands);
      Heartbeat(t, agentId, revision, os, now).1.Ok? <==>
        && agentId in t.agents
        && (forall k :: AcceptedAt(options, commands, k, agentId) ==> commands[k].revision <= revision)
        && 0 <= revision <= t.agents[agentId].desiredRevision
        && forall i :: 0 <= i < |os| ==> 0 <= os[i].observedRevision <= t.agents[agentId].desiredRevision
  {
    hide Run, ObserveAll, AcceptedAt;
    if agentId in Run(options, commands).agents { AgentRemembers(options, commands, agentId); }
  }

  // ---- Rows ----

  predicate DistinctObservations(os: seq<Observation>) {
    forall i, j :: 0 <= i < j < |os| ==> os[i].routeId != os[j].routeId
  }

  /** The observation is about a row of its agent, and not behind the row. */
  predicate Applies(row: Route, agentId: string, o: Observation) {
    row.clientId == agentId && row.desiredRevision <= o.observedRevision && row.observedRevision <= o.observedRevision
  }

  /** The row with everything that an observation says. */
  function ObservedAs(row: Route, o: Observation, now: int): Route {
    row.(observedRevision := o.observedRevision, localStatus := o.localStatus, tunnelStatus := o.tunnelStatus,
         lastError := o.lastError, updatedAt := now)
  }

  lemma {:induction false} UnnamedStays(routes: map<string, Route>, agentId: string, os: seq<Observation>, now: int, id: string)
    requires id in routes && forall i :: 0 <= i < |os| ==> os[i].routeId != id
    ensures id in ObserveAll(routes, agentId, os, now) && ObserveAll(routes, agentId, os, now)[id] == routes[id]
  {
    if os != [] { UnnamedStays(routes, agentId, os[..|os| - 1], now, id); }
  }

  /** A row that a report names once becomes what it says of it if that applies, and stays as it was if not. */
  lemma {:induction false} NamedIsObserved(routes: map<string, Route>, agentId: string, os: seq<Observation>, now: int, i: nat)
    requires DistinctObservations(os) && i < |os| && os[i].routeId in routes
    ensures var id, after := os[i].routeId, ObserveAll(routes, agentId, os, now);
      && id in after
      && after[id] == if Applies(routes[id], agentId, os[i]) then ObservedAs(routes[id], os[i], now) else routes[id]
  {
    var earlier := os[..|os| - 1];
    if i == |os| - 1 {
      UnnamedStays(routes, agentId, earlier, now, os[i].routeId);
    } else {
      NamedIsObserved(routes, agentId, earlier, now, i);
    }
  }
}
