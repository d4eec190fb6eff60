/** A run in which a route converges, and is published, while its agent's living SSH master does not hold its forward:
    the route before it, with the same target, was deleted, and its remote port was handed on. */
module ConvergenceExample {
  import opened Results
  import opened Text
  import opened Hosts
  import opened Routes
  import opened RouteStore
  import opened StoreInvariants
  import opened Convergence
  import opened ConvergenceHeld
  import R = Reconciler
  import P = ReconcilerProperties
  import T = ReconcilerTracking
  import A = ReconcilerAgreement
  import C = ConvergenceProof
  import G = ConvergenceProgress
  import Y = Syncer

  const SAMPLE := Route("", "c", "n", TCP, "", "", false, "h", 1, 0, 1, "t", true, 0, 0, "", "", "", None, "", 0, 0)

  /** Every call is granted for both routes. */
  const ENV := T.Granting({"a", "b"}, {}, map["a" := 1, "b" := 1])

  lemma HostnameOfOne()
    ensures IsHostname("h") && ByteLen("h") == 1
  {
    assert Split("h", '.') == ["h"];
  }

  lemma HostOfOne()
    ensures ValidHost("h") && NormalizeHost("h") == "h"
  {
    hide ParsesAsIP, IsHostname, NormalizeHost, ByteLen;
    HostnameOfOne();
    ValidHostShape("h");
    NormalizeHostOfShape("h");
  }

  lemma SampleIsCanonical()
    ensures Canonical(SAMPLE)
  {
    hide NormalizeHost, ValidHost, TrimSpace, Validate;
    HostOfOne();
    assert Trimmed("n") && Trimmed("t");
    FieldsAreCanonical(SAMPLE);
  }

  /** The one row there is, as it was created with the first port of the range. */
  predicate OnlyRow(t: Tables, options: Options, id: string) {
    && "c" in t.agents && t.routes.Keys == {id}
    && var row := t.routes[id];
       && row.id == id && row.enabled && row.protocol == TCP && row.clientId == "c"
       && row.localHost == "h" && row.localPort == 1 && row.remotePort == options.portStart
  }

  predicate Runs(s: System, process: string) { process in s.processes && s.processes[process].agentId == "c" }

  function Creation(options: Options, id: string): Action {
    Admin(CreateRoute(SAMPLE, id, {options.portStart}, 0))
  }

  lemma CreatedIn(s: System, options: Options, id: string)
    requires options.Valid() && id != "" && "c" in s.tables.agents && s.tables.routes == map[]
    ensures var s' := Next(s, options, Creation(options, id));
      OnlyRow(s'.tables, options, id) && s'.processes == s.processes && s'.passes == s.passes
  {
    SampleIsCanonical();
    hide Recorded, Validate;
    assert !RemotePortUsed(s.tables.routes, options.portStart);
    assert AllocatePort(s.tables.routes, {options.portStart}, options.portStart, options.portEnd) == Some(options.portStart);
    hide AllocatePort, RemotePortUsed;
  }

  lemma DeletedFrom(s: System, options: Options, id: string)
    requires OnlyRow(s.tables, options, id)
    ensures var s' := Next(s, options, Admin(DeleteRoute(id)));
      "c" in s'.tables.agents && s'.tables.routes == map[] && s'.processes == s.processes && s'.passes == s.passes
  {
    hide Recorded;
    assert (s.tables.routes - {id}).Keys == {};
  }

  lemma CanRunAlone(s: System, options: Options, id: string, process: string)
    requires OnlyRow(s.tables, options, id) && Runs(s, process) && id in {"a", "b"}
    requires s.processes[process].rec.active.Keys <= {"a"}
    ensures G.CanRun(s, process, [id]) && G.Undisturbed(ENV, s.processes[process].rec, [id])
  {
    assert forall k :: k in [id] <==> k == id;
  }

  /** The forward that the sample route has under either ID. */
  function SampleForward(bindHost: string, options: Options): R.Forward {
    R.Forward(bindHost, options.portStart, "h", 1)
  }

  /** The process records the one route's forward, and its master lives. */
  predicate Holds(rec: R.State, options: Options, id: string) {
    && rec.active.Keys == {id} && rec.active[id] == SampleForward(rec.bindHost, options) && rec.master.alive
  }

  lemma RoundRecords(s: System, options: Options, process: string, id: string)
    requires Inv(s, options) && options.Valid() && OnlyRow(s.tables, options, id) && Runs(s, process) && id in {"a", "b"}
    requires G.CanRun(s, process, [id]) && G.Undisturbed(ENV, s.processes[process].rec, [id])
    ensures var later := G.From(s, options, G.Round(s, process, [id], 0, ENV, 0));
      && OnlyRow(later.tables, options, id) && Runs(later, process) && Holds(later.processes[process].rec, options, id)
      && later.passes == s.passes + [PassRecord("c", later.processes[process].rec)]
  {
    hide Inv, G.CanRun, G.Undisturbed, G.From, G.Round, R.ReconcilePass, TablesOk, Heartbeat, P.Wanted, C.HeartbeatEffect,
      T.Grants;
    var rec, after := s.processes[process].rec, G.RoundPass(s, process, [id], ENV).s;
    RoundPasses(s, options, process, [id], 0, ENV, 0);
    G.UndisturbedOutcome(s, options, process, [id], ENV);
    G.RoundDelivers(s, options, process, [id], 0, ENV, 0);
    var r := G.RoundReport(s, process, [id], ENV);
    C.HeartbeatHasEffect(s.tables, options, r.agentId, r.observed.revision, Observations(r.observed), 0);
    SameRow(s.tables, Heartbeat(s.tables, r.agentId, r.observed.revision, Observations(r.observed), 0).0, options, id);
    RoundServes(s, options, process, [id], ENV, s.tables.routes[id]);
    forall k ensures k in after.active <==> k == id {
      RoundWants(s, options, process, [id], ENV, k);
    }
    assert id in after.active.Keys && after.active.Keys == {id};
    RoundGrants(s, options, process, [id], ENV);
    G.InvParts(s, options, process);
    A.CooperativeStaysAlive(rec, G.Fetched(s.tables, "c", [id]), ENV);
  }

  lemma SameRow(t: Tables, t': Tables, options: Options, id: string)
    requires OnlyRow(t, options, id) && C.HeartbeatEffect(t, t')
    ensures OnlyRow(t', options, id)
  {
    var n, m := Y.NormalizedRoute(t.routes[id]), Y.NormalizedRoute(t'.routes[id]);
    assert n.protocol == TCP && n.localHost == "h" && n.enabled;
  }

  /** The second route asks for what is recorded for the first. */
  lemma SecondWants(s: System, options: Options, process: string)
    requires Inv(s, options) && options.Valid() && OnlyRow(s.tables, options, "b") && Runs(s, process)
    requires Holds(s.processes[process].rec, options, "a") && G.CanRun(s, process, ["b"])
    ensures A.WantsOf(s.processes[process].rec, Listed(s.tables, ["b"]), ENV.relayPorts, "a", "b")
  {
    hide Inv, G.CanRun, TablesOk, Validate, A.HandledBefore, R.Ids;
    var rec, routes := s.processes[process].rec, Listed(s.tables, ["b"]);
    G.InvParts(s, options, process);
    G.RowFacts(s.tables, options, "b");
    CanonicalIgnoresRowState(s.tables.routes["b"], Joined(s.tables, "b"));
    assert routes[..0] == [] && P.FirstRoute(routes, "b") == Some(routes[0]);
    assert P.Wanted(rec, routes, ENV.relayPorts, "b") == Some(SampleForward(rec.bindHost, options));
    assert "a" !in R.Ids(routes) by { G.ListedIds(s.tables, options, "c", ["b"]); assert "a" !in ["b"]; }
    A.NotListed(routes, "a", "b");
  }

  lemma AfterOne(options: Options, actions: seq<Action>, a: Action)
    ensures SystemAfter(options, actions + [a]) == Next(SystemAfter(options, actions), options, a)
  {
    hide Next;
    assert (actions + [a])[..|actions|] == actions;
  }

  /** Enrolment, a process, and the first route. */
  lemma Prepared(options: Options) returns (actions: seq<Action>)
    requires options.Valid()
    ensures var s := SystemAfter(options, actions);
      OnlyRow(s.tables, options, "a") && Runs(s, "p") && s.processes["p"].rec.active == map[] && s.passes == []
  {
    hide SystemAfter, OnlyRow;
    var enrol, start := Admin(Enroll("c")), StartProcess("p", "c", "e", false, R.DEAD);
    Enrolled(options, enrol);
    AfterOne(options, [enrol], start);
    var started := [enrol] + [start];
    CreatedIn(SystemAfter(options, started), options, "a");
    AfterOne(options, started, Creation(options, "a"));
    actions := started + [Creation(options, "a")];
  }

  /** And one round. */
  lemma FirstHalf(options: Options) returns (actions: seq<Action>)
    requires options.Valid()
    ensures var s := SystemAfter(options, actions);
      && OnlyRow(s.tables, options, "a") && Runs(s, "p") && Holds(s.processes["p"].rec, options, "a")
      && forall q :: 0 <= q < |s.passes| ==> s.passes[q].after.active.Keys == {"a"}
  {
    hide SystemAfter, G.From, G.Round, Inv, OnlyRow, Holds, Next, G.CanRun, G.Undisturbed;
    actions := Prepared(options);
    var s := SystemAfter(options, actions);
    C.RunKeeps(options, actions);
    CanRunAlone(s, options, "a", "p");
    RoundRecords(s, options, "p", "a");
    var round := G.Round(s, "p", ["a"], 0, ENV, 0);
    G.AfterIsFrom(options, actions, round);
    HoldsOne(G.From(s, options, round).processes["p"].rec, options, "a");
    actions := actions + round;
  }

  lemma HoldsOne(rec: R.State, options: Options, id: string)
    requires Holds(rec, options, id)
    ensures rec.active.Keys == {id}
  {}

  lemma Enrolled(options: Options, a: Action)
    requires a == Admin(Enroll("c"))
    ensures var s := SystemAfter(options, [a]);
      "c" in s.tables.agents && s.tables.routes == map[] && s.passes == [] && s.processes == map[]
  {
    assert [a][..0] == [];
  }

  /** The first route is deleted and one just like it created, which gets its remote port. */
  lemma Recreated(options: Options, actions: seq<Action>)
    requires options.Valid() && OnlyRow(SystemAfter(options, actions).tables, options, "a")
    ensures var s, s' := SystemAfter(options, actions),
        SystemAfter(options, actions + [Admin(DeleteRoute("a"))] + [Creation(options, "b")]);
      OnlyRow(s'.tables, options, "b") && s'.processes == s.processes && s'.passes == s.passes
  {
    hide SystemAfter, OnlyRow, Next;
    var deleted := actions + [Admin(DeleteRoute("a"))];
    AfterOne(options, actions, Admin(DeleteRoute("a")));
    DeletedFrom(SystemAfter(options, actions), options, "a");
    AfterOne(options, deleted, Creation(options, "b"));
    CreatedIn(SystemAfter(options, deleted), options, "b");
  }

  /** With every call granted: the second route is converged at its present revision and ready to be published, and every
      pass that served it left a living master that does not hold its forward. */
  lemma ConvergedNotHeld(options: Options) returns (actions: seq<Action>)
    requires options.Valid()
    ensures var s := SystemAfter(options, actions);
      && "b" in s.tables.routes && Converged(s.tables.routes["b"])
      && PublicationReadyAt(Joined(s.tables, "b"), 0)
      && (exists q :: ServedBy(s, s.tables.routes["b"], q))
      && (forall q :: ServedBy(s, s.tables.routes["b"], q) ==> !HeldBy(s, s.tables.routes["b"], q))
  {
    hide SystemAfter, G.From, G.Round, Inv, OnlyRow, Holds, HeldBy, Converged, PublicationReadyAt, G.CanRun, A.WantsOf, G.Undisturbed, ServedBy;
    actions := FirstHalf(options);
    Recreated(options, actions);
    HoldsOne(SystemAfter(options, actions).processes["p"].rec, options, "a");
    actions := actions + [Admin(DeleteRoute("a"))] + [Creation(options, "b")];
    var s := SystemAfter(options, actions);
    C.RunKeeps(options, actions);
    CanRunAlone(s, options, "b", "p");
    SecondWants(s, options, "p");
    var round := G.Round(s, "p", ["b"], 0, ENV, 0);
    RoundTakes(s, options, "p", ["b"], 0, ENV, 0, "a", "b");
    RoundPasses(s, options, "p", ["b"], 0, ENV, 0);
    G.RoundConverges(options, actions, "p", ["b"], 0, ENV, 0, "b");
    G.AfterIsFrom(options, actions, round);
    var later := SystemAfter(options, actions + round);
    forall q | ServedBy(later, later.tables.routes["b"], q) ensures q == |s.passes| {
      OwnIdRecorded(later, options, q);
    }
    actions := actions + round;
  }

  lemma OwnIdRecorded(s: System, options: Options, q: int)
    requires "b" in s.tables.routes && s.tables.routes["b"].id == "b" && ServedBy(s, s.tables.routes["b"], q)
    ensures 0 <= q < |s.passes| && "b" in s.passes[q].after.active
  {}
}
