# PortLoom, modelled in Dafny

PortLoom publishes services of private networks through reverse SSH tunnels. An administrator writes routes on a
server; agents fetch them, hold SSH forwards for them and report what they hold; HTTP and stream edges on the server
publish a route once its agent has reported it up at the route's revision.

This project models the protocols and state machines behind that and proves what they are for. Transactions, passes and
atomic regions are functions on values. The classes update fields as the program does, loop by loop, and are proved equal
to those functions; runs are folds of steps over arbitrary sequences of actions, so the main results hold for every
interleaving, failure and restart. What the environment decides (probes, clocks, random values, which calls succeed,
where a process dies) is an argument or an arbitrary value.

| files | content |
|---|---|
| `Results`, `Text`, `Hosts`, `Routes` | Go's string operations, host names and addresses, the route entity |
| `RouteStore`, `StoreInvariants`, `StoreWrites`, `StoreRuns`, `Listing` | route and agent tables: what every reachable state satisfies, what writes take and when they are refused, what heartbeats leave |
| `Reconciler`, `ReconcilerProperties`, `ReconcilerTracking`, `ReconcilerAgreement`, `ReconcilerOutcome` | the agent's pass over SSH forwards and relays, when its record is what the master holds, and exactly what it takes and reports |
| `Syncer` | accepting and replaying desired states |
| `Convergence`, `ConvergenceProof`, `ConvergenceProgress`, `ConvergenceHeld`, `ConvergenceExample` | the whole loop from a route write to a published route: what holds in every run, that it is reached, and when the master holds what was published |
| `ControlMaster` | the OpenSSH ControlMaster's lock, process and socket |
| `StreamSlots`, `StreamManager`, `StreamConflicts` | the stream edge: connections and slots, listeners |
| `WebPorts`, `WebConflicts` | extra HTTP and HTTPS listeners |
| `Enrollment`, `EnrollmentProtocol` | enrollment tokens, and agents that crash while enrolling |
| `Gateway`, `Management` | selecting a route for a request, and the management host |
| `Metrics`, `UdpFrame`, `AuthorizedKeys`, `Migration` | the ring of samples, datagram framing, SSH key lines, the schema upgrade |

`dafny verify dfyconfig.toml` checks the whole project.

## Where the code falls short of a property

Each of these is a lemma or a contract of the project; where a condition decides, it is proved to decide exactly.

- The reconciler's record of forwards can differ from what the SSH master holds, even when every call succeeds. A new
  route that wants the very forward (remote port and local target) of a route that is dropped in the same pass is recorded
  and reported up, and then the final sweep cancels the forward under it
  (`ReconcilerTracking.DroppedTwinTakesTheForward`). For the lists that the server sends, the record stays equal to the
  live forwards under every environment if and only if no route asks for the forward recorded for a route that the list
  dropped or names later (`ReconcilerAgreement.AgreesIffNoneRecorded`, and `ReconcilerAgreement.AgreesIffNoneTakes` for
  any list). The store produces the input: the port of a deleted row goes to the next row created, if no lower one can be
  had (`StoreInvariants.DeletedPortIsReused`). The probe of a port binds 127.0.0.1, so it does not see what an agent still
  forwards on an isolated address of its own.
- So a route can converge, and be published, while its agent's living master does not hold its forward
  (`ConvergenceExample.ConvergedNotHeld`). The same condition decides what one undisturbed round leaves
  (`ConvergenceHeld.RoundHoldsIff`), and no run falls short whose processes start counting on
  empty masters only and in which no pass is asked for a forward recorded for another route
  (`ConvergenceHeld.ConvergedMeansHeld`), as none is while no remote port changes hands
  (`ConvergenceHeld.OwnedPortsMeanHeld`).
- On the legacy listener, which has no scheme, an HTTP and an HTTPS route of one place tie, and list order decides
  (`Gateway.TwinsTie`, `Gateway.TiesAreLegacy`, `Gateway.OrderMattersIffTied`).
- An observation whose clock reading lags by an hour or more can start a slot of the last hour over, whose counts are then
  missing from the series (`Metrics.DisplacingIsSeen`, `Metrics.ExactIffInOrder`).
- A framed stream that ends right after a header reports the same end as one that ends between frames (`UdpFrame.Read`).
- Normalizing a host twice can differ from once (`Hosts.NormalizeHostNotIdempotent`), and exactly when it does is
  `Hosts.NormalizeHostTwiceIff`; on accepted names it does not, and both normalizers agree.
- A web listener that ended by itself stays published as long as its scheme is wanted, since a pass looks at nothing else
  (`WebPorts.EndedStaysPublished`, `WebPorts.PublishedIsLiveIff`).
- An agent whose claim has won keeps asking with it until it has the answer; once the token row is deleted the server
  refuses the claim for good, whatever new token the agent is given (`EnrollmentProtocol.RevokedWinnerIsRefused`,
  `EnrollmentProtocol.HonouredIff`).

## Model

| member | source | states |
|---|---|---|
| `Routes.ValidateFixed` | internal/domain/route.go:162-223 | a route that validation accepts is a fixed point of it, for all four protocols |
| `Routes.CanonicalIffFields` | internal/domain/route.go:162-223 | validating a route changes nothing if and only if its fields satisfy a check that never runs validation |
| `Routes.ValidateKeeps` | internal/domain/route.go:162-223 | validation rewrites name, target group, local host and the endpoint, and no other field |
| `Routes.ComputePathPrefix` | internal/domain/route.go:137-152 | the loop over the segments computes the normal form of a path prefix, or refuses it |
| `Routes.NormalizedPrefixShape` | internal/domain/route.go:137-152 | a normalized prefix is empty or a slash followed by proper segments, without a final slash |
| `Routes.NormalizePathPrefixFixed` | internal/domain/route.go:137-152 | normalizing a normalized prefix changes nothing |
| `Routes.NormalizePathPrefixIff` | internal/domain/route.go:137-152 | a path prefix is accepted exactly if, but for spaces around it and a final slash, it has the shape of a stored one |
| `Routes.MatchesPathIsSegmentwise` | internal/domain/route.go:79-84 | a prefix matches a path if and only if its segments are an initial part of the path's |
| `Hosts.NormalizersAgree` | internal/domain/route.go:103-130 | on every name that the DNS normalizer accepts both normalizers give the same host, which is a fixed point of both |
| `Hosts.NormalizeDNSHostIff` | internal/domain/route.go:110-130 | a DNS name is accepted exactly if it comes without a port and its normal form is a host name of two or more labels, the last with a letter, and no address |
| `Hosts.NormalizeHostFixed` | internal/domain/route.go:103-109 | a normalized host that is valid is left alone by normalizing again |
| `Hosts.NormalizeHostTwiceIff` | internal/domain/route.go:103-109 | normalizing twice is normalizing once if and only if the host part of the value, before its final dot is cut off, has no port of its own, does not end in two dots and has no space at its ends or before its final dot |
| `Hosts.NormalizeHostNotIdempotent` | internal/domain/route.go:103-109 | a value for which normalizing twice differs from once |
| `Hosts.RequestHost` | internal/domain/route.go:103-109 | upper case, a port and a final dot make no difference to the host name that a request is for |
| `Hosts.ValidHostShape` | internal/domain/route.go:155-160 | no valid host has a final dot, a bracket or exactly one colon |
| `RouteStore.Store.constructor` | internal/store/store.go:39-54 | a new store has empty tables |
| `RouteStore.Store.FindPort` | internal/store/routes.go:323-335 | the search loop returns the port that `AllocatePort` specifies |
| `RouteStore.Store.CreateRoute` | internal/store/routes.go:101-154 | the whole new state and the result are those of the create transaction |
| `RouteStore.Store.UpdateRoute` | internal/store/routes.go:156-199 | the whole new state and the result are those of the update transaction |
| `RouteStore.Store.DeleteRoute` | internal/store/routes.go:201-221 | the whole new state and the result are those of the delete transaction |
| `RouteStore.Store.RecordHeartbeat` | internal/store/routes.go:250-299 | both loops give the tables of the heartbeat transaction: guarded rows observed, all others as before, nothing on rejection |
| `StoreInvariants.AllocatePortIsLeast` | internal/store/routes.go:323-335 | the allocated remote port is the least free one, and there is none only if every port of the range is taken |
| `StoreInvariants.CreateWritesOrLeaves` | internal/store/routes.go:101-154 | a create commits one canonical row at its owner's next revision on the least free remote port, or changes nothing |
| `StoreInvariants.UpdateWritesOrLeaves` | internal/store/routes.go:156-199 | an update commits a row that keeps identity, owner, remote port and observation, at the owner's next revision, or changes nothing |
| `StoreInvariants.DeleteKeeps` | internal/store/routes.go:201-221 | a delete removes one row and advances its owner's revision, or changes nothing |
| `StoreInvariants.HeartbeatKeeps` | internal/store/routes.go:250-299 | a rejected heartbeat changes nothing; an accepted one only observes rows of its agent, never an older revision over a newer one |
| `StoreInvariants.WrittenKeeps` | internal/store/routes.go:55-79 | a write that passes the availability checks keeps endpoints, public ports, remote ports and revisions distinct and bounded |
| `StoreInvariants.ExecuteKeeps` | internal/store/routes.go:101-299 | every command keeps the table invariants, and takes back no observation of an agent or of a row that stays |
| `StoreInvariants.ReachableTablesOk` | internal/store/store.go:183-188 | in every reachable state web endpoints, stream ports and remote ports are distinct, no port is shared between schemes or classes, and observed <= desired revisions |
| `StoreInvariants.ReachableObservationsGrow` | internal/store/routes.go:250-299 | along every run an agent's observed and desired revisions never decrease |
| `StoreInvariants.RowObservationsGrow` | internal/store/routes.go:250-299 | along every run that does not delete it a row stays, and its observed and desired revisions never decrease |
| `StoreInvariants.DeletedPortIsReused` | internal/store/routes.go:323-344 | the row created after a delete gets the deleted row's remote port if and only if that port can be bound and every lower one of the range is used or cannot be bound |
| `StoreWrites.ValidateIff` | internal/domain/route.go:162-223 | validation accepts exactly the requests whose normal forms a route can have, and the result has what the request supplies in normal form |
| `StoreWrites.CreateTakes` | internal/store/routes.go:101-154 | a created row has everything that the request supplies, in normal form or as it is when the request is canonical, belongs to the named agent and is not yet observed |
| `StoreWrites.UpdateTakes` | internal/store/routes.go:156-199 | an updated row has everything that the request supplies; owner, remote port, birth and observation stay as they were |
| `StoreWrites.CreateIff` | internal/store/routes.go:101-154 | a create commits if and only if the request is acceptable, its agent is enrolled, a remote port is left, and the row leaves ids and public places distinct; the error names what failed first |
| `StoreWrites.UpdateIff` | internal/store/routes.go:156-199 | an update commits if and only if its row exists, the request is acceptable and the new row leaves public places distinct; the error names what failed first |
| `StoreRuns.AgentRemembers` | internal/store/routes.go:250-276 | after every run an agent has the greatest revision that its heartbeats got accepted, and the time of the last accepted one |
| `StoreRuns.LateIsRefused` | internal/store/routes.go:263-268 | once a heartbeat was accepted every later one at an older revision is refused and changes nothing |
| `StoreRuns.AcceptedIff` | internal/store/routes.go:263-294 | in every run a heartbeat is accepted if and only if its agent is enrolled, it is behind no accepted one, and neither it nor an observation is negative or ahead of the desired revision |
| `StoreRuns.NamedIsObserved` | internal/store/routes.go:277-294 | a row that a report names once becomes exactly what it says if that is not behind the row, and stays as it was if it is |
| `Reconciler.Reconciler.constructor` | internal/agent/reconciler.go:46-55 | a new reconciler records no forward and no relay |
| `Reconciler.Runner.EnsureMaster` | internal/agent/reconciler.go:167-175 | the runner contract, for a pass that has nothing recorded: success leaves a live master without forwards, and failure leaves the master as it was or stopped |
| `Reconciler.Runner.AddForward` | internal/agent/reconciler.go:176-182 | the runner contract: a forward is added on success only, and only to a live master |
| `Reconciler.Runner.Cancel` | internal/agent/reconciler.go:228-239 | the runner contract: a forward is removed on success only |
| `Reconciler.Runner.Close` | internal/agent/reconciler.go:64-74 | the runner contract: a successful close removes all forwards |
| `Reconciler.Reconciler.CancelRoute` | internal/agent/reconciler.go:228-239 | the record loses the route if and only if the cancel succeeds or nothing was recorded |
| `Reconciler.Reconciler.EnsureRelay` | internal/agent/reconciler.go:242-257 | a relay is kept for the same target, replaced for another one, and dropped when none can be had |
| `Reconciler.Reconciler.EstablishForward` | internal/agent/reconciler.go:155-183 | keep, replace or create a forward: the pass that results, with its report |
| `Reconciler.Reconciler.HandleRoute` | internal/agent/reconciler.go:77-184 | one iteration of the loop gives the specified pass in every branch |
| `Reconciler.Reconciler.CheckMaster` | internal/agent/reconciler.go:63-75 | a lost master is cleared away with its record, or stays unknown |
| `Reconciler.Reconciler.CancelStale` | internal/agent/reconciler.go:185-194 | in any order, exactly the forwards of unnamed routes whose cancel succeeds are gone, from the record and from the master |
| `Reconciler.Reconciler.Sweep` | internal/agent/reconciler.go:185-200 | the final sweep also closes the relays of unnamed routes and reports each failed cancel once |
| `Reconciler.Reconciler.ReportFailure` | internal/agent/reconciler.go:207-226 | an unknown master is reported once for each named route and once for each other forwarded one |
| `Reconciler.Reconciler.Reconcile` | internal/agent/reconciler.go:56-206 | one pass gives the state, the revision and the reports of `ReconcilePass` |
| `ReconcilerProperties.UpMeansServed` | internal/agent/reconciler.go:155-183 | when a pass ends, every route it reports up is recorded with exactly the forward it asks for |
| `ReconcilerProperties.AdvanceLeavesNoStaleForward` | internal/agent/reconciler.go:185-206 | a pass that advances the observed revision leaves no forward that the desired state does not ask for, and a failed cancel keeps the old revision |
| `ReconcilerProperties.LoopSettles` | internal/agent/reconciler.go:77-184 | after the loop every handled route has its wanted forward, none, or one whose cancel failed; every other route is untouched |
| `ReconcilerProperties.HandledTouches` | internal/agent/reconciler.go:77-184 | handling a route touches the forward and relay of that route only |
| `ReconcilerTracking.TrackingIffNoClash` | internal/agent/reconciler.go:56-206 | a pass keeps the record one-to-one and equal to the master's live forwards under every environment if and only if no two routes clash over one forward |
| `ReconcilerTracking.ReconcileTracks` | internal/agent/reconciler.go:56-206 | without a clash the record is one-to-one and equals the live forwards after a pass with any failures and master losses |
| `ReconcilerTracking.DroppedTwinTakesTheForward` | internal/agent/reconciler.go:185-194 | a new route that wants the forward of a route dropped in the same pass is reported up and recorded, but its forward is gone |
| `ReconcilerTracking.CooperativePassConverges` | internal/agent/reconciler.go:56-206 | if every call succeeds one pass leaves recorded exactly the wanted forwards and takes the desired revision |
| `ReconcilerAgreement.AgreesIffNoneTakes` | internal/agent/reconciler.go:56-206 | from a one-to-one record that agrees, a pass over any list leaves the live forwards equal to the record under every environment if and only if no route asks for a forward held for another route that comes up later or not at all and can still lose it |
| `ReconcilerAgreement.AgreesIffNoneRecorded` | internal/agent/reconciler.go:56-206 | for a list with distinct remote ports, as the server sends it, they stay equal under every environment if and only if no route asks for the forward recorded for a route that the list dropped or names later |
| `ReconcilerAgreement.ClashBreaksNext` | internal/agent/reconciler.go:155-194 | if the route that has the forward is named first, some pass and a second one over the same list break the agreement |
| `ReconcilerAgreement.CooperativeAgreesIffNoneRecorded` | internal/agent/reconciler.go:56-206 | the same condition decides for a pass in which every call succeeds |
| `ReconcilerAgreement.CooperativePassHolds` | internal/agent/reconciler.go:56-206 | under that condition a pass in which every call succeeds leaves the master holding exactly the wanted forwards |
| `ReconcilerOutcome.RevisionIff` | internal/agent/reconciler.go:185-206 | a pass keeps the old revision if and only if the master's state stays unknown or the cancel of a forward that has to go is refused or comes after the master's death; the final reports are about exactly the failed cancels of unnamed routes |
| `ReconcilerOutcome.FailuresTakeTheRevision` | internal/agent/reconciler.go:77-206 | services that do not answer, refused forwards, failing master starts and missing relay ports never hold the revision back |
| `ReconcilerOutcome.PassTells` | internal/agent/reconciler.go:77-184 | a pass reports every listed route once and in order, with the status that its own fields, its probe, its cancel and its calls give it |
| `ReconcilerOutcome.UpMeansAnswered` | internal/agent/reconciler.go:139-153 | only enabled routes are reported up, and a web or TCP route only if the probe of its service succeeded |
| `ReconcilerOutcome.FailureReportsOnce` | internal/agent/reconciler.go:207-226 | under an unknown master exactly the named routes are reported, as failed and once each |
| `ReconcilerOutcome.RelaysAreListed` | internal/agent/reconciler.go:195-200 | a pass closes the relay of every route that the list does not name |
| `ReconcilerOutcome.RelayAfterPass` | internal/agent/reconciler.go:242-257 | after a pass a listed UDP route has the relay it had if that serves its target, else a new one if it can be had, else none |
| `ReconcilerOutcome.SteadyPassIsQuiet` | internal/agent/reconciler.go:77-200 | a pass over what is already served touches no forward and no relay, whatever calls would be refused |
| `ReconcilerOutcome.SecondPassIsQuiet` | internal/agent/reconciler.go:56-206 | after a pass in which every call succeeds the next one over the same list changes nothing |
| `Syncer.Normalize` | internal/agent/sync.go:120-134 | the rewriting loop strips exactly what observation writes |
| `Syncer.SameContentIff` | internal/agent/sync.go:120-134 | states count as the same exactly if their routes agree in everything but observations and times of writing |
| `Syncer.Syncer.AcceptDesired` | internal/agent/sync.go:136-154 | a state is accepted if it is newer, or the same revision with the same content; refusing changes nothing |
| `Syncer.Syncer.SyncOnce` | internal/agent/sync.go:74-118 | one synchronization gives the specified memory, hands over the specified state and reports only fetched ones |
| `Syncer.RunIsSafe` | internal/agent/sync.go:74-154 | in every run revisions handed over never decrease, equal revisions carry equal content, and each replay is of the latest fetch and within its time to live |
| `Syncer.RefusedIffContradicts` | internal/agent/sync.go:136-154 | in every run a fetched state is refused if and only if its revision is negative, or it is older than or differs at one revision from something handed over before; otherwise it is handed over |
| `Syncer.RefusedLeavesNoTrace` | internal/agent/sync.go:74-118 | a run with a refused fetch ends as the run without it, in memory and in everything handed over |
| `Syncer.CacheIff` | internal/agent/sync.go:80-101 | in every run the cache holds the latest accepted fetch, unless an unrecoverable failure or an expired attempt since then dropped it |
| `Syncer.ReplayIff` | internal/agent/sync.go:80-89 | a failed fetch hands over the latest accepted state, as a replay, if and only if it can be recovered from, the context lives, that fetch is within its time to live, and nothing since then dropped it |
| `Convergence.BuildObservations` | internal/api/api.go:496-523 | the loop turns a report into observations that all carry the report's revision |
| `ConvergenceProof.ConvergedMeansForwarded` | internal/store/routes.go:223-298 | in every run, with torn fetches, lost, late and repeated reports and restarts, a finished pass of its owner recorded for a converged row exactly the forward that the row now asks for |
| `ConvergenceProof.PublishedMeansForwarded` | internal/domain/route.go:92-99 | a route is ready for publication only if a pass recorded the forward to its present remote port and target |
| `ConvergenceProof.RunKeeps` | internal/store/routes.go:223-298 | every run keeps the protocol invariant that ties tables, answers, processes and reports to the history of configurations |
| `ConvergenceProof.DeliveredIsServed` | internal/store/routes.go:263-294 | a report that the revision guards let through, however old, is about the row as it now is |
| `ConvergenceProof.FreshReportBacked` | internal/agent/sync.go:102-117 | the report of a pass, even one with an old revision and new observations, is backed by that pass and one configuration |
| `ConvergenceProof.ListedShows` | internal/store/routes.go:223-248 | the routes of a fetch are those of one configuration, though the revision may have been read before it |
| `ConvergenceProgress.RoundConverges` | internal/agent/sync.go:74-118 | from any reachable state, with any running process and whatever it accepted, recorded or lost before, one undisturbed round leaves all enabled routes of its agent converged at their present revision and ready to be published |
| `ConvergenceProgress.RouteConverges` | internal/agent/sync.go:74-118 | a round in which no cancel is refused leaves an enabled route whose own calls succeed converged and ready to be published, whatever becomes of all other routes |
| `ConvergenceProgress.PresentIsAccepted` | internal/agent/sync.go:136-154 | whatever a process accepted before, torn fetches too, it accepts a fetch of the present state |
| `ConvergenceProgress.OneContent` | internal/store/routes.go:223-248 | two answers that show one configuration carry the same content in the same order |
| `ConvergenceProgress.ReplayRepairs` | internal/agent/sync.go:80-89 | in every run, a failed fetch within the time to live of the latest one runs a pass over what that fetch showed, which serves every enabled route whose calls succeed, and reports nothing |
| `ConvergenceProgress.PassReportsUp` | internal/agent/reconciler.go:77-184 | from any record, a pass in which no cancel is refused takes the fetched revision and reports each route once, and up if it is enabled and its own calls succeed |
| `ConvergenceProgress.RoundDelivers` | internal/agent/sync.go:74-118 | the round brings exactly the report of its pass to the server and leaves the process as that pass left it |
| `ConvergenceProgress.DeliveredConverges` | internal/store/routes.go:263-294 | a report at the agent's present revision that calls a route up makes it converged and ready to be published |
| `ConvergenceHeld.ConvergedMeansHeld` | internal/store/routes.go:223-298 | in every run whose processes start counting on empty masters only, and whose passes are never asked for a forward recorded for another route, a converged row's forward was held by its agent's master, if that lived, when a pass ended |
| `ConvergenceHeld.OwnedPortsMeanHeld` | internal/store/routes.go:223-298 | so it was in every run in which no remote port went from one route of an agent to another |
| `ConvergenceHeld.RoundHoldsIff` | internal/agent/reconciler.go:185-194 | an undisturbed round leaves every enabled route held by the living master if and only if none of them asks for the forward recorded for a route that the list dropped or names later |
| `ConvergenceExample.ConvergedNotHeld` | internal/agent/reconciler.go:185-194 | for every port range there is a run, with every call granted, in which a row ready to be published is served by a pass and no such pass leaves its forward with the living master |
| `ControlMaster.Runner.constructor` | internal/sshctl/openssh.go:120-153 | a new runner owns no master and holds no lock |
| `ControlMaster.Runner.AcquireControlPathLock` | internal/sshctl/openssh.go:295-337 | the lock is taken at most once, and the result says whether this call took it |
| `ControlMaster.Runner.ReleaseControlPathLock` | internal/sshctl/openssh.go:339-353 | the lock is given up whatever unlocking reports |
| `ControlMaster.Runner.ProbeMaster` | internal/sshctl/openssh.go:512-531 | an exited owned master counts as absent; any other answer is the last thing learned |
| `ControlMaster.Runner.RemoveStaleControlSocket` | internal/sshctl/openssh.go:657-705 | success means that absence was established under the lock; only the socket seen before a stale probe is unlinked; failure has a reason in the trace |
| `ControlMaster.Runner.UnlinkStaleControlSocket` | internal/sshctl/openssh.go:687-704 | a socket that is still the one seen before is unlinked and its absence confirmed, unless something refuses |
| `ControlMaster.Runner.PollReadiness` | internal/sshctl/openssh.go:452-471 | a new master is ready when it answers and its socket is recorded; one that has exited was seen to |
| `ControlMaster.Runner.RecordManagedControlSocket` | internal/sshctl/openssh.go:707-728 | the socket of an owned process is identified at most once |
| `ControlMaster.Runner.CleanupManagedControlSocket` | internal/sshctl/openssh.go:730-761 | only the recorded socket of an exited process is unlinked |
| `ControlMaster.Runner.StopManaged` | internal/sshctl/openssh.go:763-806 | the process is given up exactly on success; an unconfirmed end keeps it and the lock |
| `ControlMaster.Runner.WaitControlStopped` | internal/sshctl/openssh.go:629-651 | success means that absence was just seen |
| `ControlMaster.Runner.AwaitReadiness` | internal/sshctl/openssh.go:452-483 | success means that the new master was just seen running and its socket recorded |
| `ControlMaster.Runner.StartAnother` | internal/sshctl/openssh.go:394-484 | where no master of our own is left one is spawned, unless something stands in the way or the new one dies |
| `ControlMaster.Runner.EnsureMaster` | internal/sshctl/openssh.go:367-484 | an owned master that answers is left untouched and the call succeeds; otherwise success means a new one spawned, just seen running, under the lock; failure has a reason in the trace |
| `ControlMaster.Runner.CheckMaster` | internal/sshctl/openssh.go:486-499 | a check leaves lock and ownership as they were, and succeeds only on a running master |
| `ControlMaster.Runner.ControlForward` | internal/sshctl/openssh.go:554-578 | a lock taken for a failing call is given back, and the owned master stays |
| `ControlMaster.Runner.Close` | internal/sshctl/openssh.go:580-617 | nil means no owned master and no lock, with the end seen or absence established before; unconfirmed termination keeps both |
| `ControlMaster.SafeMeansAllowed` | internal/sshctl/openssh.go:367-484 | in a safe trace every event was allowed by what came before it |
| `ControlMaster.OwnedImpliesLocked` | internal/sshctl/openssh.go:295-365 | an owned master implies that the path lock is held |
| `ControlMaster.SpawnsAreSeparated` | internal/sshctl/openssh.go:367-484 | between two spawns the first master's exit is seen and then it is given up |
| `ControlMaster.UnlinkIsJustified` | internal/sshctl/openssh.go:657-761 | a socket is unlinked only under the lock, right after it was seen in place, with the inode identified before |
| `ControlMaster.Runner.Kill` | internal/sshctl/openssh.go:791-793 | force is used only on an owned process that was asked to exit and has not been seen to |
| `ControlMaster.KillFollowsRequest` | internal/sshctl/openssh.go:763-806 | a process is killed only after it was itself asked to exit and was not seen to |
| `StreamSlots.Edge.constructor` | internal/tcpedge/manager.go:103-119 | a new edge has all its slots free |
| `StreamSlots.Edge.AcquireGlobal` | internal/tcpedge/manager.go:465-470 | the non-blocking send on the global channel is the step of that name |
| `StreamSlots.Edge.AcquireRoute` | internal/tcpedge/manager.go:471-478 | the non-blocking send on the route's channel is the step of that name |
| `StreamSlots.Edge.ReleaseRoute` | internal/tcpedge/manager.go:480-483 | the receive from the route's channel is the step of that name |
| `StreamSlots.Edge.ReleaseGlobal` | internal/tcpedge/manager.go:480-483 | the receive from the global channel is the step of that name |
| `StreamSlots.Edge.TrackClient` | internal/tcpedge/manager.go:485-493 | a client is tracked unless the worker stopped |
| `StreamSlots.Edge.TrackBackend` | internal/tcpedge/manager.go:432-439 | a dialled backend is tracked unless the worker stopped; a failed dial closes the client |
| `StreamSlots.Edge.Untrack` | internal/tcpedge/manager.go:495-499 | the backend is untracked first, then the client |
| `StreamSlots.Edge.InsertSession` | internal/tcpedge/manager.go:607-625 | a session enters the table unless the worker stopped or another one is there, which is then returned |
| `StreamSlots.Edge.DropSession` | internal/tcpedge/manager.go:648-663 | the caller that removes the session, and no other, is to give its slots back |
| `StreamSlots.Edge.MarkStopped` | internal/tcpedge/manager.go:710-718 | a stop takes the sessions it must drop in the region that sets the flag |
| `StreamSlots.RunKeeps` | internal/tcpedge/manager.go:390-728 | every interleaving keeps the count of slots and the match of tables and attempts |
| `StreamSlots.NextKeeps` | internal/tcpedge/manager.go:390-728 | every atomic step keeps them |
| `StreamSlots.LimitsHold` | internal/tcpedge/manager.go:465-478 | in every interleaving clients of a route stay within its limit and slot holders within the global one, and tables list only such clients |
| `StreamSlots.ReleaseNeverBlocks` | internal/tcpedge/manager.go:480-483 | in every interleaving a receive that gives a slot back finds one |
| `StreamSlots.NothingLeaks` | internal/tcpedge/manager.go:425-513 | when every attempt is finished no slot is taken and no table entry is left |
| `StreamSlots.ReleasedExactlyOnce` | internal/tcpedge/manager.go:648-663 | a connection that got its slots gives them back at most once ever, and has done so when it is finished |
| `StreamSlots.StoppedOnlyShrinks` | internal/tcpedge/manager.go:501-514 | from the beginning of a stop on nothing enters a worker's tables in any continuation |
| `StreamSlots.NoSessionAfterStop` | internal/tcpedge/manager.go:710-725 | once a stop has worked off what it found there is no UDP session, in any continuation |
| `StreamSlots.DrainsOne` | internal/tcpedge/manager.go:710-725 | a stop can always work off each session it found, which leaves its attempt to give its slots back |
| `StreamSlots.AdmittedIff` | internal/tcpedge/manager.go:465-478 | in every interleaving an attempt gets in if and only if fewer attempts than the global limit hold a slot, and gets a route slot if and only if fewer than the route's limit do |
| `StreamSlots.GoesOnIff` | internal/tcpedge/manager.go:425-493 | an attempt with its slots goes on if and only if its dial succeeded, its worker was not stopped, and, for UDP, no session has its client |
| `StreamSlots.CanAlwaysFinish` | internal/tcpedge/manager.go:425-483 | from anywhere in any interleaving an attempt's own steps finish it and leave every other one where it is |
| `StreamManager.Manager.constructor` | internal/tcpedge/manager.go:103-119 | a new manager has no worker |
| `StreamManager.Scan` | internal/tcpedge/manager.go:147-165 | the first loop gives each stream route its state and groups claiming routes by port |
| `StreamManager.ScannedStatuses` | internal/tcpedge/manager.go:147-165 | exactly the stream routes have a state, which is their own |
| `StreamManager.MarkConflicts` | internal/tcpedge/manager.go:168-173 | exactly the candidates are marked |
| `StreamManager.Choose` | internal/tcpedge/manager.go:166-175 | in any map order a port is desired if and only if it has one claimant |
| `StreamManager.Manager.Start` | internal/tcpedge/manager.go:257-337 | a listener opens exactly if nobody else has the port and no worker of ours listens there |
| `StreamManager.Manager.StopUnwanted` | internal/tcpedge/manager.go:176-183 | in any map order exactly the workers that do not fit are stopped |
| `StreamManager.Manager.StartMissing` | internal/tcpedge/manager.go:184-199 | in any map order every desired port without a worker gets one if it can, and every desired route its status |
| `StreamManager.Manager.StopAll` | internal/tcpedge/manager.go:347-367 | all workers are stopped |
| `StreamManager.Manager.Reconcile` | internal/tcpedge/manager.go:140-202 | after a pass each port has the worker its sole claimant wants, or none; statuses say so; all stops precede all starts; kept workers are untouched; a failing list stops everything |
| `StreamManager.ServedOrBlocked` | internal/tcpedge/manager.go:140-202 | a route alone on its port has a live worker for its own target, or is blocked by somebody else: never by a worker of ours, so ports can be swapped in one pass |
| `StreamManager.NoOtherWorker` | internal/tcpedge/manager.go:176-183 | every worker after a pass serves the one claimant of its port |
| `StreamManager.StatusTells` | internal/tcpedge/manager.go:130-211 | a route's status says why it is not served, or that it is: disabled, without a port, without a live agent, in conflict, published, or unable to bind |
| `StreamManager.SecondPassKeeps` | internal/tcpedge/manager.go:239-243 | with the same routes and no worker ended the next pass keeps every worker |
| `StreamManager.PublicStatusAgrees` | internal/tcpedge/manager.go:214-237 | a query answers what the last pass found, but pending for a worker that ended |
| `StreamConflicts.NeverInConflict` | internal/tcpedge/manager.go:167-173 | for the list of any reachable table every claimed port has one claimant, and no stream route lacks a port |
| `WebPorts.PortsManager.constructor` | internal/edge/ports.go:65-83 | a new manager has no listener |
| `WebPorts.Collect` | internal/edge/ports.go:116-129 | the first loop finds for each port the schemes wanted there and where they differ |
| `WebPorts.PortsManager.Start` | internal/edge/ports.go:159-190 | a listener opens exactly if the port is free and HTTPS can be served where it is wanted |
| `WebPorts.PortsManager.StopUnwanted` | internal/edge/ports.go:135-139 | exactly the listeners that are wanted with their scheme stay |
| `WebPorts.PortsManager.StartMissing` | internal/edge/ports.go:140-153 | every wanted port has a listener if it can, the one it had or a new one, and its status says so |
| `WebPorts.PortsManager.Reconcile` | internal/edge/ports.go:110-157 | after a pass each port has the listener, kept or new, and the status that the schemes wanted there call for; a failing list changes nothing |
| `WebPorts.ServedUnlessBlocked` | internal/edge/ports.go:110-157 | after a pass a port wanted for one scheme has a listener of it unless it had to be opened and is held by others or cannot be served, and a port wanted for both or none has no listener |
| `WebPorts.PublishedIsLiveIff` | internal/edge/ports.go:135-153 | after a pass every published port has a listener that has not ended if and only if none of the listeners that the pass keeps had ended |
| `WebPorts.EndedStaysPublished` | internal/edge/ports.go:140-145 | a wanted port whose listener has ended by itself stays published and gets no other |
| `WebConflicts.NeverInConflict` | internal/edge/ports.go:124-134 | for the list of any reachable table no port is wanted by two schemes |
| `WebConflicts.EdgesApart` | internal/store/routes.go:55-79 | the web edge and the stream edge never want one port |
| `Enrollment.Store.constructor` | internal/store/store.go:39-54 | a new store has no token and no agent |
| `Enrollment.Store.ClaimEnrollmentToken` | internal/store/store.go:421-492 | statement by statement, with the rollback, the claim transaction |
| `Enrollment.Store.ConsumeEnrollmentToken` | internal/store/store.go:372-419 | statement by statement, with the rollback, the enrollment without a claim |
| `Enrollment.ClaimKeeps` | internal/store/store.go:421-492 | a claim keeps token hashes unique and one agent for each token row |
| `Enrollment.ConsumeKeeps` | internal/store/store.go:372-419 | so does an enrollment without a claim |
| `Enrollment.ServedKeeps` | internal/store/store.go:343-492 | so does every call, including creating and deleting tokens |
| `Enrollment.ConsumeIff` | internal/store/store.go:372-419 | an enrollment without a claim succeeds if and only if its token row is there, unused and unexpired, the name is valid, and id and token are free; then the token authenticates as the new agent |
| `Enrollment.IssueIff` | internal/store/store.go:357-371 | a token is created if and only if it is not blank, expires later and has no row yet |
| `Enrollment.IssuedCanBeSpent` | internal/store/store.go:343-371 | a new token is honoured for a new agent until it expires, and is used up then |
| `Enrollment.RevokedIsGone` | internal/store/lists.go:37-60 | a deleted token is refused, and deleting it takes away no agent and no other token |
| `EnrollmentProtocol.Process.ResolveCredentials` | internal/agent/enrollment.go:147-191 | wherever the process dies the files are those of a run of its steps; one that does not die returns the saved credentials, or those that the server's answer to the pending claim gives it |
| `EnrollmentProtocol.Process.SendClaim` | internal/agent/enrollment.go:180-191 | from a pending claim to saved credentials: a process that does not die gets them if the server answers and keeps the claim if not |
| `EnrollmentProtocol.RunKeeps` | internal/agent/enrollment.go:147-191 | every run keeps the protocol invariant, and the database only grows |
| `EnrollmentProtocol.OneAgentPerToken` | internal/store/store.go:372-492 | in every run a token row makes at most one agent row, over all claimants, retries, expiry and calls without a claim |
| `EnrollmentProtocol.SavedAuthenticates` | internal/store/store.go:494-514 | from when an agent has saved credentials on, they authenticate as the agent they name and as no other |
| `EnrollmentProtocol.OneAgentPerClaimant` | internal/agent/enrollment.go:163-183 | all claims that an agent sends, over crashes and different enrollment tokens, are one claim and make at most one agent row |
| `EnrollmentProtocol.RetryGivesSameAgent` | internal/store/store.go:451-466 | repeating a successful claim gives the same agent and changes nothing, whatever happened since and even after expiry, while the token row exists |
| `EnrollmentProtocol.WinnerCanRecover` | internal/agent/enrollment.go:180-190 | an agent that has sent a claim has its credentials or still has the claim |
| `EnrollmentProtocol.HonouredIff` | internal/store/store.go:421-492 | in every reachable database a claim is honoured if and only if its token row is there and either it made the agent row that has the claimed token, for the same request and name, or no agent row has the token and the row is unused and unexpired |
| `EnrollmentProtocol.RevokedWinnerIsRefused` | internal/store/store.go:421-492 | a claim that has won and whose token row is gone is refused from then on under every enrollment token |
| `EnrollmentProtocol.UndisturbedEnrolls` | internal/agent/enrollment.go:163-190 | an undisturbed agent whose claim meets that condition ends up with the credentials of the agent row that its token authenticates as, on the first attempt as after any crash |
| `Gateway.SelectRoute` | internal/gateway/gateway.go:119-131 | the loop computes `Select` |
| `Gateway.EligibleIff` | internal/gateway/gateway.go:89-116 | a route is eligible for a request if and only if it lives, belongs to the listener, on its default port to the default listener of its scheme, and has the host and the path |
| `Gateway.LiveIsServed` | internal/gateway/gateway.go:118-131 | a live route that belongs to the listener is served, by itself or by one with a longer prefix |
| `Gateway.SelectsLongest` | internal/gateway/gateway.go:119-131 | nothing is selected exactly when nothing is eligible; the selected route is eligible and no eligible one has a longer prefix |
| `Gateway.EligiblePrefixesNest` | internal/gateway/gateway.go:118-131 | eligible prefixes are comparable segment by segment, so the longest one is the most specific one |
| `Gateway.OrderMattersIffTied` | internal/gateway/gateway.go:119-131 | the selection depends on list order if and only if two longest eligible routes tie |
| `Gateway.TiesAreLegacy` | internal/gateway/gateway.go:97-101 | for any reachable table a tie happens only on the legacy listener, between an HTTP and an HTTPS route of one place |
| `Gateway.TwinsTie` | internal/gateway/gateway.go:97-101 | such a pair, which the store allows, does tie there |
| `Gateway.SelectionIsUnique` | internal/gateway/gateway.go:92-131 | on a listener with a scheme the selection for a reachable table does not depend on list order |
| `Gateway.StrippingIsUndone` | internal/gateway/gateway.go:196-211 | the prefix in front of a stripped path gives the requested path; a bare prefix becomes a slash |
| `Gateway.StrippingIsInjective` | internal/gateway/gateway.go:196-211 | different requests reach the backend as different paths, but for a bare prefix with and without a final slash |
| `Management.ReservedAgrees` | internal/api/api.go:301-324 | the reserved check gives the same answer on the route as sent and as stored |
| `Management.ReachableNoneReserved` | internal/api/api.go:245-289 | with a fixed public host no run of admitted writes stores a reserved route |
| `Management.CapturesOnlyIfReserved` | internal/api/api.go:296-324 | a normalized prefix that captures a control-plane path is itself reserved |
| `Management.ReservedIff` | internal/api/api.go:298-324 | a web route is refused if and only if it has the management host and is no HTTPS route on the default port or has a control-plane path in its prefix |
| `Management.RouteSharesHost` | internal/edge/edge.go:33-60 | a live route under the management host gets its requests |
| `Management.ControlIsNeverShadowed` | internal/edge/edge.go:46-76 | every request for a control-plane path on the management host reaches the control plane, whatever routes were admitted |
| `Metrics.Registry.constructor` | internal/metrics/metrics.go:39-41 | a new registry is empty |
| `Metrics.Registry.Observe` | internal/metrics/metrics.go:60-82 | the counters, the total and the ring follow the log |
| `Metrics.Registry.Record` | internal/metrics/metrics.go:75-81 | a slot of another minute is started over in place |
| `Metrics.Registry.Forget` | internal/metrics/metrics.go:85-89 | the total stays the sum of the routes' counters and the forgotten ones |
| `Metrics.Registry.TakeSnapshot` | internal/metrics/metrics.go:93-115 | the loop builds the series of the hour from the ring, oldest minute first |
| `Metrics.ExactIffInOrder` | internal/metrics/metrics.go:60-115 | every snapshot shows the sums of the unbounded log if and only if no late observation displaces a minute of the last hour |
| `Metrics.PromptIsInOrder` | internal/metrics/metrics.go:61-62 | clock readings less than an hour behind the latest are enough for that |
| `Metrics.DisplacingIsSeen` | internal/metrics/metrics.go:75-78 | a late observation that displaces a minute of the last hour makes a snapshot wrong |
| `Metrics.SumRoutesSplits` | internal/metrics/metrics.go:102-104 | the sum over routes does not depend on their order |
| `Metrics.SampleCounts` | internal/metrics/metrics.go:60-110 | a sample of the series counts the requests and bytes of exactly the observations of its sixty seconds |
| `Metrics.TotalCounts` | internal/metrics/metrics.go:60-110 | the total counts the requests and bytes of all observations |
| `UdpFrame.Write` | internal/udpframe/udpframe.go:18-29 | a datagram is refused exactly when it is too large; otherwise its frame is appended, or a part of it exactly when a write fails |
| `UdpFrame.Read` | internal/udpframe/udpframe.go:33-46 | success takes exactly one frame off the stream into the buffer; each error has its exact condition |
| `UdpFrame.Source.ReadFull` | internal/udpframe/udpframe.go:33-44 | however the bytes arrive, the buffer gets the next n of them, or the end is reported |
| `UdpFrame.ReadAll` | internal/tcpedge/manager.go:628-646 | repeated reads of a stream in arbitrary pieces give exactly its datagrams, in order, and then an error |
| `UdpFrame.RoundTrip` | internal/udpframe/udpframe.go:18-46 | decoding what was encoded gives the same datagrams |
| `UdpFrame.CutStream` | internal/udpframe/udpframe.go:33-46 | a stream cut short gives an initial part of the datagrams, all of them only if nothing was cut off |
| `UdpFrame.DecodedIsPrefix` | internal/udpframe/udpframe.go:33-46 | any stream begins with the frames of what is read from it, and is made of them exactly when it ends between frames |
| `AuthorizedKeys.AcceptsExactly` | internal/authorizedkeys/authorizedkeys.go:36-57 | exactly the lines are accepted whose second field is the one encoding of the 51 bytes of a key |
| `AuthorizedKeys.NormalizeFixed` | internal/authorizedkeys/authorizedkeys.go:36-57 | a normalized line is left alone |
| `AuthorizedKeys.SameFormIffSameKey` | internal/authorizedkeys/authorizedkeys.go:36-57 | two lines have one normal form if and only if they carry the same 32 bytes |
| `AuthorizedKeys.EncodeDecode` | internal/authorizedkeys/authorizedkeys.go:44-47 | a text that decodes to a whole number of triples is their only encoding |
| `AuthorizedKeys.DecodeEncode` | internal/authorizedkeys/authorizedkeys.go:44-47 | decoding an encoding gives the bytes back |
| `AuthorizedKeys.KnownTexts` | internal/authorizedkeys/authorizedkeys.go:30-60 | the encoding agrees with a test vector of section 10 of RFC 4648 and uses the whole alphabet |
| `AuthorizedKeys.KeyOfBlob` | internal/authorizedkeys/authorizedkeys.go:48-68 | the wire form of a key is parsed to that key |
| `AuthorizedKeys.BlobOfKey` | internal/authorizedkeys/authorizedkeys.go:48-68 | nothing else is parsed to it |
| `AuthorizedKeys.Render` | internal/authorizedkeys/authorizedkeys.go:79-106 | lines are written if and only if all entries are sound and no two agents share an isolated address, one line for each entry |
| `Migration.Database.Commit` | internal/store/store.go:158-194 | one statement with its own commit, or a crash before it |
| `Migration.Database.EnsureWebRouteSchema` | internal/store/store.go:128-196 | the upgrade issues the statements its findings call for and stops where the process dies |
| `Migration.AttemptUnderway` | internal/store/store.go:128-196 | from any interrupted state no statement of an attempt fails, a crash leaves it interrupted, and completing gives the final schema |
| `Migration.LegacyIsUpgradable` | internal/store/store.go:168-191 | the constraints of the old indexes make the new ones possible after the rewriting |
| `Migration.FinishesOnce` | internal/store/store.go:172-194 | over all crashes and restarts the step that finishes leaves the final schema with every old HTTP row, and no other, rewritten |
| `Migration.NeverRewritesAgain` | internal/store/store.go:129-135 | once the marker is recorded, over any crashes and starts, the schema is final and a row changes only by a write of that row |
| `Migration.CanAlwaysFinish` | internal/store/store.go:128-196 | after any number of interrupted attempts an undisturbed start completes |

## Left out

- Sockets, HTTP serving and proxying, TLS and certificates, process spawning, signals and file permissions: only their results appear.
- SQL and the SQLite engine: tables are maps and a transaction is one step, except the two reads of a fetch and the statements of the schema upgrade.
- 64-bit wrap-around of revisions, counters and clocks: integers are unbounded.
- Cryptography: hashes are injective; agent and request values are arbitrary, so no freshness of random values is assumed.
- Lower-casing of characters that no accepted host contains; `Text.Lower` covers ASCII, the Kelvin sign and the dotted capital I.
- The scheme-only redirect of unmatched HTTP requests, certificate authorization and the HTTP edge's redirect of the management host.
- Errors of `SyncAgent` and of JSON decoding: a fetch that fails gives no answer.
- The legacy heartbeat, whose observations carry revisions of their own: it is a command of `StoreInvariants`, not of `Convergence`.
- The time limits of publication: `Convergence` proves the part of readiness that does not depend on the clock, and readiness at any time implies it.
- The API's check of configured edges and ports (`validateRoutePublication`), and the check of a route when a connection is accepted.
- What an agent's process finds of an earlier process's SSH master: `Convergence` starts each process with an arbitrary one.
- Credentials given in the configuration, which bypass enrollment.
- Byte totals of UDP sessions, which a late datagram may miss.
- The waiting of a stop for its goroutines, and the bounded wait of `stopAll`.
- AuthorizedKeys.Render: does not model the order of the lines, which the code sorts, and the replacement of the file on disk.
- Convergence.BuildObservations: does not model the system statistics that a report may carry.
- ControlMaster.Runner.ControlForward: does not model the forward's own syntax check, which decides `valid`.
- ConvergenceProof.ConvergedMeansForwarded: says that a finished pass recorded the forward; that the master held it too needs the condition of `ConvergenceHeld.ConvergedMeansHeld`.
- ConvergenceProof.PublishedMeansForwarded: likewise.
- Metrics.Registry.TakeSnapshot: requires a clock past the first hour of 1970, before which the code indexes outside its ring.
- Management.ReachableNoneReserved: holds for one public host; rows stored under another configuration are not checked again.
