/** Connection slots, sessions and shutdown of the stream edge: one atomic step for each mutex region or channel
    operation (internal/tcpedge/manager.go). */
module StreamSlots {

  /** Where a connection attempt stands. It holds a global slot in every phase but the last, and a route slot
      from Connecting to ReturnRoute. */
  datatype Phase =
    | WantRoute        // has a global slot, about to try the route's slots
    | RouteFull        // found none, about to give the global slot back
    | Connecting       // TCP: accepted, not yet tracked. UDP: dialling the backend
    | Dialing          // TCP: client tracked, dialling the backend
    | Proxying         // TCP: client and backend tracked
    | Closing          // TCP: about to untrack the client
    | InSession        // UDP: in the session table
    | ReturnRoute      // about to give the route slot back
    | ReturnGlobal     // about to give the global slot back
    | Finished

  predicate HoldsGlobal(p: Phase) { !p.Finished? }

  predicate HoldsRoute(p: Phase) {
    p.Connecting? || p.Dialing? || p.Proxying? || p.Closing? || p.InSession? || p.ReturnRoute?
  }

  predicate ClientTracked(p: Phase) { p.Dialing? || p.Proxying? || p.Closing? }

  /** `returned` counts how often the attempt has given its route slot back. */
  datatype Attempt = Attempt(worker: nat, key: string, phase: Phase, returned: nat)

  /** A tracked connection of an attempt: the client's, or the backend's. */
  datatype Conn = Conn(attempt: nat, backend: bool)

  /** `draining` is what a stop still has to drop of the sessions it found. */
  datatype Worker = Worker(
    udp: bool, limit: nat, used: nat, stopped: bool,
    sessions: map<string, nat>, draining: map<string, nat>, active: set<Conn>)

  datatype State = State(globalLimit: nat, globalUsed: nat, workers: map<nat, Worker>, attempts: map<nat, Attempt>)

  datatype Action =
    | StartWorker(worker: nat, udp: bool, limit: nat)
    | TryGlobal(id: nat, worker: nat, key: string)
    | TryRoute(id: nat)
    | Track(id: nat)
    | BackendDialed(id: nat, ok: bool)
    | UntrackBackend(id: nat)
    | UntrackClient(id: nat)
    | Insert(id: nat, dialled: bool)
    | Drop(id: nat)
    | GiveRouteBack(id: nat)
    | GiveGlobalBack(id: nat)
    | BeginStop(worker: nat)
    | DropDrained(worker: nat, key: string)

  function Init(globalLimit: nat): State { State(globalLimit, 0, map[], map[]) }

  /** The attempt becomes `a`, its worker becomes `worker`, and `used` global slots are taken. */
  function Apply(s: State, id: nat, a: Attempt, worker: Worker, used: nat): State {
    State(s.globalLimit, used, s.workers[a.worker := worker], s.attempts[id := a])
  }

  function WithWorker(s: State, w: nat, worker: Worker): State {
    s.(workers := s.workers[w := worker])
  }

  /** A step of an attempt that is not about global slots. */
  function Attempted(id: nat, a: Attempt, worker: Worker, action: Action): (Attempt, Worker) {
    match action
    case TryRoute(_) =>
      if !a.phase.WantRoute? then (a, worker)
      else if worker.used < worker.limit then (a.(phase := Connecting), worker.(used := worker.used + 1))
      else (a.(phase := RouteFull), worker)
    case Track(_) =>
      if !a.phase.Connecting? || worker.udp then (a, worker)
      else if worker.stopped then (a.(phase := ReturnRoute), worker)
      else (a.(phase := Dialing), worker.(active := worker.active + {Conn(id, false)}))
    case BackendDialed(_, ok) =>
      if !a.phase.Dialing? then (a, worker)
      else if !ok || worker.stopped then (a.(phase := Closing), worker)
      else (a.(phase := Proxying), worker.(active := worker.active + {Conn(id, true)}))
    case UntrackBackend(_) =>
      if !a.phase.Proxying? then (a, worker)
      else (a.(phase := Closing), worker.(active := worker.active - {Conn(id, true)}))
    case UntrackClient(_) =>
      if !a.phase.Closing? then (a, worker)
      else (a.(phase := ReturnRoute), worker.(active := worker.active - {Conn(id, false)}))
    case Insert(_, dialled) =>
      if !a.phase.Connecting? || !worker.udp then (a, worker)
      else if !dialled || worker.stopped || a.key in worker.sessions then (a.(phase := ReturnRoute), worker)
      else (a.(phase := InSession), worker.(sessions := worker.sessions[a.key := id]))
    case Drop(_) => Dropped(id, a, worker)
    case GiveRouteBack(_) =>
      if !a.phase.ReturnRoute? || worker.used == 0 then (a, worker)
      else (a.(phase := ReturnGlobal, returned := a.returned + 1), worker.(used := worker.used - 1))
    case _ => (a, worker)
  }

  /** Dropping a session: only the caller that finds it in the table removes it. */
  function Dropped(id: nat, a: Attempt, worker: Worker): (Attempt, Worker) {
    if a.key in worker.sessions && worker.sessions[a.key] == id then
      (a.(phase := ReturnRoute), worker.(sessions := worker.sessions - {a.key}))
    else (a, worker)
  }

  predicate AboutAttempt(a: Action) {
    !a.StartWorker? && !a.TryGlobal? && !a.GiveGlobalBack? && !a.BeginStop? && !a.DropDrained?
  }

  /** One step; an action that is not enabled changes nothing. */
  function Next(s: State, action: Action): State {
    match action
    case StartWorker(w, udp, limit) =>
      if w in s.workers then s else WithWorker(s, w, Worker(udp, limit, 0, false, map[], map[], {}))
    case TryGlobal(id, w, key) =>
      if id in s.attempts || w !in s.workers || s.globalUsed >= s.globalLimit then s
      else Apply(s, id, Attempt(w, key, WantRoute, 0), s.workers[w], s.globalUsed + 1)
    case GiveGlobalBack(id) =>
      if id !in s.attempts || s.attempts[id].worker !in s.workers then s
      else
        var a := s.attempts[id];
        if !(a.phase.ReturnGlobal? || a.phase.RouteFull?) || s.globalUsed == 0 then s
        else Apply(s, id, a.(phase := Finished), s.workers[a.worker], s.globalUsed - 1)
    case BeginStop(w) =>
      if w !in s.workers || s.workers[w].stopped then s
      else WithWorker(s, w, s.workers[w].(stopped := true, draining := s.workers[w].sessions))
    case DropDrained(w, key) =>
      if w !in s.workers || key !in s.workers[w].draining then s
      else
        var id := s.workers[w].draining[key];
        if id !in s.attempts || s.attempts[id].worker != w || s.attempts[id].key != key then s
        else
          var (a, worker) := Dropped(id, s.attempts[id], s.workers[w]);
          Apply(s, id, a, worker.(draining := worker.draining - {key}), s.globalUsed)
    case _ =>
      if action.id !in s.attempts || s.attempts[action.id].worker !in s.workers then s
      else
        var a := s.attempts[action.id];
        var (a', worker') := Attempted(action.id, a, s.workers[a.worker], action);
        Apply(s, action.id, a', worker', s.globalUsed)
  }

  function RunFrom(s: State, actions: seq<Action>): State {
    if actions == [] then s
    else Next(RunFrom(s, actions[..|actions| - 1]), actions[|actions| - 1])
  }

  // ---- Invariants ----

  function GlobalHolders(attempts: map<nat, Attempt>): set<nat> {
    set id | id in attempts && HoldsGlobal(attempts[id].phase)
  }

  function RouteHolders(attempts: map<nat, Attempt>, w: nat): set<nat> {
    set id | id in attempts && attempts[id].worker == w && HoldsRoute(attempts[id].phase)
  }

  /** Each held slot belongs to exactly one attempt. */
  ghost predicate SlotsCounted(s: State) {
    && s.globalUsed == |GlobalHolders(s.attempts)| <= s.globalLimit
    && forall w :: w in s.workers ==> s.workers[w].used == |RouteHolders(s.attempts, w)| <= s.workers[w].limit
  }

  /** The tables of an attempt's worker show it exactly in the phases that put it there. */
  predicate AttemptFits(id: nat, a: Attempt, worker: Worker) {
    && (a.phase.InSession? <==> a.key in worker.sessions && worker.sessions[a.key] == id)
    && (ClientTracked(a.phase) <==> Conn(id, false) in worker.active)
    && (a.phase.Proxying? <==> Conn(id, true) in worker.active)
    && (if a.phase.ReturnGlobal? then a.returned == 1 else a.phase.Finished? || a.returned == 0)
    && a.returned <= 1
  }

  /** A worker's tables list attempts of that worker, and a stopped worker's stop knows every session left. */
  predicate WorkerFits(w: nat, worker: Worker, attempts: map<nat, Attempt>) {
    && (forall key :: key in worker.sessions ==>
          var id := worker.sessions[key];
          id in attempts && attempts[id].worker == w && attempts[id].key == key)
    && (forall key :: key in worker.draining ==>
          var id := worker.draining[key];
          id in attempts && attempts[id].worker == w && attempts[id].key == key)
    && (forall c :: c in worker.active ==> c.attempt in attempts && attempts[c.attempt].worker == w)
    && (worker.stopped ==> forall key :: key in worker.sessions ==>
          key in worker.draining && worker.draining[key] == worker.sessions[key])
  }

  ghost predicate TablesFit(s: State) {
    && (forall id :: id in s.attempts ==>
          && s.attempts[id].worker in s.workers
          && AttemptFits(id, s.attempts[id], s.workers[s.attempts[id].worker]))
    && (forall w :: w in s.workers ==> WorkerFits(w, s.workers[w], s.attempts))
  }

  ghost predicate Inv(s: State) { SlotsCounted(s) && TablesFit(s) }

  // ---- Counting ----

  function Bit(b: bool): int { if b then 1 else 0 }

  /** Taking one element out of a set, and putting it back or not. */
  lemma OneMoves(before: set<nat>, after: set<nat>, id: nat)
    requires before - {id} == after - {id}
    ensures |after| == |before| - Bit(id in before) + Bit(id in after)
  {
    var others := before - {id};
    assert before == if id in before then others + {id} else others;
    assert after == if id in after then others + {id} else others;
  }

  function GlobalBefore(s: State, id: nat): int { Bit(id in s.attempts && HoldsGlobal(s.attempts[id].phase)) }

  function RouteBefore(s: State, id: nat): int { Bit(id in s.attempts && HoldsRoute(s.attempts[id].phase)) }

  /** The counters move with the attempt. */
  predicate CountersMove(s: State, id: nat, a: Attempt, worker: Worker, used: nat) {
    && a.worker in s.workers && (id in s.attempts ==> s.attempts[id].worker == a.worker)
    && used == s.globalUsed - GlobalBefore(s, id) + Bit(HoldsGlobal(a.phase)) && used <= s.globalLimit
    && worker.used == s.workers[a.worker].used - RouteBefore(s, id) + Bit(HoldsRoute(a.phase))
    && worker.limit == s.workers[a.worker].limit && worker.used <= worker.limit
  }

  lemma ApplyKeepsSlots(s: State, id: nat, a: Attempt, worker: Worker, used: nat)
    requires SlotsCounted(s) && CountersMove(s, id, a, worker, used)
    ensures SlotsCounted(Apply(s, id, a, worker, used))
  {
    hide HoldsGlobal, HoldsRoute;
    var after := s.attempts[id := a];
    OneMoves(GlobalHolders(s.attempts), GlobalHolders(after), id);
    forall w | w in s.workers
      ensures w != a.worker ==> RouteHolders(after, w) == RouteHolders(s.attempts, w)
      ensures w == a.worker ==> |RouteHolders(after, w)| == worker.used
    {
      OneMoves(RouteHolders(s.attempts, w), RouteHolders(after, w), id);
    }
  }

  lemma AttemptedCounts(s: State, id: nat, action: Action)
    requires SlotsCounted(s) && TablesFit(s) && id in s.attempts && AboutAttempt(action)
    ensures var a := s.attempts[id];
      var (a', worker') := Attempted(id, a, s.workers[a.worker], action);
      CountersMove(s, id, a', worker', s.globalUsed)
  {
    hide GlobalHolders, RouteHolders, WorkerFits;
  }

  // ---- Tables ----

  /** Nothing but the given attempt's own entries changed in the worker's tables. */
  ghost predicate OnlyOwnEntries(id: nat, key: string, before: Worker, after: Worker) {
    && after.udp == before.udp
    && (forall k :: k != key ==>
          (k in before.sessions <==> k in after.sessions)
          && (k in before.sessions ==> before.sessions[k] == after.sessions[k]))
    && (key in before.sessions && before.sessions[key] != id ==>
          key in after.sessions && after.sessions[key] == before.sessions[key])
    && (key in after.sessions ==>
          after.sessions[key] == id || (key in before.sessions && after.sessions[key] == before.sessions[key]))
    && (forall c: Conn :: c.attempt != id ==> (c in before.active <==> c in after.active))
  }

  lemma ApplyKeepsTables(s: State, id: nat, a: Attempt, worker: Worker, used: nat)
    requires TablesFit(s)
    requires a.worker in s.workers && (id in s.attempts ==> s.attempts[id].worker == a.worker && s.attempts[id].key == a.key)
    requires OnlyOwnEntries(id, a.key, s.workers[a.worker], worker)
    requires AttemptFits(id, a, worker) && WorkerFits(a.worker, worker, s.attempts[id := a])
    ensures TablesFit(Apply(s, id, a, worker, used))
  {
    hide AttemptFits, OnlyOwnEntries, WorkerFits;
    var s' := Apply(s, id, a, worker, used);
    forall other | other in s.attempts && other != id
      ensures AttemptFits(other, s.attempts[other], s'.workers[s.attempts[other].worker])
    {
      OthersStillFit(s, id, a, worker, other);
    }
    forall w | w in s.workers ensures WorkerFits(w, s'.workers[w], s'.attempts) {
      WorkerStillFits(w, s.workers[w], s.attempts, id, a);
    }
  }

  /** A worker's tables do not care how far an attempt has got. */
  lemma WorkerStillFits(w: nat, worker: Worker, attempts: map<nat, Attempt>, id: nat, a: Attempt)
    requires WorkerFits(w, worker, attempts)
    requires id in attempts ==> attempts[id].worker == a.worker && attempts[id].key == a.key
    ensures WorkerFits(w, worker, attempts[id := a])
  {}

  lemma OthersStillFit(s: State, id: nat, a: Attempt, worker: Worker, other: nat)
    requires TablesFit(s) && a.worker in s.workers && OnlyOwnEntries(id, a.key, s.workers[a.worker], worker)
    requires other in s.attempts && other != id
    ensures var w := s.attempts[other].worker;
      AttemptFits(other, s.attempts[other], if w == a.worker then worker else s.workers[w])
  {
    hide WorkerFits;
    var w := s.attempts[other].worker;
    assert Conn(other, false).attempt == other && Conn(other, true).attempt == other;
  }

  // ---- What an attempt's own step does to its worker's tables ----

  lemma StepTouchesOwnEntries(id: nat, a: Attempt, worker: Worker, action: Action)
    requires AttemptFits(id, a, worker) && AboutAttempt(action)
    ensures var (a', worker') := Attempted(id, a, worker, action);
      OnlyOwnEntries(id, a.key, worker, worker') && a'.worker == a.worker && a'.key == a.key
  {}

  lemma StepKeepsAttempt(id: nat, a: Attempt, worker: Worker, action: Action)
    requires AttemptFits(id, a, worker) && AboutAttempt(action)
    ensures var (a', worker') := Attempted(id, a, worker, action);
      AttemptFits(id, a', worker')
  {}

  lemma StepKeepsWorker(attempts: map<nat, Attempt>, id: nat, worker: Worker, action: Action)
    requires id in attempts && AboutAttempt(action)
    requires WorkerFits(attempts[id].worker, worker, attempts)
    ensures var (a', worker') := Attempted(id, attempts[id], worker, action);
      WorkerFits(a'.worker, worker', attempts[id := a'])
  {
    var (a', worker') := Attempted(id, attempts[id], worker, action);
    assert WorkerFits(a'.worker, worker', attempts);
    WorkerStillFits(a'.worker, worker', attempts, id, a');
  }

  // ---- Every step keeps the invariant ----

  lemma AttemptStepKeeps(s: State, action: Action)
    requires Inv(s) && AboutAttempt(action)
    ensures Inv(Next(s, action))
  {
    hide SlotsCounted, AttemptFits, WorkerFits, OnlyOwnEntries, Attempted, CountersMove;
    var id := action.id;
    if id in s.attempts {
      var a := s.attempts[id];
      var (a', worker') := Attempted(id, a, s.workers[a.worker], action);
      AttemptedCounts(s, id, action);
      StepTouchesOwnEntries(id, a, s.workers[a.worker], action);
      StepKeepsAttempt(id, a, s.workers[a.worker], action);
      StepKeepsWorker(s.attempts, id, s.workers[a.worker], action);
      ApplyKeepsSlots(s, id, a', worker', s.globalUsed);
      ApplyKeepsTables(s, id, a', worker', s.globalUsed);
    }
  }

  lemma TryGlobalKeeps(s: State, id: nat, w: nat, key: string)
    requires Inv(s)
    ensures Inv(Next(s, TryGlobal(id, w, key)))
  {
    hide GlobalHolders, RouteHolders;
    if id !in s.attempts && w in s.workers && s.globalUsed < s.globalLimit {
      var a := Attempt(w, key, WantRoute, 0);
      ApplyKeepsSlots(s, id, a, s.workers[w], s.globalUsed + 1);
      hide SlotsCounted;
      WorkerStillFits(w, s.workers[w], s.attempts, id, a);
      assert Conn(id, false).attempt == id && Conn(id, true).attempt == id;
      ApplyKeepsTables(s, id, a, s.workers[w], s.globalUsed + 1);
    }
  }

  lemma GiveGlobalBackKeeps(s: State, id: nat)
    requires Inv(s)
    ensures Inv(Next(s, GiveGlobalBack(id)))
  {
    hide GlobalHolders, RouteHolders, WorkerFits;
    var s' := Next(s, GiveGlobalBack(id));
    if s' != s {
      var a := s.attempts[id].(phase := Finished);
      var worker := s.workers[a.worker];
      assert CountersMove(s, id, a, worker, s.globalUsed - 1);
      hide CountersMove;
      ApplyKeepsSlots(s, id, a, worker, s.globalUsed - 1);
      hide SlotsCounted;
      WorkerStillFits(a.worker, worker, s.attempts, id, a);
      ApplyKeepsTables(s, id, a, worker, s.globalUsed - 1);
    }
  }

  lemma DropDrainedKeeps(s: State, w: nat, key: string)
    requires Inv(s)
    ensures Inv(Next(s, DropDrained(w, key)))
  {
    hide GlobalHolders, RouteHolders, AttemptFits, WorkerFits, Dropped, CountersMove;
    if w in s.workers && key in s.workers[w].draining && s.workers[w].draining[key] in s.attempts {
      var id := s.workers[w].draining[key];
      if s.attempts[id].worker == w && s.attempts[id].key == key {
        DrainedFits(s, w, key);
        var (a, worker) := Dropped(id, s.attempts[id], s.workers[w]);
        ApplyKeepsSlots(s, id, a, worker.(draining := worker.draining - {key}), s.globalUsed);
        hide SlotsCounted;
        ApplyKeepsTables(s, id, a, worker.(draining := worker.draining - {key}), s.globalUsed);
      }
    }
  }

  lemma DrainedFits(s: State, w: nat, key: string)
    requires Inv(s) && w in s.workers && key in s.workers[w].draining
    requires var id := s.workers[w].draining[key];
      id in s.attempts && s.attempts[id].worker == w && s.attempts[id].key == key
    ensures var id := s.workers[w].draining[key];
      var (a, worker) := Dropped(id, s.attempts[id], s.workers[w]);
      var worker' := worker.(draining := worker.draining - {key});
      && CountersMove(s, id, a, worker', s.globalUsed)
      && OnlyOwnEntries(id, key, s.workers[w], worker') && AttemptFits(id, a, worker')
      && WorkerFits(w, worker', s.attempts[id := a]) && a.worker == w && a.key == key
  {
    hide SlotsCounted, OnlyOwnEntries, CountersMove, AttemptFits, WorkerFits;
    var id := s.workers[w].draining[key];
    var (a, worker) := Dropped(id, s.attempts[id], s.workers[w]);
    DropDrainedFromTables(s.attempts, id, w, key, s.workers[w]);
    WorkerStillFits(w, worker.(draining := worker.draining - {key}), s.attempts, id, a);
    DropFits(id, s.attempts[id], s.workers[w], key);
    DropCounts(s, id, worker.draining - {key});
  }

  lemma DropFits(id: nat, a: Attempt, worker: Worker, key: string)
    requires AttemptFits(id, a, worker)
    ensures var (a', worker') := Dropped(id, a, worker);
      AttemptFits(id, a', worker'.(draining := worker'.draining - {key}))
  {}

  lemma DropCounts(s: State, id: nat, draining: map<string, nat>)
    requires SlotsCounted(s) && id in s.attempts && s.attempts[id].worker in s.workers
    requires AttemptFits(id, s.attempts[id], s.workers[s.attempts[id].worker])
    ensures var (a, worker) := Dropped(id, s.attempts[id], s.workers[s.attempts[id].worker]);
      CountersMove(s, id, a, worker.(draining := draining), s.globalUsed)
  {
    hide GlobalHolders, RouteHolders;
  }

  lemma DropDrainedFromTables(attempts: map<nat, Attempt>, id: nat, w: nat, key: string, worker: Worker)
    requires WorkerFits(w, worker, attempts) && key in worker.draining && worker.draining[key] == id
    requires id in attempts && attempts[id].worker == w && attempts[id].key == key
    ensures var dropped := Dropped(id, attempts[id], worker).1;
      var worker' := dropped.(draining := dropped.draining - {key});
      WorkerFits(w, worker', attempts) && OnlyOwnEntries(id, key, worker, worker')
  {}

  /** Replacing a worker by one with the same slots and tables. */
  lemma WithWorkerKeeps(s: State, w: nat, worker: Worker)
    requires Inv(s) && WorkerFits(w, worker, s.attempts)
    requires if w in s.workers then worker == s.workers[w].(stopped := worker.stopped, draining := worker.draining)
             else worker.used == 0
    ensures Inv(WithWorker(s, w, worker))
  {
    hide WorkerFits;
    var s' := WithWorker(s, w, worker);
    assert TablesFit(s') by {
      hide SlotsCounted;
      forall id | id in s.attempts ensures AttemptFits(id, s.attempts[id], s'.workers[s.attempts[id].worker]) {
        assert AttemptFits(id, s.attempts[id], s.workers[s.attempts[id].worker]);
      }
    }
    hide AttemptFits, GlobalHolders;
    if w !in s.workers {
      assert RouteHolders(s.attempts, w) == {};
    }
    hide RouteHolders;
  }

  lemma BeginStopKeeps(s: State, w: nat)
    requires Inv(s)
    ensures Inv(Next(s, BeginStop(w)))
  {
    hide SlotsCounted, AttemptFits;
    if w in s.workers && !s.workers[w].stopped {
      var worker := s.workers[w].(stopped := true, draining := s.workers[w].sessions);
      assert WorkerFits(w, worker, s.attempts);
      hide WorkerFits;
      WithWorkerKeeps(s, w, worker);
    }
  }

  lemma StartKeeps(s: State, w: nat, udp: bool, limit: nat)
    requires Inv(s)
    ensures Inv(Next(s, StartWorker(w, udp, limit)))
  {
    hide SlotsCounted, AttemptFits;
    if w !in s.workers {
      var worker := Worker(udp, limit, 0, false, map[], map[], {});
      assert WorkerFits(w, worker, s.attempts);
      hide WorkerFits;
      WithWorkerKeeps(s, w, worker);
    }
  }

  lemma NextKeeps(s: State, action: Action)
    requires Inv(s)
    ensures Inv(Next(s, action))
  {
    hide Inv, Next;
    match action
    case StartWorker(w, udp, limit) => StartKeeps(s, w, udp, limit);
    case TryGlobal(id, w, key) => TryGlobalKeeps(s, id, w, key);
    case GiveGlobalBack(id) => GiveGlobalBackKeeps(s, id);
    case BeginStop(w) => BeginStopKeeps(s, w);
    case DropDrained(w, key) => DropDrainedKeeps(s, w, key);
    case _ => AttemptStepKeeps(s, action);
  }

  lemma {:induction false} RunKeeps(s: State, actions: seq<Action>)
    requires Inv(s)
    ensures Inv(RunFrom(s, actions))
  {
    hide Inv, Next;
    if actions != [] {
      RunKeeps(s, actions[..|actions| - 1]);
      NextKeeps(RunFrom(s, actions[..|actions| - 1]), actions[|actions| - 1]);
    }
  }

  // ---- What holds in every run ----

  lemma Reachable(globalLimit: nat, actions: seq<Action>)
    ensures Inv(RunFrom(Init(globalLimit), actions))
  {
    assert GlobalHolders(map[]) == {};
    RunKeeps(Init(globalLimit), actions);
  }

  /** The attempts of a worker whose client is connected: tracked, or in the session table. */
  function Connected(s: State, w: nat): set<nat> {
    set id | id in s.attempts && s.attempts[id].worker == w
             && (ClientTracked(s.attempts[id].phase) || s.attempts[id].phase.InSession?)
  }

  /** In every run a worker never has more clients than its limit, all its table entries belong to them, and the
      global limit holds. */
  lemma LimitsHold(globalLimit: nat, actions: seq<Action>, w: nat)
    requires w in RunFrom(Init(globalLimit), actions).workers
    ensures var s := RunFrom(Init(globalLimit), actions);
      && |Connected(s, w)| <= s.workers[w].limit && |GlobalHolders(s.attempts)| <= s.globalLimit
      && (forall key :: key in s.workers[w].sessions ==> s.workers[w].sessions[key] in Connected(s, w))
      && (forall c :: c in s.workers[w].active ==> c.attempt in Connected(s, w))
  {
    Reachable(globalLimit, actions);
    var s := RunFrom(Init(globalLimit), actions);
    assert WorkerFits(w, s.workers[w], s.attempts);
    SubsetSize(Connected(s, w), RouteHolders(s.attempts, w));
    forall c | c in s.workers[w].active ensures c.attempt in Connected(s, w) {
      assert AttemptFits(c.attempt, s.attempts[c.attempt], s.workers[w]);
      assert c == Conn(c.attempt, false) || c == Conn(c.attempt, true);
    }
  }

  lemma {:induction false} SubsetSize(a: set<nat>, b: set<nat>)
    requires a <= b
    ensures |a| <= |b|
  {
    assert b == a + (b - a);
  }

  /** A receive that gives a slot back always finds one to take. */
  lemma ReleaseNeverBlocks(globalLimit: nat, actions: seq<Action>, id: nat)
    requires id in RunFrom(Init(globalLimit), actions).attempts
    ensures var s := RunFrom(Init(globalLimit), actions);
      var a := s.attempts[id];
      && a.worker in s.workers
      && (a.phase.ReturnRoute? ==> s.workers[a.worker].used > 0)
      && (a.phase.ReturnGlobal? || a.phase.RouteFull? ==> s.globalUsed > 0)
  {
    Reachable(globalLimit, actions);
    var s := RunFrom(Init(globalLimit), actions);
    if HoldsRoute(s.attempts[id].phase) { assert id in RouteHolders(s.attempts, s.attempts[id].worker); }
    if HoldsGlobal(s.attempts[id].phase) { assert id in GlobalHolders(s.attempts); }
  }

  /** With every attempt finished no slot is taken and no table has an entry. */
  lemma NothingLeaks(globalLimit: nat, actions: seq<Action>, w: nat)
    requires var s := RunFrom(Init(globalLimit), actions);
      w in s.workers && forall id :: id in s.attempts ==> s.attempts[id].phase.Finished?
    ensures var s := RunFrom(Init(globalLimit), actions);
      s.globalUsed == 0 && s.workers[w].used == 0 && s.workers[w].sessions == map[] && s.workers[w].active == {}
  {
    LimitsHold(globalLimit, actions, w);
    Reachable(globalLimit, actions);
    var s := RunFrom(Init(globalLimit), actions);
    assert GlobalHolders(s.attempts) == {} && RouteHolders(s.attempts, w) == {} && Connected(s, w) == {};
  }

  /** Holds its route slot, or has given it back once. */
  predicate RouteSlotAccounted(a: Attempt) {
    if HoldsRoute(a.phase) then a.returned == 0 else a.returned == 1 && (a.phase.ReturnGlobal? || a.phase.Finished?)
  }

  lemma StepAccounts(s: State, id: nat, action: Action)
    requires Inv(s) && id in s.attempts && RouteSlotAccounted(s.attempts[id])
    ensures id in Next(s, action).attempts && RouteSlotAccounted(Next(s, action).attempts[id])
    ensures Next(s, action).attempts[id].returned >= s.attempts[id].returned
  {
    hide SlotsCounted, WorkerFits;
    assert AttemptFits(id, s.attempts[id], s.workers[s.attempts[id].worker]);
    hide TablesFit;
  }

  /** A connection that got its route slot gives it back at most once in any continuation, and exactly once by the
      time it is finished. */
  lemma {:induction false} ReleasedExactlyOnce(globalLimit: nat, actions: seq<Action>, more: seq<Action>, id: nat)
    requires id in RunFrom(Init(globalLimit), actions).attempts
    requires HoldsRoute(RunFrom(Init(globalLimit), actions).attempts[id].phase)
    ensures var later := RunFrom(RunFrom(Init(globalLimit), actions), more);
      id in later.attempts && RouteSlotAccounted(later.attempts[id])
  {
    hide Inv, Next;
    var s := RunFrom(Init(globalLimit), actions);
    Reachable(globalLimit, actions);
    if more == [] {
      HeldIsAccounted(s, id);
    } else {
      var before := RunFrom(s, more[..|more| - 1]);
      ReleasedExactlyOnce(globalLimit, actions, more[..|more| - 1], id);
      RunKeeps(s, more[..|more| - 1]);
      StepAccounts(before, id, more[|more| - 1]);
    }
  }

  lemma HeldIsAccounted(s: State, id: nat)
    requires Inv(s) && id in s.attempts && HoldsRoute(s.attempts[id].phase)
    ensures RouteSlotAccounted(s.attempts[id])
  {
    assert AttemptFits(id, s.attempts[id], s.workers[s.attempts[id].worker]);
  }

  // ---- Stopping ----

  /** After a stop the worker's tables only shrink. */
  predicate OnlyShrinks(before: Worker, after: Worker) {
    && after.stopped
    && after.active <= before.active
    && (forall key :: key in after.sessions ==> key in before.sessions && after.sessions[key] == before.sessions[key])
    && (forall key :: key in after.draining ==> key in before.draining && after.draining[key] == before.draining[key])
  }

  lemma StepOnlyShrinks(s: State, action: Action, w: nat)
    requires w in s.workers && s.workers[w].stopped
    ensures w in Next(s, action).workers && OnlyShrinks(s.workers[w], Next(s, action).workers[w])
  {}

  /** From the beginning of a stop on nothing enters the worker's tables, whatever happens next. */
  lemma {:induction false} StoppedOnlyShrinks(s: State, more: seq<Action>, w: nat)
    requires w in s.workers && s.workers[w].stopped
    ensures w in RunFrom(s, more).workers && OnlyShrinks(s.workers[w], RunFrom(s, more).workers[w])
  {
    hide Next;
    if more != [] {
      StoppedOnlyShrinks(s, more[..|more| - 1], w);
      StepOnlyShrinks(RunFrom(s, more[..|more| - 1]), more[|more| - 1], w);
    }
  }

  /** Once a stop has worked off the sessions it found, the worker has no session and never gets one again. */
  lemma NoSessionAfterStop(globalLimit: nat, actions: seq<Action>, more: seq<Action>, w: nat)
    requires var s := RunFrom(Init(globalLimit), actions);
      w in s.workers && s.workers[w].stopped && s.workers[w].draining == map[]
    ensures var later := RunFrom(RunFrom(Init(globalLimit), actions), more);
      && w in later.workers && later.workers[w].sessions == map[]
      && forall id :: id in later.attempts && later.attempts[id].worker == w ==> !later.attempts[id].phase.InSession?
  {
    hide Next;
    var s := RunFrom(Init(globalLimit), actions);
    Reachable(globalLimit, actions);
    RunKeeps(s, more);
    StoppedOnlyShrinks(s, more, w);
    assert WorkerFits(w, s.workers[w], s.attempts);
    var later := RunFrom(s, more);
    forall id | id in later.attempts && later.attempts[id].worker == w ensures !later.attempts[id].phase.InSession? {
      assert AttemptFits(id, later.attempts[id], later.workers[w]);
    }
  }

  /** A stop can always work off a session that it found: whether or not somebody was faster, the session is gone, and
      its attempt is left to give its slots back. */
  lemma DrainsOne(globalLimit: nat, actions: seq<Action>, w: nat, key: string)
    requires w in RunFrom(Init(globalLimit), actions).workers
    requires key in RunFrom(Init(globalLimit), actions).workers[w].draining
    ensures var s := RunFrom(Init(globalLimit), actions);
      var id, s' := s.workers[w].draining[key], Next(s, DropDrained(w, key));
      && w in s'.workers && s'.workers[w].draining == s.workers[w].draining - {key}
      && id in s'.attempts && !s'.attempts[id].phase.InSession?
      && (id in s.attempts && s.attempts[id].phase.InSession? ==> s'.attempts[id].phase.ReturnRoute?)
  {
    hide SlotsCounted;
    Reachable(globalLimit, actions);
    var s := RunFrom(Init(globalLimit), actions);
    assert WorkerFits(w, s.workers[w], s.attempts);
    var id := s.workers[w].draining[key];
    assert AttemptFits(id, s.attempts[id], s.workers[w]);
    hide WorkerFits, RunFrom;
  }

  // ---- Getting in, and getting out again ----

  lemma {:induction false} LimitsAreFixed(s: State, more: seq<Action>, w: nat)
    requires w in s.workers
    ensures RunFrom(s, more).globalLimit == s.globalLimit
    ensures w in RunFrom(s, more).workers && RunFrom(s, more).workers[w].limit == s.workers[w].limit
    ensures RunFrom(s, more).workers[w].udp == s.workers[w].udp
  {
    hide Next;
    if more != [] {
      LimitsAreFixed(s, more[..|more| - 1], w);
      StepFixesLimits(RunFrom(s, more[..|more| - 1]), more[|more| - 1], w);
    }
  }

  lemma StepFixesLimits(s: State, action: Action, w: nat)
    requires w in s.workers
    ensures Next(s, action).globalLimit == s.globalLimit && w in Next(s, action).workers
    ensures Next(s, action).workers[w].limit == s.workers[w].limit && Next(s, action).workers[w].udp == s.workers[w].udp
  {}

  lemma {:induction false} GlobalLimitIsFixed(globalLimit: nat, actions: seq<Action>)
    ensures RunFrom(Init(globalLimit), actions).globalLimit == globalLimit
  {
    if actions != [] { GlobalLimitIsFixed(globalLimit, actions[..|actions| - 1]); }
  }

  /** In every run a new attempt gets in if and only if fewer attempts than the limit hold a global slot, and one that is
      in gets a route slot if and only if fewer than the worker's limit hold one. */
  lemma AdmittedIff(globalLimit: nat, actions: seq<Action>, id: nat, w: nat, key: string)
    requires w in RunFrom(Init(globalLimit), actions).workers
    ensures var s := RunFrom(Init(globalLimit), actions);
      && (id !in s.attempts ==>
            (id in Next(s, TryGlobal(id, w, key)).attempts <==> |GlobalHolders(s.attempts)| < globalLimit))
      && (id in s.attempts && s.attempts[id].worker == w && s.attempts[id].phase.WantRoute? ==>
            && id in Next(s, TryRoute(id)).attempts
            && Next(s, TryRoute(id)).attempts[id].phase ==
                 if |RouteHolders(s.attempts, w)| < s.workers[w].limit then Connecting else RouteFull)
  {
    Reachable(globalLimit, actions);
    GlobalLimitIsFixed(globalLimit, actions);
    hide GlobalHolders, RouteHolders;
  }

  /** An attempt with its slots goes on if its worker was not stopped and its dial succeeded; a UDP one also needs that no
      other session has its client. */
  lemma GoesOnIff(globalLimit: nat, actions: seq<Action>, id: nat, ok: bool)
    requires id in RunFrom(Init(globalLimit), actions).attempts
    ensures var s := RunFrom(Init(globalLimit), actions);
      var a := s.attempts[id];
      && a.worker in s.workers
      && var worker := s.workers[a.worker];
         && (a.phase.Connecting? && !worker.udp ==>
               id in Next(s, Track(id)).attempts
               && Next(s, Track(id)).attempts[id].phase == if worker.stopped then ReturnRoute else Dialing)
         && (a.phase.Dialing? ==>
               id in Next(s, BackendDialed(id, ok)).attempts
               && Next(s, BackendDialed(id, ok)).attempts[id].phase == if ok && !worker.stopped then Proxying else Closing)
         && (a.phase.Connecting? && worker.udp ==>
               id in Next(s, Insert(id, ok)).attempts
               && Next(s, Insert(id, ok)).attempts[id].phase ==
                    if ok && !worker.stopped && a.key !in worker.sessions then InSession else ReturnRoute)
  {
    Reachable(globalLimit, actions);
    hide SlotsCounted, WorkerFits, AttemptFits;
  }

  /** How far an attempt has got. */
  function Rank(p: Phase): nat {
    match p
    case WantRoute => 0
    case Connecting => 1
    case Dialing => 2
    case Proxying => 3
    case Closing => 4
    case InSession => 5
    case ReturnRoute => 6
    case RouteFull => 7
    case ReturnGlobal => 7
    case Finished => 8
  }

  /** Everything an attempt may have to do to get out, in its order: a step that is not its next one does nothing. */
  function WayOut(id: nat): seq<Action> {
    [TryRoute(id), Track(id), Insert(id, false), BackendDialed(id, false), UntrackBackend(id), UntrackClient(id), Drop(id),
     GiveRouteBack(id), GiveGlobalBack(id)]
  }

  /** The n-th step of the way out raises the rank of an attempt that has to take it, and lowers none. */
  predicate Rises(n: nat, udp: bool, before: nat, after: nat) {
    && after >= before
    && (n == 0 && before == 0 ==> after >= 1)
    && (n == 1 && before == 1 && !udp ==> after >= 2)
    && (n == 2 && before == 1 && udp ==> after >= 2)
    && (n >= 3 && before == n - 1 ==> after >= n)
  }

  lemma AttemptRises(id: nat, a: Attempt, worker: Worker, n: nat)
    requires AttemptFits(id, a, worker) && (HoldsRoute(a.phase) ==> worker.used > 0) && n < 8
    ensures Rises(n, worker.udp, Rank(a.phase), Rank(Attempted(id, a, worker, WayOut(id)[n]).0.phase))
    ensures Attempted(id, a, worker, WayOut(id)[n]).0.worker == a.worker
  {}

  lemma SlotsOfAttempt(s: State, id: nat)
    requires Inv(s) && id in s.attempts
    ensures s.attempts[id].worker in s.workers
    ensures var a := s.attempts[id];
      && AttemptFits(id, a, s.workers[a.worker])
      && (HoldsRoute(a.phase) ==> s.workers[a.worker].used > 0) && (HoldsGlobal(a.phase) ==> s.globalUsed > 0)
  {
    hide AttemptFits, WorkerFits;
    if HoldsRoute(s.attempts[id].phase) { assert id in RouteHolders(s.attempts, s.attempts[id].worker); }
    if HoldsGlobal(s.attempts[id].phase) { assert id in GlobalHolders(s.attempts); }
  }

  /** And it touches no other attempt. */
  lemma WayOutStep(s: State, id: nat, n: nat)
    requires Inv(s) && id in s.attempts && n < 9 && s.attempts[id].worker in s.workers
    ensures var s' := Next(s, WayOut(id)[n]);
      && s'.attempts.Keys == s.attempts.Keys
      && (forall k :: k in s.attempts && k != id ==> s'.attempts[k] == s.attempts[k])
      && s'.attempts[id].worker == s.attempts[id].worker
      && Rises(n, s.workers[s.attempts[id].worker].udp, Rank(s.attempts[id].phase), Rank(s'.attempts[id].phase))
  {
    hide Inv, AttemptFits, Attempted;
    SlotsOfAttempt(s, id);
    if n < 8 { AttemptRises(id, s.attempts[id], s.workers[s.attempts[id].worker], n); }
  }

  /** After the first n steps of the way out, whatever phase the attempt was in. */
  lemma {:induction false} WayOutSoFar(s: State, id: nat, n: nat)
    requires Inv(s) && id in s.attempts && n <= 9
    ensures var s' := RunFrom(s, WayOut(id)[..n]);
      && Inv(s') && s'.attempts.Keys == s.attempts.Keys
      && (forall k :: k in s.attempts && k != id ==> s'.attempts[k] == s.attempts[k])
      && s'.attempts[id].worker == s.attempts[id].worker && s.attempts[id].worker in s.workers
      && s.attempts[id].worker in s'.workers
      && s'.workers[s.attempts[id].worker].udp == s.workers[s.attempts[id].worker].udp
      && var rank := Rank(s'.attempts[id].phase);
         && (n == 1 || n == 2 ==> rank >= 1) && (n == 2 && !s.workers[s.attempts[id].worker].udp ==> rank >= 2)
         && (n >= 3 ==> rank >= n - 1)
  {
    hide Inv, Next, WayOut;
    OwnWorker(s, id);
    if n == 0 {
      assert WayOut(id)[..0] == [];
    } else {
      var before := RunFrom(s, WayOut(id)[..n - 1]);
      assert WayOut(id)[..n][..n - 1] == WayOut(id)[..n - 1] && WayOut(id)[..n][n - 1] == WayOut(id)[n - 1];
      WayOutSoFar(s, id, n - 1);
      WayOutStep(before, id, n - 1);
      NextKeeps(before, WayOut(id)[n - 1]);
      StepFixesLimits(before, WayOut(id)[n - 1], s.attempts[id].worker);
    }
  }

  lemma OwnWorker(s: State, id: nat)
    requires Inv(s) && id in s.attempts
    ensures s.attempts[id].worker in s.workers && |WayOut(id)| == 9
  {}

  /** Nothing can hold an attempt back: from wherever it is in any run, its own steps alone finish it, and leave every
      other attempt where it is. */
  lemma CanAlwaysFinish(globalLimit: nat, actions: seq<Action>, id: nat)
    requires id in RunFrom(Init(globalLimit), actions).attempts
    ensures var s := RunFrom(Init(globalLimit), actions);
      var later := RunFrom(s, WayOut(id));
      && later.attempts.Keys == s.attempts.Keys && later.attempts[id].phase.Finished?
      && forall k :: k in s.attempts && k != id ==> later.attempts[k] == s.attempts[k]
  {
    hide Inv, Next, RunFrom;
    var s := RunFrom(Init(globalLimit), actions);
    Reachable(globalLimit, actions);
    WayOutSoFar(s, id, 9);
    assert WayOut(id)[..9] == WayOut(id);
  }

  // ---- The steps as the edge runs them ----

  /** The shared state of the manager and its workers. Each method is one mutex region or channel operation, and is
      the step of that name. */
  class Edge {
    const globalLimit: nat
    var globalUsed: nat
    var workers: map<nat, Worker>
    var attempts: map<nat, Attempt>

    constructor (globalLimit: nat)
      ensures Current() == Init(globalLimit)
    {
      this.globalLimit := globalLimit;
      globalUsed := 0;
      workers, attempts := map[], map[];
    }

    ghost function Current(): State
      reads this
    {
      State(globalLimit, globalUsed, workers, attempts)
    }

    ghost predicate Known(id: nat)
      reads this
    {
      id in attempts && attempts[id].worker in workers
    }

    /** A send on the global slot channel that does not wait. */
    method AcquireGlobal(id: nat, w: nat, key: string) returns (ok: bool)
      requires id !in attempts && w in workers
      modifies this
      ensures Current() == Next(old(Current()), TryGlobal(id, w, key))
      ensures ok <==> id in attempts
    {
      if globalUsed >= globalLimit { return false; }
      globalUsed := globalUsed + 1;
      attempts := attempts[id := Attempt(w, key, WantRoute, 0)];
      assert workers == workers[w := workers[w]];
      return true;
    }

    /** A send on the route's slot channel that does not wait. */
    method AcquireRoute(id: nat) returns (ok: bool)
      requires Known(id) && attempts[id].phase.WantRoute?
      modifies this
      ensures Current() == Next(old(Current()), TryRoute(id))
      ensures id in attempts && attempts[id].phase == if ok then Connecting else RouteFull
    {
      var w := attempts[id].worker;
      ok := workers[w].used < workers[w].limit;
      if ok { workers := workers[w := workers[w].(used := workers[w].used + 1)]; }
      attempts := attempts[id := attempts[id].(phase := if ok then Connecting else RouteFull)];
    }

    /** A receive from the route's slot channel; it would wait if no slot were taken. */
    method ReleaseRoute(id: nat)
      requires Known(id) && attempts[id].phase.ReturnRoute? && workers[attempts[id].worker].used > 0
      modifies this
      ensures Current() == Next(old(Current()), GiveRouteBack(id))
    {
      var a := attempts[id];
      workers := workers[a.worker := workers[a.worker].(used := workers[a.worker].used - 1)];
      attempts := attempts[id := a.(phase := ReturnGlobal, returned := a.returned + 1)];
    }

    /** A receive from the global slot channel; it would wait if no slot were taken. */
    method ReleaseGlobal(id: nat)
      requires Known(id) && (attempts[id].phase.ReturnGlobal? || attempts[id].phase.RouteFull?) && globalUsed > 0
      modifies this
      ensures Current() == Next(old(Current()), GiveGlobalBack(id))
    {
      globalUsed := globalUsed - 1;
      attempts := attempts[id := attempts[id].(phase := Finished)];
      assert workers == workers[attempts[id].worker := workers[attempts[id].worker]];
    }

    /** Tracking an accepted client. */
    method TrackClient(id: nat) returns (ok: bool)
      requires Known(id) && attempts[id].phase.Connecting? && !workers[attempts[id].worker].udp
      modifies this
      ensures Current() == Next(old(Current()), Track(id))
      ensures ok <==> Known(id) && Conn(id, false) in workers[attempts[id].worker].active && attempts[id].phase.Dialing?
    {
      var w := attempts[id].worker;
      if workers[w].stopped {
        attempts := attempts[id := attempts[id].(phase := ReturnRoute)];
        return false;
      }
      workers := workers[w := workers[w].(active := workers[w].active + {Conn(id, false)})];
      attempts := attempts[id := attempts[id].(phase := Dialing)];
      return true;
    }

    /** Tracking a dialled backend; a failed dial, or a stop in the meantime, closes the client. */
    method TrackBackend(id: nat, dialled: bool) returns (ok: bool)
      requires Known(id) && attempts[id].phase.Dialing?
      modifies this
      ensures Current() == Next(old(Current()), BackendDialed(id, dialled))
      ensures ok <==> Known(id) && Conn(id, true) in workers[attempts[id].worker].active && attempts[id].phase.Proxying?
    {
      var w := attempts[id].worker;
      if !dialled || workers[w].stopped {
        attempts := attempts[id := attempts[id].(phase := Closing)];
        return false;
      }
      workers := workers[w := workers[w].(active := workers[w].active + {Conn(id, true)})];
      attempts := attempts[id := attempts[id].(phase := Proxying)];
      return true;
    }

    /** Forgetting a connection that is about to be closed: the backend's first, then the client's. */
    method Untrack(id: nat)
      requires Known(id) && (attempts[id].phase.Proxying? || attempts[id].phase.Closing?)
      modifies this
      ensures Current() == Next(old(Current()), if old(attempts)[id].phase.Proxying? then UntrackBackend(id) else UntrackClient(id))
    {
      var a := attempts[id];
      var backend := a.phase.Proxying?;
      workers := workers[a.worker := workers[a.worker].(active := workers[a.worker].active - {Conn(id, backend)})];
      attempts := attempts[id := a.(phase := if backend then Closing else ReturnRoute)];
    }

    /** Entering a dialled UDP session under the worker's lock, unless it stopped or another one was faster. */
    method InsertSession(id: nat) returns (session: nat, found: bool)
      requires Known(id) && attempts[id].phase.Connecting? && workers[attempts[id].worker].udp
      modifies this
      ensures Current() == Next(old(Current()), Insert(id, true))
      ensures Known(id) && var worker, key := workers[attempts[id].worker], attempts[id].key;
        (found ==> key in worker.sessions && worker.sessions[key] == session) && (!found <==> worker.stopped)
    {
      var w, key := attempts[id].worker, attempts[id].key;
      if workers[w].stopped {
        attempts := attempts[id := attempts[id].(phase := ReturnRoute)];
        return 0, false;
      }
      if key in workers[w].sessions {
        attempts := attempts[id := attempts[id].(phase := ReturnRoute)];
        return workers[w].sessions[key], true;
      }
      workers := workers[w := workers[w].(sessions := workers[w].sessions[key := id])];
      attempts := attempts[id := attempts[id].(phase := InSession)];
      return id, true;
    }

    /** Dropping a session: the caller that removes it must give its slots back, any other must not. */
    method DropSession(id: nat) returns (mine: bool)
      requires Inv(Current()) && Known(id)
      modifies this
      ensures Current() == Next(old(Current()), Drop(id))
      ensures mine <==> old(attempts[id].phase.InSession?)
      ensures mine ==> id in attempts && attempts[id].phase.ReturnRoute?
    {
      hide SlotsCounted, WorkerFits;
      var w, key := attempts[id].worker, attempts[id].key;
      assert AttemptFits(id, attempts[id], workers[w]);
      if key !in workers[w].sessions || workers[w].sessions[key] != id { return false; }
      workers := workers[w := workers[w].(sessions := workers[w].sessions - {key})];
      attempts := attempts[id := attempts[id].(phase := ReturnRoute)];
      return true;
    }

    /** The first region of a stop: from here on nothing enters the tables. */
    method MarkStopped(w: nat) returns (sessions: map<string, nat>)
      requires w in workers && !workers[w].stopped
      modifies this
      ensures Current() == Next(old(Current()), BeginStop(w))
      ensures w in workers && sessions == workers[w].sessions
    {
      sessions := workers[w].sessions;
      workers := workers[w := workers[w].(stopped := true, draining := sessions)];
    }
  }
}
