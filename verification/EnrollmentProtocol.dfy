/** Enrolling agents that crash at any point, over a network that loses answers (internal/agent/enrollment.go against
    internal/store/store.go). */
module EnrollmentProtocol {
  import opened Results
  import opened Text
  import opened Enrollment

  /** A claim (request identity and token) in the pending file, or credentials (agent and token) in the saved one. */
  datatype Credentials = Credentials(clientId: string, token: string)

  /** Where a running agent stands; only the files outlive a crash. */
  datatype Phase =
    | Stopped
    | Resolving
    | Drawn(claim: Credentials)
    | Ready(claim: Credentials)
    | Waiting(claim: Credentials)
    | Answered(claim: Credentials, credentials: Credentials)
    | Saved(credentials: Credentials)
    | Running(credentials: Credentials)

  /** `sent` remembers every claim the agent has sent. */
  datatype Agent = Agent(
    saved: Option<Credentials>, pending: Option<Credentials>, phase: Phase, sent: set<Credentials>)

  /** A successful answer of the server to a claim. */
  datatype Answer = Answer(claim: Credentials, agentId: string)

  datatype Step =
    | Crash
    | Launch
    | UseSaved
    | DrawClaim(claim: Credentials)
    | UsePending
    | SavePending
    | Send
    | Receive(answer: Answer)
    | Save
    | RemovePending

  /** One step of an agent; a step that is not enabled changes nothing. Files are replaced atomically, by renaming. */
  function AgentNext(a: Agent, step: Step): Agent {
    match step
    case Crash => a.(phase := Stopped)
    case Launch => if a.phase.Stopped? then a.(phase := Resolving) else a
    case UseSaved =>
      if a.phase.Resolving? && a.saved.Some? then a.(phase := Saved(a.saved.value)) else a
    case DrawClaim(claim) =>
      if a.phase.Resolving? && a.saved.None? && a.pending.None? && IsClaimValue(claim.clientId) && IsClaimValue(claim.token)
      then a.(phase := Drawn(claim)) else a
    case UsePending =>
      if a.phase.Resolving? && a.saved.None? && a.pending.Some? then a.(phase := Ready(a.pending.value)) else a
    case SavePending =>
      if a.phase.Drawn? then a.(phase := Ready(a.phase.claim), pending := Some(a.phase.claim)) else a
    case Send =>
      if a.phase.Ready? then a.(phase := Waiting(a.phase.claim), sent := a.sent + {a.phase.claim}) else a
    case Receive(answer) =>
      if a.phase.Waiting? && answer.claim == a.phase.claim
      then a.(phase := Answered(a.phase.claim, Credentials(answer.agentId, a.phase.claim.token))) else a
    case Save =>
      if a.phase.Answered? then a.(phase := Saved(a.phase.credentials), saved := Some(a.phase.credentials)) else a
    case RemovePending =>
      if a.phase.Saved? then a.(phase := Running(a.phase.credentials), pending := None) else a
  }

  /** `answers` holds every successful answer ever given; the network may lose, delay or repeat any of them. */
  datatype System = System(db: Db, agents: map<nat, Agent>, answers: set<Answer>)

  /** Anyone may call the server with anything; an agent takes its own steps. */
  datatype Action = CallServer(call: Call) | AgentStep(who: nat, step: Step)

  function Init(): System { System(Db(map[], map[], 0), map[], {}) }

  function AgentOf(s: System, who: nat): Agent {
    if who in s.agents then s.agents[who] else Agent(None, None, Stopped, {})
  }

  function Answers(call: Call, result: Option<Result<string, ClaimError>>): set<Answer> {
    if call.ClaimToken? && result.Some? && result.value.Ok? then
      {Answer(Credentials(Cleaned(call.request).requestId, Cleaned(call.request).agentToken), result.value.value)}
    else {}
  }

  function Next(s: System, action: Action): System {
    match action
    case CallServer(call) =>
      var (db, result) := Served(s.db, call);
      s.(db := db, answers := s.answers + Answers(call, result))
    case AgentStep(who, step) =>
      if step.Receive? && step.answer !in s.answers then s
      else s.(agents := s.agents[who := AgentNext(AgentOf(s, who), step)])
  }

  function RunFrom(s: System, actions: seq<Action>): System {
    if actions == [] then s
    else Next(RunFrom(s, actions[..|actions| - 1]), actions[|actions| - 1])
  }

  // ---- Invariants ----

  /** An answer names the agent row that holds the claimed token. */
  ghost predicate AnswersTrue(s: System) {
    forall x :: x in s.answers ==> AuthenticatesAs(s.db, x.claim.token, x.agentId)
  }

  /** Whatever an agent has sent it can send again, until it has saved credentials. */
  predicate AgentOk(a: Agent) {
    && (a.saved.None? ==> forall c :: c in a.sent ==> a.pending == Some(c))
    && (a.phase.Drawn? ==> a.saved.None? && a.pending.None?)
    && (a.phase.Ready? || a.phase.Waiting? || a.phase.Answered? ==> a.saved.None? && a.pending == Some(a.phase.claim))
    && (a.phase.Answered? ==> a.phase.claim in a.sent && a.phase.credentials.token == a.phase.claim.token)
    && (a.phase.Waiting? ==> a.phase.claim in a.sent)
    && (a.phase.Saved? || a.phase.Running? ==> a.saved == Some(a.phase.credentials))
    && (forall c, d :: c in a.sent && d in a.sent ==> c == d)
    && (a.saved.Some? ==> exists c :: c in a.sent && c.token == a.saved.value.token)
  }

  /** Credentials an agent holds are those of one agent row. */
  ghost predicate CredentialsTrue(s: System, a: Agent) {
    && (a.saved.Some? ==> AuthenticatesAs(s.db, a.saved.value.token, a.saved.value.clientId))
    && (a.phase.Answered? ==> AuthenticatesAs(s.db, a.phase.credentials.token, a.phase.credentials.clientId))
  }

  ghost predicate Inv(s: System) {
    && DbOk(s.db) && AnswersTrue(s)
    && forall who :: who in s.agents ==> AgentOk(s.agents[who]) && CredentialsTrue(s, s.agents[who])
  }

  // ---- The server only adds ----

  /** Agent rows stay, and a token row that stays keeps the claim it was used for. */
  ghost predicate Grows(before: Db, after: Db) {
    && before.serials <= after.serials
    && (forall id :: id in before.agents ==> id in after.agents && after.agents[id] == before.agents[id])
    && (forall h ::
          && h in before.tokens && h in after.tokens
          && before.tokens[h].used && after.tokens[h].serial == before.tokens[h].serial
          ==> after.tokens[h] == before.tokens[h])
    && (forall h :: h in after.tokens && after.tokens[h].serial < before.serials ==>
          h in before.tokens && before.tokens[h].serial == after.tokens[h].serial)
  }

  lemma ServedGrows(db: Db, call: Call)
    requires DbOk(db)
    ensures Grows(db, Served(db, call).0)
  {
    hide Issue, Consume, Claim, Grows;
    match call
    case IssueToken(token, expiresAt, now) => IssueGrows(db, token, expiresAt, now);
    case ClaimToken(request, newId, now) => if newId == "" { NothingGrows(db); } else { ClaimGrows(db, request, newId, now); }
    case ConsumeToken(token, name, newId, apiToken, now) =>
      if newId == "" { NothingGrows(db); } else { ConsumeGrows(db, token, name, newId, apiToken, now); }
    case RevokeTokens(hashes) => RevokeGrows(db, hashes);
  }

  lemma IssueGrows(db: Db, token: string, expiresAt: int, now: int)
    requires DbOk(db)
    ensures Grows(db, Issue(db, token, expiresAt, now))
  {
    hide TrimSpace;
  }

  lemma ClaimGrows(db: Db, request: Request, newId: string, now: int)
    requires DbOk(db) && newId != ""
    ensures Grows(db, Claim(db, request, newId, now).0)
  {
    hide DbOk, TrimSpace, WellFormed, HashTaken, IsClaimOf;
  }

  lemma ConsumeGrows(db: Db, token: string, agentName: string, newId: string, apiToken: string, now: int)
    requires DbOk(db) && newId != ""
    ensures Grows(db, Consume(db, token, agentName, newId, apiToken, now).0)
  {
    hide DbOk, TrimSpace, ValidAgentName, HashTaken;
  }

  lemma RevokeGrows(db: Db, hashes: set<Hash>)
    ensures Grows(db, Revoke(db, hashes))
  {}

  lemma ServedAnswersTrue(db: Db, call: Call)
    requires DbOk(db)
    ensures var (db', result) := Served(db, call);
      forall x :: x in Answers(call, result) ==> AuthenticatesAs(db', x.claim.token, x.agentId)
  {
    hide TrimSpace, WellFormed, HashTaken;
  }

  // ---- Every step keeps the invariant ----

  lemma CallKeeps(s: System, call: Call)
    requires Inv(s)
    ensures Inv(Next(s, CallServer(call))) && Grows(s.db, Next(s, CallServer(call)).db)
  {
    hide Served, Answers, DbOk, AgentOk;
    ServedKeeps(s.db, call);
    ServedGrows(s.db, call);
    ServedAnswersTrue(s.db, call);
  }

  lemma AgentStepOk(a: Agent, step: Step)
    requires AgentOk(a)
    ensures AgentOk(AgentNext(a, step))
  {
    hide IsClaimValue;
  }

  lemma AgentStepKeeps(s: System, who: nat, step: Step)
    requires Inv(s)
    ensures Inv(Next(s, AgentStep(who, step)))
  {
    hide DbOk, IsClaimValue;
    AgentStepOk(AgentOf(s, who), step);
    hide AgentOk;
  }

  lemma NextKeeps(s: System, action: Action)
    requires Inv(s)
    ensures Inv(Next(s, action)) && Grows(s.db, Next(s, action).db)
  {
    hide Inv, Grows;
    match action
    case CallServer(call) => CallKeeps(s, call);
    case AgentStep(who, step) =>
      AgentStepKeeps(s, who, step);
      NothingGrows(s.db);
  }

  lemma NothingGrows(db: Db)
    ensures Grows(db, db)
  {}

  lemma GrowsFurther(a: Db, b: Db, c: Db)
    requires Grows(a, b) && Grows(b, c)
    requires forall h :: h in a.tokens ==> a.tokens[h].serial < a.serials
    ensures Grows(a, c)
  {}

  lemma {:induction false} RunKeeps(s: System, actions: seq<Action>)
    requires Inv(s)
    ensures Inv(RunFrom(s, actions)) && Grows(s.db, RunFrom(s, actions).db)
  {
    hide Inv, Grows, Next;
    if actions == [] {
      NothingGrows(s.db);
    } else {
      var before := RunFrom(s, actions[..|actions| - 1]);
      RunKeeps(s, actions[..|actions| - 1]);
      NextKeeps(before, actions[|actions| - 1]);
      SerialsBounded(s);
      GrowsFurther(s.db, before.db, Next(before, actions[|actions| - 1]).db);
    }
  }

  lemma SerialsBounded(s: System)
    requires Inv(s)
    ensures forall h :: h in s.db.tokens ==> s.db.tokens[h].serial < s.db.serials
  {}

  lemma Reachable(actions: seq<Action>)
    ensures Inv(RunFrom(Init(), actions))
  {
    hide RunFrom, Next;
    assert Inv(Init());
    hide Inv, Init;
    RunKeeps(Init(), actions);
  }

  // ---- Results ----

  /** In every run a token row makes at most one agent row, whoever claims it in whatever way. */
  lemma OneAgentPerToken(actions: seq<Action>, a: string, b: string)
    requires var db := RunFrom(Init(), actions).db;
      a in db.agents && b in db.agents && db.agents[a].serial == db.agents[b].serial
    ensures a == b
  {
    Reachable(actions);
  }

  /** In every run, and from any point of it on, credentials that an agent has saved authenticate as the agent they
      name, and as no other. */
  lemma SavedAuthenticates(actions: seq<Action>, more: seq<Action>, who: nat, id: string)
    requires var s := RunFrom(Init(), actions); who in s.agents && s.agents[who].saved.Some?
    ensures var credentials := RunFrom(Init(), actions).agents[who].saved.value;
      AuthenticatesAs(RunFrom(RunFrom(Init(), actions), more).db, credentials.token, id) <==> id == credentials.clientId
  {
    hide RunFrom, AgentOk;
    Reachable(actions);
    RunKeeps(RunFrom(Init(), actions), more);
  }

  /** All of an agent's claims, over crashes, retries and different enrollment tokens, are one claim and make at most
      one agent row. */
  lemma OneAgentPerClaimant(actions: seq<Action>, who: nat, c: Credentials, d: Credentials, a: string, b: string)
    requires var s := RunFrom(Init(), actions);
      && who in s.agents && c in s.agents[who].sent && d in s.agents[who].sent
      && AuthenticatesAs(s.db, c.token, a) && AuthenticatesAs(s.db, d.token, b)
    ensures c == d && a == b
  {
    Reachable(actions);
  }

  /** Asking again with the same claim gives the same agent and changes nothing, even after the token expired, as
      long as the token row is there. */
  lemma RetryGivesSameAgent(actions: seq<Action>, request: Request, newId: string, now: int, more: seq<Action>,
                            newId': string, now': int)
    requires newId != "" && newId' != ""
    requires Claim(RunFrom(Init(), actions).db, request, newId, now).1.Ok?
    requires var before := RunFrom(Init(), actions);
      var claimed := Next(before, CallServer(ClaimToken(request, newId, now)));
      var later := RunFrom(claimed, more);
      HashOf(request.token) in later.db.tokens
      && later.db.tokens[HashOf(request.token)].serial == before.db.tokens[HashOf(request.token)].serial
    ensures var before := RunFrom(Init(), actions);
      var claimed := Next(before, CallServer(ClaimToken(request, newId, now)));
      var later := RunFrom(claimed, more);
      Claim(later.db, request, newId', now') == (later.db, Claim(before.db, request, newId, now).1)
  {
    hide RunFrom, TrimSpace, WellFormed, HashTaken, AgentOk;
    var before := RunFrom(Init(), actions);
    Reachable(actions);
    NextKeeps(before, CallServer(ClaimToken(request, newId, now)));
    var claimed := Next(before, CallServer(ClaimToken(request, newId, now)));
    RunKeeps(claimed, more);
  }

  /** An agent whose claim was answered, by a message it may never get, has its credentials or can still ask again. */
  lemma WinnerCanRecover(actions: seq<Action>, who: nat, claim: Credentials)
    requires var s := RunFrom(Init(), actions); who in s.agents && claim in s.agents[who].sent
    ensures var a := RunFrom(Init(), actions).agents[who];
      if a.saved.Some? then a.saved.value.token == claim.token else a.pending == Some(claim)
  {
    Reachable(actions);
  }

  // ---- An undisturbed enrollment ----

  function Taken(s: System, who: nat, steps: seq<Step>): System {
    if steps == [] then s
    else Next(Taken(s, who, steps[..|steps| - 1]), AgentStep(who, steps[|steps| - 1]))
  }

  /** From a stopped agent to a sent claim: the pending one, or a new one. */
  lemma SendsClaim(s: System, who: nat, claim: Credentials)
    requires var a := AgentOf(s, who);
      a.phase.Stopped? && a.saved.None? && (a.pending.None? || a.pending == Some(claim))
    requires IsClaimValue(claim.clientId) && IsClaimValue(claim.token)
    ensures var sent := Taken(s, who, [Launch, UsePending, DrawClaim(claim), SavePending, Send]);
      && sent.db == s.db && sent.answers == s.answers
      && AgentOf(sent, who).phase == Waiting(claim) && AgentOf(sent, who).saved.None?
      && AgentOf(sent, who).pending == Some(claim)
  {
    hide IsClaimValue;
    var s1 := Next(s, AgentStep(who, Launch));
    var s2 := Next(s1, AgentStep(who, UsePending));
    var s3 := Next(s2, AgentStep(who, DrawClaim(claim)));
    var s4 := Next(s3, AgentStep(who, SavePending));
    TakenOne(s, who, Launch);
    TakenMore(s, who, [Launch], UsePending);
    TakenMore(s, who, [Launch, UsePending], DrawClaim(claim));
    TakenMore(s, who, [Launch, UsePending, DrawClaim(claim)], SavePending);
    TakenMore(s, who, [Launch, UsePending, DrawClaim(claim), SavePending], Send);
    hide Taken;
    assert [Launch, UsePending] == [Launch] + [UsePending];
    assert [Launch, UsePending, DrawClaim(claim)] == [Launch, UsePending] + [DrawClaim(claim)];
    assert [Launch, UsePending, DrawClaim(claim), SavePending] == [Launch, UsePending, DrawClaim(claim)] + [SavePending];
    assert [Launch, UsePending, DrawClaim(claim), SavePending, Send]
        == [Launch, UsePending, DrawClaim(claim), SavePending] + [Send];
  }

  lemma TakenOne(s: System, who: nat, step: Step)
    ensures Taken(s, who, [step]) == Next(s, AgentStep(who, step))
  {
    assert [step][..0] == [];
  }

  lemma TakenMore(s: System, who: nat, steps: seq<Step>, step: Step)
    ensures Taken(s, who, steps + [step]) == Next(Taken(s, who, steps), AgentStep(who, step))
  {
    assert (steps + [step])[..|steps|] == steps;
  }

  /** From an answer to saved credentials. */
  lemma SavesAnswer(s: System, who: nat, answer: Answer)
    requires AgentOf(s, who).phase == Waiting(answer.claim) && answer in s.answers
    ensures var done := Taken(s, who, [Receive(answer), Save, RemovePending]);
      AgentOf(done, who).saved == Some(Credentials(answer.agentId, answer.claim.token)) && AgentOf(done, who).phase.Running?
  {
    TakenOne(s, who, Receive(answer));
    TakenMore(s, who, [Receive(answer)], Save);
    TakenMore(s, who, [Receive(answer), Save], RemovePending);
    hide Taken;
    assert [Receive(answer), Save, RemovePending] == [Receive(answer), Save] + [RemovePending];
    assert [Receive(answer), Save] == [Receive(answer)] + [Save];
  }

  // ---- Which claims the server honours ----

  /** The agent row that has the request's token, if any, was made by this very claim of the token row; if there is none,
      the token row is fresh. */
  ghost predicate Honours(db: Db, request: Request, now: int) {
    var r := Cleaned(request);
    && WellFormed(r) && HashOf(r.token) in db.tokens
    && var row := db.tokens[HashOf(r.token)];
       if id :| AuthenticatesAs(db, r.agentToken, id) then
         row.agentId == id && row.requestId == r.requestId && db.agents[id].name == r.name
       else !row.used && now < row.expiresAt
  }

  /** In every reachable database a claim is honoured exactly under that condition, whatever row a used token row made. */
  lemma HonouredIff(actions: seq<Action>, request: Request, newId: string, now: int)
    requires newId != "" && newId !in RunFrom(Init(), actions).db.agents
    ensures var db := RunFrom(Init(), actions).db;
      Claim(db, request, newId, now).1.Ok? <==> Honours(db, request, now)
    ensures var db := RunFrom(Init(), actions).db;
      Claim(db, request, newId, now).1.Ok? ==>
        forall id :: AuthenticatesAs(db, Cleaned(request).agentToken, id) ==> Claim(db, request, newId, now).1.value == id
  {
    hide RunFrom, TrimSpace, WellFormed, AgentOk;
    var db, r := RunFrom(Init(), actions).db, Cleaned(request);
    Reachable(actions);
    TakenIsAuthenticated(db, r.agentToken);
    forall a, b | AuthenticatesAs(db, r.agentToken, a) && AuthenticatesAs(db, r.agentToken, b) ensures a == b {}
  }

  lemma TakenIsAuthenticated(db: Db, token: string)
    ensures HashTaken(db.agents, HashOf(token)) <==> exists id :: AuthenticatesAs(db, token, id)
  {
    if HashTaken(db.agents, HashOf(token)) {
      var id :| id in db.agents && db.agents[id].tokenHash == HashOf(token);
      assert AuthenticatesAs(db, token, id);
    }
  }

  /** A claim that has won, and whose token row is gone, is refused from then on, under every enrollment token: the agent
      can only be enrolled again by removing its pending file. */
  lemma RevokedWinnerIsRefused(actions: seq<Action>, more: seq<Action>, id: string, request: Request, newId: string, now: int)
    requires var db := RunFrom(Init(), actions).db;
      && AuthenticatesAs(db, Cleaned(request).agentToken, id)
      && forall h :: h in db.tokens ==> db.tokens[h].serial != db.agents[id].serial
    requires newId != ""
    ensures var db := RunFrom(RunFrom(Init(), actions), more).db;
      Claim(db, request, newId, now) == (db, Claim(db, request, newId, now).1) && Claim(db, request, newId, now).1.Err?
  {
    hide RunFrom, TrimSpace, WellFormed, AgentOk;
    var s, r := RunFrom(Init(), actions), Cleaned(request);
    Reachable(actions);
    RunKeeps(s, more);
    var db := RunFrom(s, more).db;
    assert AuthenticatesAs(db, r.agentToken, id);
    assert HashTaken(db.agents, HashOf(r.agentToken));
    forall h | h in db.tokens ensures db.tokens[h].serial != db.agents[id].serial {
      assert s.db.agents[id].serial < s.db.serials;
    }
  }

  /** An undisturbed agent whose claim is honoured ends up with the credentials of the agent row that the claim has,
      whether it is the first attempt or one after any crash. */
  lemma UndisturbedEnrolls(actions: seq<Action>, who: nat, request: Request, newId: string, now: int)
    requires var s := RunFrom(Init(), actions);
      var a, claim := AgentOf(s, who), Credentials(request.requestId, request.agentToken);
      && a.phase.Stopped? && a.saved.None? && (a.pending.None? || a.pending == Some(claim))
      && newId != "" && newId !in s.db.agents && Honours(s.db, request, now)
    requires IsClaimValue(request.requestId) && IsClaimValue(request.agentToken)
    ensures var s, claim := RunFrom(Init(), actions), Credentials(request.requestId, request.agentToken);
      var sent := Taken(s, who, [Launch, UsePending, DrawClaim(claim), SavePending, Send]);
      var served := Next(sent, CallServer(ClaimToken(request, newId, now)));
      exists id ::
        var done := Taken(served, who, [Receive(Answer(claim, id)), Save, RemovePending]);
        && AuthenticatesAs(done.db, request.agentToken, id)
        && AgentOf(done, who).saved == Some(Credentials(id, request.agentToken)) && AgentOf(done, who).phase.Running?
  {
    hide RunFrom, Taken, Claim, TrimSpace, Honours, Served;
    var s := RunFrom(Init(), actions);
    HonouredIff(actions, request, newId, now);
    AnsweredEnrolls(s, who, request, newId, now);
    var claim, id := Credentials(request.requestId, request.agentToken), Claim(s.db, request, newId, now).1.value;
    var sent := Taken(s, who, [Launch, UsePending, DrawClaim(claim), SavePending, Send]);
    var served := Next(sent, CallServer(ClaimToken(request, newId, now)));
    SendsClaim(s, who, claim);
    Reachable(actions);
    ClaimValueTrimmed(request.agentToken);
    OkAuthenticates(s.db, request, newId, now);
    TakenKeepsDb(served, who, [Receive(Answer(claim, id)), Save, RemovePending]);
    ServedClaim(sent, request, newId, now);
  }

  lemma ServedClaim(s: System, request: Request, newId: string, now: int)
    requires newId != ""
    ensures Next(s, CallServer(ClaimToken(request, newId, now))).db == Claim(s.db, request, newId, now).0
  {
    hide Claim;
  }

  lemma OkAuthenticates(db: Db, request: Request, newId: string, now: int)
    requires newId != "" && Claim(db, request, newId, now).1.Ok?
    ensures AuthenticatesAs(Claim(db, request, newId, now).0, Cleaned(request).agentToken, Claim(db, request, newId, now).1.value)
  {
    hide TrimSpace, WellFormed, HashTaken;
  }

  lemma {:induction false} TakenKeepsDb(s: System, who: nat, steps: seq<Step>)
    ensures Taken(s, who, steps).db == s.db
  {
    hide AgentNext;
    if steps != [] { TakenKeepsDb(s, who, steps[..|steps| - 1]); }
  }

  /** From a stopped agent to saved credentials, when the server answers. */
  lemma AnsweredEnrolls(s: System, who: nat, request: Request, newId: string, now: int)
    requires var a, claim := AgentOf(s, who), Credentials(request.requestId, request.agentToken);
      a.phase.Stopped? && a.saved.None? && (a.pending.None? || a.pending == Some(claim))
    requires IsClaimValue(request.requestId) && IsClaimValue(request.agentToken)
    requires newId != "" && Claim(s.db, request, newId, now).1.Ok?
    ensures var claim, id := Credentials(request.requestId, request.agentToken), Claim(s.db, request, newId, now).1.value;
      var sent := Taken(s, who, [Launch, UsePending, DrawClaim(claim), SavePending, Send]);
      var served := Next(sent, CallServer(ClaimToken(request, newId, now)));
      var done := Taken(served, who, [Receive(Answer(claim, id)), Save, RemovePending]);
      AgentOf(done, who).saved == Some(Credentials(id, request.agentToken)) && AgentOf(done, who).phase.Running?
  {
    hide Taken, Claim, TrimSpace;
    var claim, id := Credentials(request.requestId, request.agentToken), Claim(s.db, request, newId, now).1.value;
    SendsClaim(s, who, claim);
    var sent := Taken(s, who, [Launch, UsePending, DrawClaim(claim), SavePending, Send]);
    ClaimValueTrimmed(request.requestId);
    ClaimValueTrimmed(request.agentToken);
    hide IsClaimValue;
    var served := Next(sent, CallServer(ClaimToken(request, newId, now)));
    assert Answer(claim, id) in served.answers;
    assert AgentOf(served, who) == AgentOf(sent, who);
    SavesAnswer(served, who, Answer(claim, id));
  }

  lemma ClaimValueTrimmed(v: string)
    requires IsClaimValue(v)
    ensures TrimSpace(v) == v
  {
    assert v[0] in v && v[|v| - 1] in v;
  }

  // ---- The agent's own program ----

  function RunAgent(a: Agent, steps: seq<Step>): Agent {
    if steps == [] then a else AgentNext(RunAgent(a, steps[..|steps| - 1]), steps[|steps| - 1])
  }

  lemma RunAgentAppends(a: Agent, steps: seq<Step>, step: Step)
    ensures RunAgent(a, steps + [step]) == AgentNext(RunAgent(a, steps), step)
  {
    assert (steps + [step])[..|steps|] == steps;
  }

  lemma RunAgentStarts(a: Agent, step: Step)
    ensures RunAgent(a, [step]) == AgentNext(a, step)
  {
    assert [step][..0] == [];
  }

  /** An agent's two credential files, and the process that uses them. */
  class Process {
    var saved: Option<Credentials>
    var pending: Option<Credentials>
    ghost var phase: Phase
    ghost var sent: set<Credentials>
    /** Whether the process has ever died under way. */
    ghost var died: bool

    constructor ()
      ensures Current() == Agent(None, None, Stopped, {}) && !died
    {
      saved, pending, phase, sent, died := None, None, Stopped, {}, false;
    }

    ghost function Current(): Agent
      reads this
    {
      Agent(saved, pending, phase, sent)
    }

    /** A point at which the process may die. */
    method Lives() returns (alive: bool)
      modifies this`died
      ensures died == (old(died) || !alive)
    {
      alive := *;
      if !alive { died := true; }
    }

    /** Resolving credentials. `draw` is a fresh claim should one be needed; `reply` is the agent in the server's
        answer, or None for any failure of the request. The process may die anywhere, which the caller sees as None;
        `steps` are the steps it took. */
    method ResolveCredentials(draw: Credentials, reply: Option<string>)
      returns (result: Option<Credentials>, ghost steps: seq<Step>)
      requires phase.Stopped?
      requires IsClaimValue(draw.clientId) && IsClaimValue(draw.token)
      modifies this
      ensures Current() == RunAgent(old(Current()), steps)
      ensures result.Some? ==> saved == result
      ensures !died && old(saved).Some? ==> result == old(saved)
      ensures !died && old(saved).None? ==>
        var claim := if old(pending).Some? then old(pending).value else draw;
        && claim in sent && pending == (if reply.Some? then None else Some(claim))
        && result == if reply.Some? then Some(Credentials(reply.value, claim.token)) else None
      ensures old(saved).Some? ==> saved == old(saved)
      ensures sent != old(sent) ==>
        old(saved).None? && sent == old(sent) + {if old(pending).Some? then old(pending).value else draw}
    {
      hide IsClaimValue, RunAgent;
      ghost var start := Current();
      RunAgentStarts(start, Launch);
      steps, phase := [Launch], Resolving;
      var alive := Lives();
      if !alive { return None, steps; }
      if saved.Some? {
        RunAgentAppends(start, steps, UseSaved);
        steps, phase := steps + [UseSaved], Saved(saved.value);
        var removed: bool := *;
        if removed {
          RunAgentAppends(start, steps, RemovePending);
          pending, steps, phase := None, steps + [RemovePending], Running(saved.value);
        }
        return saved, steps;
      }
      var claim := draw;
      if pending.Some? {
        claim := pending.value;
        RunAgentAppends(start, steps, UsePending);
        steps, phase := steps + [UsePending], Ready(claim);
      } else {
        RunAgentAppends(start, steps, DrawClaim(draw));
        steps, phase := steps + [DrawClaim(draw)], Drawn(draw);
        alive := Lives();
        if !alive { return None, steps; }
        RunAgentAppends(start, steps, SavePending);
        pending, steps, phase := Some(claim), steps + [SavePending], Ready(claim);
      }
      result, steps := SendClaim(claim, reply, start, steps);
    }

    /** From a claim that is pending to saved credentials. */
    method SendClaim(claim: Credentials, reply: Option<string>, ghost start: Agent, ghost before: seq<Step>)
      returns (result: Option<Credentials>, ghost steps: seq<Step>)
      requires saved.None? && pending == Some(claim) && phase == Ready(claim) && Current() == RunAgent(start, before)
      modifies this
      ensures Current() == RunAgent(start, steps)
      ensures result.Some? ==> saved == result
      ensures sent == old(sent) || sent == old(sent) + {claim}
      ensures old(died) ==> died
      ensures !died ==>
        && claim in sent && pending == (if reply.Some? then None else Some(claim))
        && result == if reply.Some? then Some(Credentials(reply.value, claim.token)) else None
    {
      hide IsClaimValue, RunAgent;
      steps := before;
      var alive := Lives();
      if !alive { return None, steps; }
      RunAgentAppends(start, steps, Send);
      sent, steps, phase := sent + {claim}, steps + [Send], Waiting(claim);
      alive := Lives();
      if !alive || reply.None? { return None, steps; }
      var answer := Answer(claim, reply.value);
      var credentials := Credentials(reply.value, claim.token);
      RunAgentAppends(start, steps, Receive(answer));
      steps, phase := steps + [Receive(answer)], Answered(claim, credentials);
      alive := Lives();
      if !alive { return None, steps; }
      RunAgentAppends(start, steps, Save);
      saved, steps, phase := Some(credentials), steps + [Save], Saved(credentials);
      alive := Lives();
      if !alive { return None, steps; }
      RunAgentAppends(start, steps, RemovePending);
      pending, steps, phase := None, steps + [RemovePending], Running(credentials);
      return saved, steps;
    }
  }
}
