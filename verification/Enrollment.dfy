/** Enrollment tokens and agent rows on the server (internal/store/store.go, internal/store/lists.go). */
module Enrollment {
  import opened Results
  import opened Text

  /** The stored hash of a secret; hashing is taken to be injective. */
  datatype Hash = HashOf(secret: string)

  /** Serial numbers are not stored: they tell a token row from a later one for the same token. */
  datatype TokenRow = TokenRow(expiresAt: int, used: bool, requestId: string, agentId: string, serial: nat)

  /** `serial` remembers the token row that the agent row was created with. */
  datatype AgentRow = AgentRow(name: string, tokenHash: Hash, serial: nat)

  datatype Db = Db(tokens: map<Hash, TokenRow>, agents: map<string, AgentRow>, serials: nat)

  datatype ClaimError = InvalidToken | Internal

  datatype Request = Request(token: string, name: string, requestId: string, agentToken: string)

  predicate IsNameChar(c: char) { 'A' <= c <= 'Z' || 'a' <= c <= 'z' || '0' <= c <= '9' }

  predicate ValidAgentName(name: string) {
    && 1 <= |name| <= 64 && IsNameChar(name[0])
    && forall c :: c in name ==> IsNameChar(c) || c in "._-"
  }

  predicate IsHex(s: string) {
    forall c :: c in s ==> '0' <= c <= '9' || 'a' <= c <= 'f' || 'A' <= c <= 'F'
  }

  /** A request identity or an agent token as clients draw them. */
  predicate IsClaimValue(s: string) { |s| == 64 && IsHex(s) }

  predicate HashTaken(agents: map<string, AgentRow>, h: Hash) {
    exists id :: id in agents && agents[id].tokenHash == h
  }

  /** Inserting an agent row fails on a taken id or token hash. */
  predicate Insertable(agents: map<string, AgentRow>, id: string, h: Hash) {
    id !in agents && !HashTaken(agents, h)
  }

  /** A request with the values that the store trims trimmed. */
  function Cleaned(r: Request): Request {
    r.(name := TrimSpace(r.name), requestId := TrimSpace(r.requestId), agentToken := TrimSpace(r.agentToken))
  }

  predicate WellFormed(r: Request) {
    r.token != "" && ValidAgentName(r.name) && IsClaimValue(r.requestId) && IsClaimValue(r.agentToken)
  }

  /** A used row answers its own claim, and no other. */
  predicate IsClaimOf(row: TokenRow, agents: map<string, AgentRow>, r: Request) {
    && row.used && row.requestId == r.requestId && row.agentId != "" && row.agentId in agents
    && agents[row.agentId].name == r.name && agents[row.agentId].tokenHash == HashOf(r.agentToken)
  }

  function Claim(db: Db, request: Request, newId: string, now: int): (Db, Result<string, ClaimError>)
    requires newId != ""
  {
    var r := Cleaned(request);
    var h := HashOf(r.token);
    if !WellFormed(r) || h !in db.tokens then (db, Err(InvalidToken))
    else
      var row := db.tokens[h];
      if row.used then (db, if IsClaimOf(row, db.agents, r) then Ok(row.agentId) else Err(InvalidToken))
      else if row.expiresAt <= now then (db, Err(InvalidToken))
      else if !Insertable(db.agents, newId, HashOf(r.agentToken)) then (db, Err(Internal))
      else
        (db.(tokens := db.tokens[h := row.(used := true, requestId := r.requestId, agentId := newId)],
             agents := db.agents[newId := AgentRow(r.name, HashOf(r.agentToken), row.serial)]),
         Ok(newId))
  }

  /** The enrollment without a claim: the server draws the agent's token. */
  function Consume(db: Db, token: string, agentName: string, newId: string, apiToken: string, now: int)
    : (Db, Result<string, ClaimError>)
    requires newId != ""
  {
    var name := TrimSpace(agentName);
    var h := HashOf(token);
    if token == "" || !ValidAgentName(name) || h !in db.tokens then (db, Err(InvalidToken))
    else if db.tokens[h].used || db.tokens[h].expiresAt <= now then (db, Err(InvalidToken))
    else if !Insertable(db.agents, newId, HashOf(apiToken)) then (db, Err(Internal))
    else
      (db.(tokens := db.tokens[h := db.tokens[h].(used := true)],
           agents := db.agents[newId := AgentRow(name, HashOf(apiToken), db.tokens[h].serial)]),
       Ok(newId))
  }

  /** Creating a token fails when a row for it exists. */
  function Issue(db: Db, token: string, expiresAt: int, now: int): Db {
    if TrimSpace(token) == "" || expiresAt <= now || HashOf(token) in db.tokens then db
    else db.(tokens := db.tokens[HashOf(token) := TokenRow(expiresAt, false, "", "", db.serials)], serials := db.serials + 1)
  }

  /** Deleting removes the rows of every hash with the given beginning. */
  function Revoke(db: Db, hashes: set<Hash>): Db { db.(tokens := db.tokens - hashes) }

  predicate AuthenticatesAs(db: Db, token: string, id: string) {
    id in db.agents && db.agents[id].tokenHash == HashOf(token)
  }

  // ---- The store ----

  class Store {
    var tokens: map<Hash, TokenRow>
    var agents: map<string, AgentRow>
    ghost var serials: nat

    constructor ()
      ensures Current() == Db(map[], map[], 0)
    {
      tokens, agents, serials := map[], map[], 0;
    }

    ghost function Current(): Db
      reads this
    {
      Db(tokens, agents, serials)
    }

    /** Reads the row, then inserts the agent, then marks the token: a failure on the way takes everything back. */
    method ClaimEnrollmentToken(request: Request, newId: string, now: int) returns (result: Result<string, ClaimError>)
      requires newId != ""
      modifies this
      ensures (Current(), result) == Claim(old(Current()), request, newId, now)
    {
      hide TrimSpace, ValidAgentName, IsClaimValue, HashTaken;
      var name, requestId, agentToken := TrimSpace(request.name), TrimSpace(request.requestId), TrimSpace(request.agentToken);
      if request.token == "" || !ValidAgentName(name) || !IsClaimValue(requestId) || !IsClaimValue(agentToken) {
        return Err(InvalidToken);
      }
      var h := HashOf(request.token);
      if h !in tokens { return Err(InvalidToken); }
      var row := tokens[h];
      if row.used {
        if row.requestId != requestId || row.agentId == "" { return Err(InvalidToken); }
        if row.agentId !in agents { return Err(InvalidToken); }
        var agent := agents[row.agentId];
        if agent.name != name || agent.tokenHash != HashOf(agentToken) { return Err(InvalidToken); }
        return Ok(row.agentId);
      }
      if row.expiresAt <= now { return Err(InvalidToken); }
      if !Insertable(agents, newId, HashOf(agentToken)) { return Err(Internal); }
      agents := agents[newId := AgentRow(name, HashOf(agentToken), row.serial)];
      tokens := tokens[h := row.(used := true, requestId := requestId, agentId := newId)];
      return Ok(newId);
    }

    /** Marks the token first; a failing insert takes the mark back. */
    method ConsumeEnrollmentToken(token: string, agentName: string, newId: string, apiToken: string, now: int)
      returns (result: Result<string, ClaimError>)
      requires newId != ""
      modifies this
      ensures (Current(), result) == Consume(old(Current()), token, agentName, newId, apiToken, now)
    {
      hide TrimSpace, ValidAgentName, HashTaken;
      var name, h := TrimSpace(agentName), HashOf(token);
      if token == "" || !ValidAgentName(name) { return Err(InvalidToken); }
      var before := tokens;
      if h !in tokens || tokens[h].used || tokens[h].expiresAt <= now { return Err(InvalidToken); }
      tokens := tokens[h := tokens[h].(used := true)];
      if !Insertable(agents, newId, HashOf(apiToken)) {
        tokens := before;
        return Err(Internal);
      }
      agents := agents[newId := AgentRow(name, HashOf(apiToken), tokens[h].serial)];
      return Ok(newId);
    }
  }

  // ---- What every reachable database satisfies ----

  /** Token hashes are unique, no token row made two agents, and a claimed row knows the agent it made. */
  ghost predicate DbOk(db: Db) {
    && "" !in db.agents
    && (forall a, b :: a in db.agents && b in db.agents && a != b ==>
          db.agents[a].tokenHash != db.agents[b].tokenHash && db.agents[a].serial != db.agents[b].serial)
    && (forall a :: a in db.agents ==> db.agents[a].serial < db.serials)
    && (forall h :: h in db.tokens ==> db.tokens[h].serial < db.serials)
    && (forall g, h :: g in db.tokens && h in db.tokens && g != h ==> db.tokens[g].serial != db.tokens[h].serial)
    && (forall h, a :: h in db.tokens && a in db.agents && db.agents[a].serial == db.tokens[h].serial ==>
          db.tokens[h].used && (db.tokens[h].agentId != "" ==> db.tokens[h].agentId == a))
    && (forall h :: h in db.tokens && db.tokens[h].agentId != "" ==>
          && db.tokens[h].used && db.tokens[h].agentId in db.agents
          && db.agents[db.tokens[h].agentId].serial == db.tokens[h].serial)
  }

  datatype Call =
    | IssueToken(token: string, expiresAt: int, now: int)
    | ClaimToken(request: Request, newId: string, now: int)
    | ConsumeToken(token: string, agentName: string, newId: string, apiToken: string, now: int)
    | RevokeTokens(hashes: set<Hash>)

  function Served(db: Db, c: Call): (Db, Option<Result<string, ClaimError>>) {
    match c
    case IssueToken(token, expiresAt, now) => (Issue(db, token, expiresAt, now), None)
    case ClaimToken(request, newId, now) =>
      if newId == "" then (db, None)
      else var (db', result) := Claim(db, request, newId, now); (db', Some(result))
    case ConsumeToken(token, name, newId, apiToken, now) =>
      if newId == "" then (db, None)
      else var (db', result) := Consume(db, token, name, newId, apiToken, now); (db', Some(result))
    case RevokeTokens(hashes) => (Revoke(db, hashes), None)
  }

  lemma ClaimKeeps(db: Db, request: Request, newId: string, now: int)
    requires DbOk(db) && newId != ""
    ensures DbOk(Claim(db, request, newId, now).0)
  {
    hide TrimSpace, WellFormed;
  }

  lemma ConsumeKeeps(db: Db, token: string, agentName: string, newId: string, apiToken: string, now: int)
    requires DbOk(db) && newId != ""
    ensures DbOk(Consume(db, token, agentName, newId, apiToken, now).0)
  {
    hide TrimSpace, ValidAgentName;
  }

  lemma IssueKeeps(db: Db, token: string, expiresAt: int, now: int)
    requires DbOk(db)
    ensures DbOk(Issue(db, token, expiresAt, now))
  {
    hide TrimSpace;
  }

  lemma ServedKeeps(db: Db, c: Call)
    requires DbOk(db)
    ensures DbOk(Served(db, c).0)
  {
    hide Claim, Consume, Issue, DbOk;
    match c
    case IssueToken(token, expiresAt, now) => IssueKeeps(db, token, expiresAt, now);
    case ClaimToken(request, newId, now) => if newId != "" { ClaimKeeps(db, request, newId, now); }
    case ConsumeToken(token, name, newId, apiToken, now) =>
      if newId != "" { ConsumeKeeps(db, token, name, newId, apiToken, now); }
    case RevokeTokens(hashes) => RevokeKeeps(db, hashes);
  }

  lemma RevokeKeeps(db: Db, hashes: set<Hash>)
    requires DbOk(db)
    ensures DbOk(Revoke(db, hashes))
  {}

  // ---- Exactly what a token is good for ----

  /** An enrollment without a claim succeeds if and only if the token's row is there, unused and unexpired, the name is
      valid, and neither the agent's id nor its token is taken. */
  lemma ConsumeIff(db: Db, token: string, agentName: string, newId: string, apiToken: string, now: int)
    requires newId != ""
    ensures var (db', result) := Consume(db, token, agentName, newId, apiToken, now);
      && (result.Ok? <==>
            && token != "" && HashOf(token) in db.tokens && !db.tokens[HashOf(token)].used
            && now < db.tokens[HashOf(token)].expiresAt && ValidAgentName(TrimSpace(agentName))
            && newId !in db.agents && forall id :: id in db.agents ==> !AuthenticatesAs(db, apiToken, id))
      && (result.Ok? ==>
            && result.value == newId && AuthenticatesAs(db', apiToken, newId)
            && db'.agents.Keys == db.agents.Keys + {newId} && db'.tokens.Keys == db.tokens.Keys
            && HashOf(token) in db'.tokens && db'.tokens[HashOf(token)].used)
      && (result.Err? ==> db' == db)
  {
    hide TrimSpace, ValidAgentName;
  }

  /** A token is created if and only if it is not blank, expires later, and has no row yet. */
  lemma IssueIff(db: Db, token: string, expiresAt: int, now: int)
    ensures TrimSpace(token) != "" && now < expiresAt && HashOf(token) !in db.tokens <==> Issue(db, token, expiresAt, now) != db
    ensures Issue(db, token, expiresAt, now) != db ==>
      var row := Issue(db, token, expiresAt, now).tokens[HashOf(token)]; !row.used && row.expiresAt == expiresAt
  {
    hide TrimSpace;
    var issued := Issue(db, token, expiresAt, now);
    if issued != db { assert HashOf(token) in issued.tokens; }
    assert db.tokens[HashOf(token) := TokenRow(expiresAt, false, "", "", db.serials)] != db.tokens || HashOf(token) in db.tokens;
  }

  /** A new token can be spent until it expires, once: by a claim of a new agent, or without one. */
  lemma IssuedCanBeSpent(db: Db, token: string, expiresAt: int, now: int, request: Request, newId: string, later: int)
    requires DbOk(db) && TrimSpace(token) != "" && now < expiresAt && HashOf(token) !in db.tokens
    requires newId != "" && newId !in db.agents && request.token == token && WellFormed(Cleaned(request))
    requires forall id :: id in db.agents ==> !AuthenticatesAs(db, Cleaned(request).agentToken, id)
    ensures var issued := Issue(db, token, expiresAt, now);
      && issued.agents == db.agents && HashOf(token) in issued.tokens
      && (forall h :: h in db.tokens ==> h in issued.tokens && issued.tokens[h] == db.tokens[h])
      && var (spent, result) := Claim(issued, request, newId, later);
         && (result.Ok? <==> later < expiresAt)
         && (result.Ok? ==> result.value == newId && AuthenticatesAs(spent, Cleaned(request).agentToken, newId))
         && (result.Ok? ==> HashOf(token) in spent.tokens && spent.tokens[HashOf(token)].used)
  {
    hide TrimSpace, WellFormed;
  }

  /** A revoked token is good for nothing, and revoking it takes nothing else away. */
  lemma RevokedIsGone(db: Db, hashes: set<Hash>, token: string, agentName: string, newId: string, apiToken: string, now: int)
    requires HashOf(token) in hashes && newId != ""
    ensures var revoked := Revoke(db, hashes);
      && Consume(revoked, token, agentName, newId, apiToken, now) == (revoked, Err(InvalidToken))
      && revoked.agents == db.agents
      && forall h :: h in db.tokens && h !in hashes ==> h in revoked.tokens && revoked.tokens[h] == db.tokens[h]
  {
    hide TrimSpace, ValidAgentName;
  }
}
