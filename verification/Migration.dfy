/** The upgrade of the routes table to separate HTTP and HTTPS routes, one statement at a time, with a crash after any of
    them (internal/store/store.go). */
module Migration {
  import opened Results
  import opened Routes

  datatype Row = Row(protocol: Protocol, domain: string, publicPort: int, pathPrefix: string)

  /** The marker of the upgrade, the columns and indexes it is about, and the rows. A row without a path prefix column
      has the column's default. */
  datatype Db = Db(
    marked: bool, pathPrefix: bool, stripPath: bool,
    httpDomain: bool, publicPort: bool, webEndpoint: bool, streamPort: bool,
    rows: map<string, Row>)

  datatype Statement =
    | AddPathPrefix | AddStripPath | RewriteHttp | DropHttpDomain | DropPublicPort
    | CreateWebEndpoint | CreateStreamPort | Mark

  // ---- Constraints ----

  predicate SameWebEndpoint(a: Row, b: Row) {
    a.protocol.IsWeb() && a == b
  }

  predicate SameStreamPort(a: Row, b: Row) {
    a.protocol.IsStream() && b.protocol.IsStream() && a.publicPort > 0 && a.publicPort == b.publicPort
  }

  predicate WebEndpointsUnique(rows: map<string, Row>) {
    forall i, j :: i in rows && j in rows && i != j ==> !SameWebEndpoint(rows[i], rows[j])
  }

  predicate StreamPortsUnique(rows: map<string, Row>) {
    forall i, j :: i in rows && j in rows && i != j ==> !SameStreamPort(rows[i], rows[j])
  }

  /** What the old index on the domains of HTTP routes enforced. */
  predicate HttpDomainsUnique(rows: map<string, Row>) {
    forall i, j :: i in rows && j in rows && i != j && rows[i].protocol.HTTP? && rows[j].protocol.HTTP? ==>
      rows[i].domain != rows[j].domain
  }

  // ---- The upgrade ----

  function RowRewritten(r: Row): Row { if r.protocol.HTTP? then r.(protocol := HTTPS) else r }

  function Rewritten(rows: map<string, Row>): map<string, Row> {
    map id | id in rows :: RowRewritten(rows[id])
  }

  /** A statement; creating a unique index over rows that violate it fails. */
  function Exec(db: Db, st: Statement): Option<Db> {
    match st
    case AddPathPrefix => if db.pathPrefix then None else Some(db.(pathPrefix := true))
    case AddStripPath => if db.stripPath then None else Some(db.(stripPath := true))
    case RewriteHttp => Some(db.(rows := Rewritten(db.rows)))
    case DropHttpDomain => Some(db.(httpDomain := false))
    case DropPublicPort => Some(db.(publicPort := false))
    case CreateWebEndpoint => if WebEndpointsUnique(db.rows) then Some(db.(webEndpoint := true)) else None
    case CreateStreamPort => if StreamPortsUnique(db.rows) then Some(db.(streamPort := true)) else None
    case Mark => Some(db.(marked := true))
  }

  /** What an attempt reads of the schema before it changes anything. */
  datatype Found = Found(pathPrefix: bool, stripPath: bool, httpDomain: bool)

  const LAST := 8

  /** The statement at a place of the program, unless it is skipped. */
  function StatementAt(pc: nat, found: Found): Option<Statement> {
    match pc
    case 0 => if found.pathPrefix then None else Some(AddPathPrefix)
    case 1 => if found.stripPath then None else Some(AddStripPath)
    case 2 => if found.httpDomain then Some(RewriteHttp) else None
    case 3 => if found.httpDomain then Some(DropHttpDomain) else None
    case 4 => Some(DropPublicPort)
    case 5 => Some(CreateWebEndpoint)
    case 6 => Some(CreateStreamPort)
    case _ => Some(Mark)
  }

  datatype Outcome = Done | Crashed | Failed

  /** Issues the statements from a place on until they are through, one fails, or the process dies after `budget` of
      them. */
  function Issue(db: Db, pc: nat, found: Found, budget: nat): (Db, Outcome)
    requires pc <= LAST
    decreases LAST - pc
  {
    if pc == LAST then (db, Done)
    else
      match StatementAt(pc, found)
      case None => Issue(db, pc + 1, found, budget)
      case Some(st) =>
        if budget == 0 then (db, Crashed)
        else
          match Exec(db, st)
          case None => (db, Failed)
          case Some(next) => Issue(next, pc + 1, found, budget - 1)
  }

  function Attempt(db: Db, budget: nat): (Db, Outcome) {
    if db.marked then (db, Done) else Issue(db, 0, Found(db.pathPrefix, db.stripPath, db.httpDomain), budget)
  }

  // ---- Runs ----

  /** Serving starts only after an attempt is done, and only then rows change otherwise. */
  datatype System = System(db: Db, serving: bool)

  datatype Action =
    | Boot(budget: nat)
    | Die
    | WriteRow(id: string, row: Row)
    | RemoveRow(id: string)

  function Next(s: System, a: Action): System {
    match a
    case Boot(budget) =>
      if s.serving then s
      else var (db, outcome) := Attempt(s.db, budget); System(db, outcome == Done)
    case Die => s.(serving := false)
    case WriteRow(id, row) =>
      if s.serving && WebEndpointsUnique(s.db.rows[id := row]) && StreamPortsUnique(s.db.rows[id := row])
      then s.(db := s.db.(rows := s.db.rows[id := row])) else s
    case RemoveRow(id) =>
      if s.serving then s.(db := s.db.(rows := s.db.rows - {id})) else s
  }

  function RunFrom(s: System, actions: seq<Action>): System {
    if actions == [] then s
    else Next(RunFrom(s, actions[..|actions| - 1]), actions[|actions| - 1])
  }

  // ---- Where an upgrade can stand ----

  /** The rows the upgrade leads to: rewritten if the old index says that they are of the old kind. */
  function Target(start: Db): map<string, Row> { if start.httpDomain then Rewritten(start.rows) else start.rows }

  /** A table the upgrade can start from. */
  ghost predicate Upgradable(start: Db) {
    && !start.marked && !start.webEndpoint && !start.streamPort
    && WebEndpointsUnique(Target(start)) && StreamPortsUnique(Target(start))
  }

  /** A database as the previous release left it: no HTTPS routes, and its indexes hold. */
  ghost predicate Legacy(start: Db) {
    && start == Db(false, false, false, true, true, false, false, start.rows)
    && HttpDomainsUnique(start.rows) && StreamPortsUnique(start.rows)
    && forall id :: id in start.rows ==> !start.rows[id].protocol.HTTPS?
  }

  lemma LegacyIsUpgradable(start: Db)
    requires Legacy(start)
    ensures Upgradable(start)
  {
    var target := Rewritten(start.rows);
    forall i, j | i in target && j in target && i != j
      ensures !SameWebEndpoint(target[i], target[j]) && !SameStreamPort(target[i], target[j])
    {
      assert !SameStreamPort(start.rows[i], start.rows[j]);
    }
  }

  /** The schema after the upgrade. */
  function Final(rows: map<string, Row>): Db { Db(true, true, true, false, false, true, true, rows) }

  /** How far an unfinished upgrade may have got: rows are as at the start or as wanted, and the old index is gone only
      when they are as wanted. */
  ghost predicate Underway(db: Db, start: Db) {
    && !db.marked
    && (db.rows == start.rows || db.rows == Target(start))
    && (db.httpDomain ==> start.httpDomain)
    && (!db.httpDomain ==> db.rows == Target(start))
  }

  lemma RewrittenTwice(rows: map<string, Row>)
    ensures Rewritten(Rewritten(rows)) == Rewritten(rows)
  {}

  /** The state fits the place the program has reached. */
  ghost predicate Fits(pc: nat, found: Found, db: Db, start: Db) {
    if pc == LAST then db == Final(Target(start))
    else
      && Underway(db, start)
      && (if pc == 0 then found.pathPrefix == db.pathPrefix else db.pathPrefix)
      && (if pc <= 1 then found.stripPath == db.stripPath else db.stripPath)
      && (if pc <= 3 then found.httpDomain == db.httpDomain else !db.httpDomain)
      && (pc == 3 ==> db.rows == Target(start))
      && (pc >= 5 ==> !db.publicPort) && (pc >= 6 ==> db.webEndpoint) && (pc >= 7 ==> db.streamPort)
  }

  lemma StatementFits(pc: nat, found: Found, db: Db, start: Db)
    requires Upgradable(start) && pc < LAST && Fits(pc, found, db, start)
    ensures match StatementAt(pc, found)
      case None => Fits(pc + 1, found, db, start)
      case Some(st) => Exec(db, st).Some? && Fits(pc + 1, found, Exec(db, st).value, start)
  {
    hide WebEndpointsUnique, StreamPortsUnique, Rewritten;
    RewrittenTwice(start.rows);
  }

  lemma {:induction false} IssueFits(pc: nat, found: Found, db: Db, start: Db, budget: nat)
    requires Upgradable(start) && pc <= LAST && Fits(pc, found, db, start)
    ensures var (db', outcome) := Issue(db, pc, found, budget);
      && outcome != Failed
      && (outcome == Crashed ==> Underway(db', start))
      && (outcome == Done ==> db' == Final(Target(start)))
      && (budget >= LAST - pc ==> outcome == Done)
    decreases LAST - pc
  {
    hide Fits, Underway, Upgradable, Exec, Target, StatementAt;
    FitsMeans(pc, found, db, start);
    if pc < LAST {
      StatementFits(pc, found, db, start);
      match StatementAt(pc, found)
      case None => IssueFits(pc + 1, found, db, start, budget);
      case Some(st) => if budget > 0 { IssueFits(pc + 1, found, Exec(db, st).value, start, budget - 1); }
    }
  }

  lemma FitsMeans(pc: nat, found: Found, db: Db, start: Db)
    requires Fits(pc, found, db, start)
    ensures if pc == LAST then db == Final(Target(start)) else Underway(db, start)
  {}

  /** Whatever part of an attempt runs, no statement fails, the upgrade stays underway until all of it has run, and then
      the schema is final and the rows are as wanted. */
  lemma AttemptUnderway(db: Db, start: Db, budget: nat)
    requires Upgradable(start) && Underway(db, start)
    ensures var (db', outcome) := Attempt(db, budget);
      && outcome != Failed
      && (outcome == Crashed ==> Underway(db', start))
      && (outcome == Done ==> db' == Final(Target(start)))
      && (budget >= LAST ==> outcome == Done)
  {
    hide Issue, Upgradable, Target;
    var found := Found(db.pathPrefix, db.stripPath, db.httpDomain);
    assert Fits(0, found, db, start);
    hide Fits;
    IssueFits(0, found, db, start, budget);
  }

  // ---- Every run ----

  /** Not finished and not serving, or finished. */
  ghost predicate Sound(s: System, start: Db) {
    if s.db.marked then s.db == Final(s.db.rows) else Underway(s.db, start) && !s.serving
  }

  lemma NextSound(s: System, start: Db, a: Action)
    requires Upgradable(start) && Sound(s, start)
    ensures Sound(Next(s, a), start)
    ensures a.Boot? && s.db.marked ==> Next(s, a).db == s.db
    ensures a.Boot? && !s.db.marked && Next(s, a).db.marked ==> Next(s, a).db == Final(Target(start))
    ensures !s.db.marked && Next(s, a).db.marked ==> a.Boot?
  {
    hide Upgradable, WebEndpointsUnique, StreamPortsUnique, Target;
    if a.Boot? && !s.db.marked {
      hide Attempt;
      AttemptUnderway(s.db, start, a.budget);
    }
  }

  lemma {:induction false} RunSound(start: Db, actions: seq<Action>)
    requires Upgradable(start)
    ensures Sound(RunFrom(System(start, false), actions), start)
  {
    hide Upgradable, Next;
    if actions != [] {
      RunSound(start, actions[..|actions| - 1]);
      NextSound(RunFrom(System(start, false), actions[..|actions| - 1]), start, actions[|actions| - 1]);
    } else {
      StartSound(start);
    }
  }

  lemma StartSound(start: Db)
    requires Upgradable(start)
    ensures Sound(System(start, false), start)
  {}

  /** In every run with crashes after any statement and any number of restarts, the step that finishes the upgrade leaves
      the final schema and every old HTTP row, and no other, turned into an HTTPS row. */
  lemma FinishesOnce(start: Db, actions: seq<Action>, a: Action)
    requires Upgradable(start)
    requires var s := RunFrom(System(start, false), actions); !s.db.marked && Next(s, a).db.marked
    ensures var db := Next(RunFrom(System(start, false), actions), a).db;
      && db == Final(Target(start)) && db.rows.Keys == start.rows.Keys
      && forall id :: id in start.rows ==>
           db.rows[id] == if start.httpDomain && start.rows[id].protocol == HTTP then start.rows[id].(protocol := HTTPS)
                          else start.rows[id]
  {
    hide Upgradable, Next;
    RunSound(start, actions);
    NextSound(RunFrom(System(start, false), actions), start, a);
  }

  predicate Writes(a: Action, id: string) { (a.WriteRow? || a.RemoveRow?) && a.id == id }

  /** Once the marker is there, nothing but a write of that very row changes it, over any number of crashes and starts:
      an HTTP row that is written from then on stays one. */
  lemma {:induction false} NeverRewritesAgain(start: Db, actions: seq<Action>, more: seq<Action>, id: string)
    requires Upgradable(start)
    requires var s := RunFrom(System(start, false), actions); s.db.marked && id in s.db.rows
    requires forall a :: a in more ==> !Writes(a, id)
    ensures var s := RunFrom(System(start, false), actions);
      var later := RunFrom(s, more).db;
      later == Final(later.rows) && id in later.rows && later.rows[id] == s.db.rows[id]
  {
    hide Upgradable;
    RunSound(start, actions);
    var s := RunFrom(System(start, false), actions);
    if more != [] {
      var last := more[|more| - 1];
      NeverRewritesAgain(start, actions, more[..|more| - 1], id);
      hide RunFrom, WebEndpointsUnique, StreamPortsUnique;
      assert !Writes(last, id);
      MarkedStays(RunFrom(s, more[..|more| - 1]), last, id);
      RunFromLast(s, more);
    }
  }

  lemma RunFromLast(s: System, actions: seq<Action>)
    requires actions != []
    ensures RunFrom(s, actions) == Next(RunFrom(s, actions[..|actions| - 1]), actions[|actions| - 1])
  {}

  lemma MarkedStays(s: System, a: Action, id: string)
    requires s.db == Final(s.db.rows) && id in s.db.rows && !Writes(a, id)
    ensures var s' := Next(s, a); s'.db == Final(s'.db.rows) && id in s'.db.rows && s'.db.rows[id] == s.db.rows[id]
  {
    hide WebEndpointsUnique, StreamPortsUnique;
  }

  /** However often the upgrade was interrupted, the next start that is not is served. */
  lemma CanAlwaysFinish(start: Db, actions: seq<Action>)
    requires Upgradable(start)
    ensures Next(RunFrom(System(start, false), actions + [Die]), Boot(LAST)).serving
  {
    hide Upgradable, Attempt;
    var s := RunFrom(System(start, false), actions + [Die]);
    assert (actions + [Die])[..|actions|] == actions;
    RunSound(start, actions + [Die]);
    if s.db.marked {
      MarkedIsDone(s.db);
    } else {
      AttemptUnderway(s.db, start, LAST);
    }
  }

  lemma MarkedIsDone(db: Db)
    requires db.marked
    ensures Attempt(db, LAST) == (db, Done)
  {}

  // ---- The upgrade as the store runs it ----

  class Database {
    var db: Db

    constructor (db: Db)
      ensures this.db == db
    {
      this.db := db;
    }

    /** One statement with its own commit; `left` is how many more the process lives to issue. */
    method Commit(st: Statement, left: nat, ghost pc: nat, ghost found: Found) returns (outcome: Outcome, less: nat)
      requires pc < LAST && StatementAt(pc, found) == Some(st)
      modifies this
      ensures outcome == Done ==> Issue(old(db), pc, found, left) == Issue(db, pc + 1, found, less)
      ensures outcome != Done ==> (db, outcome) == Issue(old(db), pc, found, left)
    {
      hide Exec;
      if left == 0 { return Crashed, 0; }
      var next := Exec(db, st);
      if next.None? { return Failed, left; }
      db := next.value;
      return Done, left - 1;
    }

    method EnsureWebRouteSchema(budget: nat) returns (outcome: Outcome)
      modifies this
      ensures (db, outcome) == Attempt(old(db), budget)
    {
      hide Issue;
      if db.marked { return Done; }
      var left := budget;
      var hasPathPrefix, hasStripPath, legacyIndex := db.pathPrefix, db.stripPath, db.httpDomain;
      ghost var found := Found(hasPathPrefix, hasStripPath, legacyIndex);
      if hasPathPrefix {
        Skips(db, 0, found, left);
      } else {
        outcome, left := Commit(AddPathPrefix, left, 0, found);
        if outcome != Done { return; }
      }
      if hasStripPath {
        Skips(db, 1, found, left);
      } else {
        outcome, left := Commit(AddStripPath, left, 1, found);
        if outcome != Done { return; }
      }
      if legacyIndex {
        outcome, left := Commit(RewriteHttp, left, 2, found);
        if outcome != Done { return; }
        outcome, left := Commit(DropHttpDomain, left, 3, found);
        if outcome != Done { return; }
      } else {
        Skips(db, 2, found, left);
        Skips(db, 3, found, left);
      }
      outcome, left := Commit(DropPublicPort, left, 4, found);
      if outcome != Done { return; }
      outcome, left := Commit(CreateWebEndpoint, left, 5, found);
      if outcome != Done { return; }
      outcome, left := Commit(CreateStreamPort, left, 6, found);
      if outcome != Done { return; }
      outcome, left := Commit(Mark, left, 7, found);
      Through(db, found, left);
    }
  }

  lemma Skips(db: Db, pc: nat, found: Found, budget: nat)
    requires pc < LAST && StatementAt(pc, found).None?
    ensures Issue(db, pc, found, budget) == Issue(db, pc + 1, found, budget)
  {}

  lemma Through(db: Db, found: Found, budget: nat)
    ensures Issue(db, LAST, found, budget) == (db, Done)
  {}
}
