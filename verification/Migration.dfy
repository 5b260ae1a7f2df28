/**
 The migration runner: a ledger of applied steps kept beside the schema they make. Every statement
 may fail before or after taking effect, and the process may stop at any of them. MySQL keeps each
 statement at once; SQLite keeps what a transaction commits, and undoes a failed step to a savepoint.
 */
module Migration {
  import opened Base
  import opened Seqs
  import opened Text

  datatype Dialect = MySql | Sqlite

  datatype RowState = Applied | Dirty | FailedState

  datatype LedgerRow = LedgerRow(version: int, name: string, checksum: string, state: RowState)

  // A step's script as the fragments between its semicolons.
  datatype MigrationStep = MigrationStep(name: string, checksum: string, fragments: seq<string>)

  datatype Db = Db(ledgerTable: bool, ledger: seq<LedgerRow>, schema: seq<string>)

  // What a connection sees, what survives it, and the savepoints it has open.
  datatype Server = Server(seen: Db, kept: Db, inTransaction: bool, savepoints: seq<Db>)

  datatype Query =
    | CreateLedger | InsertRow(row: LedgerRow) | Statement(text: string) | SetState(version: nat, state: RowState)
    | Begin | Savepoint | RollbackTo | Release | Commit | Rollback

  // ----- the database -----

  // A row by its key; a second row of a version is refused.
  function Inserted(ledger: seq<LedgerRow>, row: LedgerRow): Option<seq<LedgerRow>> {
    if ledger == [] || ledger[|ledger| - 1].version < row.version then Some(ledger + [row])
    else if ledger[|ledger| - 1].version == row.version then None
    else
      match Inserted(ledger[..|ledger| - 1], row)
      case None => None
      case Some(front) => Some(front + [ledger[|ledger| - 1]])
  }

  function StateSet(ledger: seq<LedgerRow>, version: nat, state: RowState): seq<LedgerRow> {
    seq(|ledger|, i requires 0 <= i < |ledger| => if ledger[i].version == version then ledger[i].(state := state)
        else ledger[i])
  }

  function Content(db: Db, query: Query): Option<Db> {
    match query
    case CreateLedger => Some(db.(ledgerTable := true))
    case InsertRow(row) =>
      if !db.ledgerTable || Inserted(db.ledger, row).None? then None
          else Some(db.(ledger := Inserted(db.ledger, row).value))
    case Statement(text) => Some(db.(schema := db.schema + [text]))
    case SetState(version, state) => if !db.ledgerTable then None
        else Some(db.(ledger := StateSet(db.ledger, version, state)))
    case _ => None
  }

  // The effect of a query, if it has one.
  function Effect(s: Server, query: Query): Option<Server> {
    match query
    case Begin => if s.inTransaction then None else Some(s.(inTransaction := true))
    case Savepoint => Some(s.(savepoints := s.savepoints + [s.seen]))
    case RollbackTo => if s.savepoints == [] then None else Some(s.(seen := s.savepoints[|s.savepoints| - 1]))
    case Release => if s.savepoints == [] then None else Some(s.(savepoints := s.savepoints[..|s.savepoints| - 1]))
    case Commit => if !s.inTransaction then None else Some(Server(s.seen, s.seen, false, []))
    case Rollback => if !s.inTransaction then None else Some(Server(s.kept, s.kept, false, []))
    case _ =>
      match Content(s.seen, query)
      case None => None
      case Some(db) => Some(s.(seen := db, kept := if s.inTransaction then s.kept else db))
  }

  // ----- where a database stands -----

  function Statements(fragments: seq<string>): seq<string> {
    if fragments == [] then []
    else
      var front, last := Statements(fragments[..|fragments| - 1]), TrimSpace(fragments[|fragments| - 1]);
      if last == "" then front else front + [last]
  }

  function AppliedRows(steps: seq<MigrationStep>, m: nat): seq<LedgerRow>
    requires m <= |steps|
  {
    seq(m, v requires 0 <= v < m => LedgerRow(v, steps[v].name, steps[v].checksum, Applied))
  }

  // The schema the steps after the first make; the first only makes the ledger itself.
  function SchemaOf(steps: seq<MigrationStep>, m: nat): seq<string>
    requires m <= |steps|
  {
    if m <= 1 then [] else SchemaOf(steps, m - 1) + Statements(steps[m - 1].fragments)
  }

  // Steps applied, statements of the next one executed, and the state of its row if it has one.
  datatype Position = Position(applied: nat, executed: nat, open: Option<RowState>)

  /** The applied versions are the first ones; at most the next has a row, dirty or failed; and the schema
      is exactly that of the applied steps and the executed statements of the next one. */
  ghost predicate StandsAt(db: Db, steps: seq<MigrationStep>, pos: Position) {
    && pos.applied <= |steps|
    && (pos.applied > 0 ==> db.ledgerTable)
    && match pos.open
       case None => pos.executed == 0 && db.ledger == AppliedRows(steps, pos.applied)
           && db.schema == SchemaOf(steps, pos.applied)
       case Some(state) =>
         && 0 < pos.applied < |steps| && state != Applied
         && pos.executed <= |Statements(steps[pos.applied].fragments)|
         && db.ledger == AppliedRows(steps, pos.applied) + [RowOf(steps, pos.applied, state)]
         && db.schema == SchemaOf(steps, pos.applied) + Statements(steps[pos.applied].fragments)[..pos.executed]
  }

  function RowOf(steps: seq<MigrationStep>, v: nat, state: RowState): LedgerRow
    requires v < |steps|
  {
    LedgerRow(v, steps[v].name, steps[v].checksum, state)
  }

  function Fresh(): Db {
    Db(false, [], [])
  }

  lemma FreshStands(steps: seq<MigrationStep>)
    ensures StandsAt(Fresh(), steps, Position(0, 0, None))
  {
  }

  // What one attempt by a release with the first n steps may do.
  ghost predicate Advances(before: Position, after: Position, n: nat, dialect: Dialect, ok: bool) {
    && before.applied <= after.applied
    && (before.open.Some? || before.applied > n ==> after == before && !ok)
    && (before.applied <= n ==> after.applied <= n)
    && (ok ==> after == Position(n, 0, None))
    && (dialect == Sqlite && before.executed == 0 ==> after.executed == 0)
  }

  // ----- how each statement moves a database -----

  lemma CreateStands(db: Db, steps: seq<MigrationStep>, pos: Position)
    requires StandsAt(db, steps, pos)
    ensures StandsAt(db.(ledgerTable := true), steps, pos)
    ensures pos.applied > 0 ==> db.(ledgerTable := true) == db
  {
  }

  // The first step's row is applied at once, any other's starts dirty.
  function OpeningState(m: nat): RowState {
    if m == 0 then Applied else Dirty
  }

  function Opened(m: nat): Position {
    if m == 0 then Position(1, 0, None) else Position(m, 0, Some(Dirty))
  }

  lemma InsertStands(db: Db, steps: seq<MigrationStep>, m: nat)
    requires m < |steps| && StandsAt(db, steps, Position(m, 0, None))
    ensures var after := Content(db, InsertRow(RowOf(steps, m, OpeningState(m))));
            after.Some? ==> StandsAt(after.value, steps, Opened(m))
  {
  }

  lemma StatementStands(db: Db, steps: seq<MigrationStep>, m: nat, i: nat)
    requires m < |steps| && i < |steps[m].fragments| && TrimSpace(steps[m].fragments[i]) != ""
    requires StandsAt(db, steps, Position(m, |Statements(steps[m].fragments[..i])|, Some(Dirty)))
    ensures StandsAt(db.(schema := db.schema + [TrimSpace(steps[m].fragments[i])]), steps,
              Position(m, |Statements(steps[m].fragments[..i + 1])|, Some(Dirty)))
  {
    var fragments, done := steps[m].fragments, Statements(steps[m].fragments[..i]);
    StatementsGrow(fragments, i);
    StatementsPrefix(fragments, i);
    var query := TrimSpace(fragments[i]);
    assert Statements(fragments)[..|done|] == done && Statements(fragments)[..|done| + 1] == done + [query];
    Assoc(SchemaOf(steps, m), done, [query]);
  }

  lemma AppliedStands(db: Db, steps: seq<MigrationStep>, m: nat)
    requires 0 < m < |steps| && StandsAt(db, steps, Position(m, |Statements(steps[m].fragments)|, Some(Dirty)))
    ensures StandsAt(db.(ledger := StateSet(db.ledger, m, Applied)), steps, Position(m + 1, 0, None))
  {
  }

  // ----- the ledger read back -----

  // In the order they are read: a version once, by its primary key.
  predicate ByVersion(rows: seq<LedgerRow>) {
    forall i, j | 0 <= i < j < |rows| :: rows[i].version < rows[j].version
  }

  // The applied rows of the release's first steps, and no others.
  predicate LedgerAccepted(rows: seq<LedgerRow>, steps: seq<MigrationStep>) {
    |rows| <= |steps| && forall i | 0 <= i < |rows| :: RowListed(rows, steps, i)
  }

  predicate RowListed(rows: seq<LedgerRow>, steps: seq<MigrationStep>, i: nat)
    requires i < |rows| && i < |steps|
  {
    && rows[i].version == i && rows[i].state == Applied
    && rows[i].name == steps[i].name && rows[i].checksum == steps[i].checksum
  }

  // A ledger that some release does not accept, whatever it holds.
  predicate Refused(db: Db, steps: seq<MigrationStep>) {
    ByVersion(db.ledger) && !LedgerAccepted(db.ledger, steps)
  }

  // Ledger and schema are as they were.
  predicate Untouched(before: Db, after: Db) {
    after.ledger == before.ledger && after.schema == before.schema
  }

  function VersionsBelow(m: nat): set<int> {
    if m == 0 then {} else VersionsBelow(m - 1) + {m - 1}
  }

  lemma {:induction false} BelowMeans(m: nat)
    ensures forall v :: v in VersionsBelow(m) <==> 0 <= v < m
    decreases m
  {
    if m > 0 { BelowMeans(m - 1); }
  }

  /** The row checks, one after the other, accept exactly the ledgers that list the release's first steps in
      order, all applied, under their names and checksums. */
  method VerifyRows(rows: seq<LedgerRow>, steps: seq<MigrationStep>) returns (applied: Option<set<int>>)
    requires ByVersion(rows)
    ensures applied.Some? <==> LedgerAccepted(rows, steps)
    ensures applied.Some? ==> applied.value == VersionsBelow(|rows|)
  {
    var versions: set<int> := {};
    for i := 0 to |rows|
      invariant i <= |steps| && forall k | 0 <= k < i :: RowListed(rows, steps, k)
      invariant versions == VersionsBelow(i)
    {
      var row := rows[i];
      BelowMeans(i);
      assert LedgerAccepted(rows, steps) ==> i < |steps| && RowListed(rows, steps, i);
      assert i > 0 ==> RowListed(rows, steps, i - 1) && i - 1 < row.version;
      if row.version < 0 || row.version >= |steps| { return None; }
      if row.checksum != steps[row.version].checksum || row.name != steps[row.version].name { return None; }
      if row.state != Applied { return None; }
      if row.version > 0 && row.version - 1 !in versions { return None; }
      assert RowListed(rows, steps, i);
      versions := versions + {row.version};
    }
    applied := Some(versions);
  }

  // Where a database stands, a release accepts its ledger exactly if no step is open and it knows all that are applied.
  lemma AcceptedWhere(db: Db, all: seq<MigrationStep>, pos: Position, n: nat)
    requires n <= |all| && StandsAt(db, all, pos)
    ensures ByVersion(db.ledger)
    ensures LedgerAccepted(db.ledger, all[..n]) <==> pos.open.None? && pos.applied <= n
    ensures pos.open.None? ==> |db.ledger| == pos.applied
  {
    var steps, rows := all[..n], db.ledger;
    forall i | 0 <= i < |rows| ensures rows[i].version == i { RowAt(db, all, pos, i); }
    if pos.open.None? && pos.applied <= n {
      forall i | 0 <= i < |rows| ensures RowListed(rows, steps, i) { RowAt(db, all, pos, i); }
    }
    if pos.open.Some? {
      RowAt(db, all, pos, pos.applied);
      assert |rows| <= n ==> !RowListed(rows, steps, pos.applied);
    }
  }

  // ----- one connection -----

  class Connection {
    var server: Server
    const dialect: Dialect

    constructor (db: Db, dialect: Dialect)
      ensures server == Server(db, db, false, []) && this.dialect == dialect
    {
      server, this.dialect := Server(db, db, false, []), dialect;
    }

    // A statement that reports failure may have taken effect, unless it could not.
    method Exec(query: Query) returns (ok: bool)
      modifies this
      ensures ok ==> Effect(old(server), query) == Some(server)
      ensures !ok ==> server == old(server) || Effect(old(server), query) == Some(server)
    {
      var lost, failed: bool := *, *;
      var effect := Effect(server, query);
      if lost || effect.None? { return false; }
      server := effect.value;
      ok := !failed;
    }

    // Within an attempt: MySQL keeps what it sees, SQLite is inside its transaction.
    ghost predicate Auto()
      reads this
    {
      if dialect == MySql then !server.inTransaction && server.seen == server.kept && server.savepoints == []
      else server.inTransaction
    }

    // A statement on the content, as the dialect keeps it.
    method ExecContent(query: Query) returns (ok: bool)
      requires Auto() && Effect(server, query) == match Content(server.seen, query)
                 case None => None
                 case Some(db) => Some(server.(seen := db, kept := if server.inTransaction then server.kept else db))
      modifies this
      ensures Auto() && server.savepoints == old(server.savepoints)
                && (dialect == Sqlite ==> server.kept == old(server.kept))
      ensures ok ==> Content(old(server.seen), query) == Some(server.seen)
      ensures !ok ==> server.seen == old(server.seen) || Content(old(server.seen), query) == Some(server.seen)
    {
      ok := Exec(query);
    }

    // Reads the ledger by version and checks it row by row; reading may fail.
    method VerifyLedger(steps: seq<MigrationStep>) returns (applied: Option<set<int>>)
      requires ByVersion(server.seen.ledger)
      ensures applied.Some? ==>
                LedgerAccepted(server.seen.ledger, steps) && applied.value == VersionsBelow(|server.seen.ledger|)
    {
      var failed: bool := *;
      if failed || !server.seen.ledgerTable { return None; }
      applied := VerifyRows(server.seen.ledger, steps);
    }

    // One step: its row first, dirty; then its statements one by one; then the row again.
    method ApplyStep(step: MigrationStep, m: nat, ghost steps: seq<MigrationStep>)
      returns (ok: bool, rollbackFailed: bool, ghost now: Position)
      requires 0 < m < |steps| && step == steps[m] && StandsAt(server.seen, steps, Position(m, 0, None)) && Auto()
      requires server.savepoints == []
      modifies this
      ensures Auto() && (dialect == Sqlite ==> server.kept == old(server.kept))
                && (dialect == MySql ==> !rollbackFailed)
      ensures ok ==> now == Position(m + 1, 0, None) && server.savepoints == [] && !rollbackFailed
      ensures ok || !rollbackFailed ==>
                StandsAt(server.seen, steps, now) && m <= now.applied <= m + 1
                && (dialect == Sqlite ==> now.executed == 0)
    {
      hide StandsAt, Statements, Inserted, StateSet, AppliedRows;
      ok, rollbackFailed := false, false;
      var begun;
      begun, now := OpenStep(step, m, steps);
      if !begun { return; }
      var done;
      done, now := RunStatements(step, m, steps);
      if done { done, now := CloseStep(m, steps, now); }
      if done { return true, false, now; }
      rollbackFailed, now := FailStep(m, steps, now);
    }

    method OpenStep(step: MigrationStep, m: nat, ghost steps: seq<MigrationStep>)
      returns (ok: bool, ghost now: Position)
      requires 0 < m < |steps| && step == steps[m] && StandsAt(server.seen, steps, Position(m, 0, None)) && Auto()
      requires server.savepoints == []
      modifies this
      ensures Auto() && (dialect == Sqlite ==> server.kept == old(server.kept))
      ensures StandsAt(server.seen, steps, now) && now.applied == m && now.executed == 0
      ensures ok ==> now == Position(m, 0, Some(Dirty)) && SavedOnce(steps, m)
    {
      hide StandsAt, Statements, Inserted;
      now := Position(m, 0, None);
      InsertStands(server.seen, steps, m);
      ok := ExecContent(InsertRow(LedgerRow(m, step.name, step.checksum, Dirty)));
      if ok || server.seen != old(server.seen) { now := Position(m, 0, Some(Dirty)); }
      if ok && dialect == Sqlite { ok := Exec(Savepoint); }
    }

    // SQLite has one savepoint open, holding the dirty row and nothing of the step; MySQL has none.
    ghost predicate SavedOnce(steps: seq<MigrationStep>, m: nat)
      reads this
    {
      if dialect == MySql then server.savepoints == []
      else |server.savepoints| == 1 && StandsAt(server.savepoints[0], steps, Position(m, 0, Some(Dirty)))
    }

    method RunStatements(step: MigrationStep, m: nat, ghost steps: seq<MigrationStep>)
      returns (ok: bool, ghost now: Position)
      requires 0 < m < |steps| && step == steps[m] && StandsAt(server.seen, steps, Position(m, 0, Some(Dirty)))
      requires Auto()
      modifies this
      ensures Auto() && server.savepoints == old(server.savepoints)
                && (dialect == Sqlite ==> server.kept == old(server.kept))
      ensures StandsAt(server.seen, steps, now) && now.applied == m && now.open == Some(Dirty)
      ensures ok ==> now.executed == |Statements(steps[m].fragments)|
    {
      var fragments := step.fragments;
      NothingStated(fragments);
      hide StandsAt, Statements;
      ok, now := true, Position(m, 0, Some(Dirty));
      for i := 0 to |fragments|
        invariant ok && Auto() && server.savepoints == old(server.savepoints)
        invariant (dialect == Sqlite ==> server.kept == old(server.kept))
        invariant StandsAt(server.seen, steps, now) && now == Position(m, |Statements(fragments[..i])|, Some(Dirty))
      {
        StatementsGrow(fragments, i);
        var query := TrimSpace(fragments[i]);
        if query != "" {
          ghost var before := server.seen;
          StatementStands(before, steps, m, i);
          ok := ExecContent(Statement(query));
          if ok || server.seen != before { now := Position(m, |Statements(fragments[..i + 1])|, Some(Dirty)); }
          if !ok { return; }
        }
      }
      assert fragments[..|fragments|] == fragments;
    }

    // Marks the step applied; the mark may stay although it was reported lost.
    method CloseStep(m: nat, ghost steps: seq<MigrationStep>, ghost at: Position)
      returns (ok: bool, ghost now: Position)
      requires 0 < m < |steps| && at == Position(m, |Statements(steps[m].fragments)|, Some(Dirty))
      requires StandsAt(server.seen, steps, at) && Auto() && SavedOnce(steps, m)
      modifies this
      ensures Auto() && (dialect == Sqlite ==> server.kept == old(server.kept) && SavedAt(server.savepoints, steps, m))
      ensures StandsAt(server.seen, steps, now) && (now == at || now == Position(m + 1, 0, None))
      ensures ok ==> now == Position(m + 1, 0, None) && server.savepoints == []
    {
      hide StandsAt, Statements, StateSet;
      now := at;
      AppliedStands(server.seen, steps, m);
      ok := ExecContent(SetState(m, Applied));
      if ok || server.seen != old(server.seen) { now := Position(m + 1, 0, None); }
      if ok && dialect == Sqlite { ok := Exec(Release); }
    }

    method FailStep(m: nat, ghost steps: seq<MigrationStep>, ghost at: Position)
      returns (rollbackFailed: bool, ghost now: Position)
      requires 0 < m < |steps| && Auto()
      requires StandsAt(server.seen, steps, at)
      requires at == Position(m + 1, 0, None) || (at.applied == m && at.open == Some(Dirty))
      requires dialect == Sqlite ==> SavedAt(server.savepoints, steps, m)
      modifies this
      ensures Auto() && (dialect == Sqlite ==> server.kept == old(server.kept))
                && (dialect == MySql ==> !rollbackFailed)
      ensures !rollbackFailed ==>
                StandsAt(server.seen, steps, now) && m <= now.applied <= m + 1
                && (dialect == Sqlite ==> now.executed == 0)
    {
      hide StandsAt, Statements, StateSet;
      rollbackFailed, now := false, at;
      if dialect == Sqlite {
        var rolledBack := Exec(RollbackTo);
        if !rolledBack { return true, now; }
        now := Position(m, 0, Some(Dirty));
        var released := Exec(Release);
        if !released { return true, now; }
      }
      FailedStands(server.seen, steps, m, now);
      ghost var before := server.seen;
      var recorded := ExecContent(SetState(m, FailedState));
      if server.seen != before {
        ghost var executed := if now.open.Some? then now.executed else |Statements(steps[m].fragments)|;
        now := Position(m, executed, Some(FailedState));
      }
    }

    // The ledger, then every step it does not have, in order; a ledger it does not accept stops it at once.
    method ApplyLocked(steps: seq<MigrationStep>, ghost all: seq<MigrationStep>, ghost pos: Position)
      returns (ok: bool, rollbackFailed: bool, ghost now: Position)
      requires 0 < |steps| <= |all| && steps == all[..|steps|] && Auto() && server.savepoints == []
      requires StandsAt(server.seen, all, pos) || Refused(server.seen, steps)
      modifies this
      ensures Auto() && (dialect == Sqlite ==> server.kept == old(server.kept))
                && (dialect == MySql ==> !rollbackFailed)
      ensures old(Refused(server.seen, steps)) ==> !ok && !rollbackFailed && Untouched(old(server.seen), server.seen)
      ensures old(StandsAt(server.seen, all, pos)) ==>
        && (ok || !rollbackFailed ==> StandsAt(server.seen, all, now) && Advances(pos, now, |steps|, dialect, ok))
        && (pos.applied >= |steps| || pos.open.Some? ==>
             server.seen == old(server.seen) && now == pos && !rollbackFailed)
    {
      hide StandsAt, VersionsBelow, Inserted, AppliedRows, LedgerAccepted, ByVersion;
      ok, rollbackFailed, now := false, false, pos;
      ghost var standing := StandsAt(server.seen, all, pos);
      if standing {
        CreateStands(server.seen, all, pos);
        TableStands(server.seen, all, pos);
        AcceptedWhere(server.seen, all, pos, |steps|);
      }
      var created := ExecContent(CreateLedger);
      if !created { return; }
      var applied := VerifyLedger(steps);
      if applied.None? { return; }
      assert standing;
      BelowMeans(pos.applied);
      if 0 !in applied.value {
        ghost var before := server.seen;
        InsertStands(before, all, 0);
        var recorded := ExecContent(InsertRow(LedgerRow(0, steps[0].name, steps[0].checksum, Applied)));
        if recorded || server.seen != before { now := Position(1, 0, None); }
        if !recorded { return; }
      }
      ok, rollbackFailed, now := ApplyRest(steps, applied.value, all, now, pos.applied);
    }

    method ApplyRest(steps: seq<MigrationStep>, applied: set<int>, ghost all: seq<MigrationStep>, ghost pos: Position,
          ghost known: nat)
      returns (ok: bool, rollbackFailed: bool, ghost now: Position)
      requires 0 < |steps| <= |all| && steps == all[..|steps|] && StandsAt(server.seen, all, pos) && Auto()
      requires server.savepoints == []
      requires pos == Position(if known == 0 then 1 else known, 0, None) && known <= |steps|
      requires forall v :: v in applied <==> 0 <= v < known
      modifies this
      ensures Auto() && (dialect == Sqlite ==> server.kept == old(server.kept))
                && (dialect == MySql ==> !rollbackFailed)
      ensures ok || !rollbackFailed ==>
        && StandsAt(server.seen, all, now) && pos.applied <= now.applied <= |steps|
        && (dialect == Sqlite ==> now.executed == 0)
      ensures ok ==> now == Position(|steps|, 0, None)
      ensures known == |steps| ==> ok && server.seen == old(server.seen) && !rollbackFailed && now == pos
    {
      hide StandsAt;
      ok, rollbackFailed, now := true, false, pos;
      for v := 1 to |steps|
        invariant ok && !rollbackFailed && Auto() && server.savepoints == []
        invariant (dialect == Sqlite ==> server.kept == old(server.kept))
        invariant now == Position(if v > known then v else known, 0, None) && StandsAt(server.seen, all, now)
        invariant known == |steps| ==> server.seen == old(server.seen)
      {
        if v !in applied {
          ok, rollbackFailed, now := ApplyStep(steps[v], v, all);
          if !ok { return; }
        }
      }
    }

    // MySQL: one attempt at a time holds the session lock, and each statement commits itself.
    method ApplyMySql(steps: seq<MigrationStep>, ghost all: seq<MigrationStep>, ghost pos: Position)
      returns (ok: bool, ghost now: Position)
      requires 0 < |steps| <= |all| && steps == all[..|steps|] && dialect == MySql && Auto()
      requires StandsAt(server.seen, all, pos) || Refused(server.seen, steps)
      modifies this
      ensures old(Refused(server.seen, steps)) ==> !ok && Untouched(old(server.kept), server.kept)
      ensures old(StandsAt(server.seen, all, pos)) ==>
        && StandsAt(server.kept, all, now) && Advances(pos, now, |steps|, MySql, ok)
        && (pos.applied >= |steps| || pos.open.Some? ==> server.kept == old(server.kept))
    {
      hide StandsAt, Advances, LedgerAccepted, ByVersion;
      Staying(pos, |steps|, MySql);
      var unlocked: bool := *;
      if unlocked { return false, pos; }
      var rollbackFailed;
      ok, rollbackFailed, now := ApplyLocked(steps, all, pos);
      // The lock may not come free, which is reported although the steps stand.
      var released: bool := *;
      if !released {
        AdvancesUnreported(pos, now, |steps|, MySql);
        ok := false;
      }
    }

    // SQLite: one write transaction, committed even after a failed step so that its row stays, but not after
    // a failed rollback.
    method ApplySqlite(steps: seq<MigrationStep>, ghost all: seq<MigrationStep>, ghost pos: Position)
      returns (ok: bool, ghost now: Position)
      requires 0 < |steps| <= |all| && steps == all[..|steps|] && dialect == Sqlite
      requires StandsAt(server.kept, all, pos) || Refused(server.kept, steps)
      requires server.seen == server.kept && !server.inTransaction && server.savepoints == []
      modifies this
      ensures old(Refused(server.kept, steps)) ==> !ok && Untouched(old(server.kept), server.kept)
      ensures old(StandsAt(server.kept, all, pos)) ==>
        && StandsAt(server.kept, all, now) && Advances(pos, now, |steps|, Sqlite, ok)
        && (pos.applied >= |steps| || pos.open.Some? ==> server.kept == old(server.kept))
    {
      hide StandsAt, Advances, LedgerAccepted, ByVersion;
      Staying(pos, |steps|, Sqlite);
      now := pos;
      var began := Exec(Begin);
      if !began { return false, now; }
      var rollbackFailed;
      ghost var reached;
      ok, rollbackFailed, reached := ApplyLocked(steps, all, pos);
      if !ok && rollbackFailed {
        Discard();
        return false, now;
      }
      ghost var before := server;
      var committed := Exec(Commit);
      if committed || server != before { now := reached; }
      if !committed {
        AdvancesUnreported(pos, reached, |steps|, Sqlite);
        ok := false;
        Discard();
      }
    }

    // Rolls back, or drops the connection, which comes to the same.
    method Discard()
      modifies this
      ensures server.kept == old(server.kept)
    {
      var rolledBack := Exec(Rollback);
      if !rolledBack { server := Server(server.kept, server.kept, false, []); }
    }
  }

  lemma Staying(pos: Position, n: nat, dialect: Dialect)
    ensures Advances(pos, pos, n, dialect, false)
  {
  }

  lemma AdvancesUnreported(before: Position, after: Position, n: nat, dialect: Dialect)
    ensures Advances(before, after, n, dialect, true) ==> Advances(before, after, n, dialect, false)
  {
  }

  lemma TableStands(db: Db, steps: seq<MigrationStep>, pos: Position)
    requires StandsAt(db, steps, pos)
    ensures pos.applied > 0 ==> db.ledgerTable
    ensures pos.open.Some? ==> pos.applied > 0
    ensures pos.open.None? ==> pos.executed == 0
  {
  }

  lemma NothingStated(fragments: seq<string>)
    ensures |Statements(fragments[..0])| == 0
  {
  }

  // ----- attempts -----

  /** One attempt by a release that knows the first n steps, on a fresh connection. A ledger the release does not
      accept, whatever else it holds, is left as it is, and so is the schema. */
  method Apply(db: Db, dialect: Dialect, all: seq<MigrationStep>, n: nat, ghost pos: Position)
    returns (after: Db, ok: bool, ghost now: Position)
    requires 0 < n <= |all| && (StandsAt(db, all, pos) || Refused(db, all[..n]))
    ensures Refused(db, all[..n]) ==> !ok && Untouched(db, after)
    ensures StandsAt(db, all, pos) ==> StandsAt(after, all, now) && Advances(pos, now, n, dialect, ok)
    ensures StandsAt(db, all, pos) && (pos.applied >= n || pos.open.Some?) ==> after == db
  {
    hide StandsAt, Advances, LedgerAccepted, ByVersion;
    var connection := new Connection(db, dialect);
    if dialect == Sqlite {
      ok, now := connection.ApplySqlite(all[..n], all, pos);
    } else {
      ok, now := connection.ApplyMySql(all[..n], all, pos);
    }
    after := connection.server.kept;
  }

  /** Any sequence of attempts, by any releases, with failures anywhere: the ledger and the schema always
      stand together, never go back, and a step left dirty or failed stops everything after it. */
  method ApplyRepeatedly(db: Db, dialect: Dialect, all: seq<MigrationStep>, releases: seq<nat>, ghost pos: Position)
    returns (after: Db, ghost now: Position)
    requires StandsAt(db, all, pos) && forall i | 0 <= i < |releases| :: 0 < releases[i] <= |all|
    ensures StandsAt(after, all, now) && pos.applied <= now.applied
    ensures pos.open.Some? || pos.applied == |all| ==> after == db
    ensures dialect == Sqlite && pos.executed == 0 ==> now.executed == 0
  {
    hide StandsAt;
    after, now := db, pos;
    for i := 0 to |releases|
      invariant StandsAt(after, all, now) && pos.applied <= now.applied
      invariant pos.open.Some? || pos.applied == |all| ==> after == db && now == pos
      invariant dialect == Sqlite && pos.executed == 0 ==> now.executed == 0
    {
      FullyApplied(after, all, now);
      var ok;
      after, ok, now := Apply(after, dialect, all, releases[i], now);
      FullyApplied(after, all, now);
    }
  }

  lemma FullyApplied(db: Db, all: seq<MigrationStep>, pos: Position)
    requires StandsAt(db, all, pos)
    ensures pos.applied <= |all| && (pos.applied == |all| ==> pos == Position(|all|, 0, None))
  {
  }

  // The one savepoint of a step holds the dirty row and nothing of the step.
  ghost predicate SavedAt(savepoints: seq<Db>, steps: seq<MigrationStep>, m: nat) {
    savepoints == [] || (|savepoints| == 1 && StandsAt(savepoints[0], steps, Position(m, 0, Some(Dirty))))
  }

  lemma StatementsGrow(fragments: seq<string>, i: nat)
    requires i < |fragments|
    ensures var query := TrimSpace(fragments[i]);
            Statements(fragments[..i + 1]) == Statements(fragments[..i]) + if query == "" then [] else [query]
    ensures Statements(fragments[..i + 1]) <= Statements(fragments)
  {
    assert fragments[..i + 1][..i] == fragments[..i];
    StatementsPrefix(fragments, i + 1);
  }

  lemma {:induction false} StatementsPrefix(fragments: seq<string>, i: nat)
    requires i <= |fragments|
    ensures Statements(fragments[..i]) <= Statements(fragments)
    decreases |fragments| - i
  {
    if i < |fragments| {
      StatementsPrefix(fragments, i + 1);
      assert fragments[..i + 1][..i] == fragments[..i];
    } else {
      assert fragments[..i] == fragments;
    }
  }

  // Recording a failure, where the row stands dirty or was already marked applied.
  lemma FailedStands(db: Db, steps: seq<MigrationStep>, m: nat, at: Position)
    requires 0 < m < |steps| && StandsAt(db, steps, at)
    requires at == Position(m + 1, 0, None) || (at.applied == m && at.open == Some(Dirty))
    ensures StandsAt(db.(ledger := StateSet(db.ledger, m, FailedState)), steps,
              Position(m, if at.open.Some? then at.executed else |Statements(steps[m].fragments)|, Some(FailedState)))
  {
  }

  /** The ledger row by row: the applied steps first, each under its name and checksum, and at most one open step
      last. */
  lemma RowAt(db: Db, steps: seq<MigrationStep>, pos: Position, i: nat)
    requires StandsAt(db, steps, pos) && i < |db.ledger|
    ensures i < |steps| && i <= pos.applied && |db.ledger| == pos.applied + if pos.open.Some? then 1 else 0
    ensures db.ledger[i].version == i && db.ledger[i].name == steps[i].name
    ensures db.ledger[i].checksum == steps[i].checksum
    ensures i < pos.applied ==> db.ledger[i].state == Applied
    ensures i == pos.applied ==> pos.open.Some? && db.ledger[i].state == pos.open.value != Applied
  {
  }

  lemma StatementAt(fragments: seq<string>, i: nat)
    requires i < |fragments| && TrimSpace(fragments[i]) != ""
    ensures var k := |Statements(fragments[..i])|;
            k < |Statements(fragments)| && Statements(fragments)[k] == TrimSpace(fragments[i])
  {
    StatementsGrow(fragments, i);
    hide Statements, TrimSpace;
    assert Statements(fragments[..i + 1])[|Statements(fragments[..i])|] == TrimSpace(fragments[i]);
  }

  lemma {:induction false} SchemaPrefix(steps: seq<MigrationStep>, v: nat, m: nat)
    requires v <= m <= |steps|
    ensures SchemaOf(steps, v) <= SchemaOf(steps, m)
    decreases m - v
  {
    if v < m { SchemaPrefix(steps, v + 1, m); }
  }

  /** The schema statement by statement: every fragment of an applied script that is not blank has been executed, in
      the place the ones before it leave it. */
  lemma ScriptApplied(db: Db, steps: seq<MigrationStep>, pos: Position, v: nat, i: nat)
    requires StandsAt(db, steps, pos) && 0 < v < pos.applied && i < |steps[v].fragments|
    requires TrimSpace(steps[v].fragments[i]) != ""
    ensures var at := |SchemaOf(steps, v)| + |Statements(steps[v].fragments[..i])|;
            at < |db.schema| && db.schema[at] == TrimSpace(steps[v].fragments[i])
  {
    StatementAt(steps[v].fragments, i);
    SchemaPrefix(steps, v + 1, pos.applied);
    assert SchemaOf(steps, v + 1) == SchemaOf(steps, v) + Statements(steps[v].fragments);
    hide SchemaOf, Statements, TrimSpace, AppliedRows;
    assert SchemaOf(steps, v + 1) <= db.schema;
  }

  function Stated(fragments: seq<string>): set<int> {
    set i | 0 <= i < |fragments| && TrimSpace(fragments[i]) != ""
  }

  /** And nothing else has: a script has as many statements as fragments that are not blank. */
  lemma {:induction false} StatementCount(fragments: seq<string>)
    ensures |Statements(fragments)| == |Stated(fragments)|
    decreases |fragments|
  {
    hide TrimSpace;
    if fragments != [] {
      var n := |fragments| - 1;
      StatementCount(fragments[..n]);
      assert Stated(fragments) == Stated(fragments[..n]) + if TrimSpace(fragments[n]) == "" then {} else {n};
    }
  }
}
