/**
 Schema migrations. A run applies the contiguous revisions above the stored version, one
 transaction per migration, and records the version at the end. It may fail at any call to the
 database; since statements create what is absent, running again picks up where it stopped.
 */
module Migrations {
  import opened Wrappers

  const U32: int := 0x1_0000_0000

  type Statement = string

  datatype Revision = Revision(number: int, migrations: seq<seq<Statement>>)

  datatype Dialect = Sqlite | Postgresql | Cockroachdb | Mysql

  datatype DbError = DbError(code: string, message: string)

  /** The statement with which each dialect creates the table holding the version. */
  function VersionTable(dialect: Dialect): Statement {
    match dialect
    case Sqlite => "CREATE TABLE IF NOT EXISTS memori_schema_version(num INTEGER NOT NULL PRIMARY KEY)"
    case Postgresql => "CREATE TABLE IF NOT EXISTS memori_schema_version(num BIGINT NOT NULL PRIMARY KEY)"
    case Cockroachdb => "CREATE TABLE IF NOT EXISTS memori_schema_version(num BIGINT NOT NULL PRIMARY KEY)"
    case Mysql => "create table if not exists memori_schema_version(num bigint not null primary key)"
  }

  /** What has been committed. Creating something that exists changes nothing, so a set of statements will do. */
  datatype Database = Database(schema: set<Statement>, version: Option<int>)

  predicate Contains(text: string, part: string) {
    |part| <= |text| && (text[..|part|] == part || (text != [] && Contains(text[1..], part)))
  }

  /** Somewhere in the text the part stands as a whole. */
  lemma {:induction false} ContainsMeans(text: string, part: string)
    ensures Contains(text, part) <==> exists i :: 0 <= i <= |text| - |part| && text[i..][..|part|] == part
    decreases |text|
  {
    if |part| <= |text| && text[..|part|] == part {
      assert text[0..][..|part|] == part;
    } else if |part| <= |text| && text != [] {
      ContainsMeans(text[1..], part);
      forall i | 0 <= i <= |text| - 1 - |part| ensures text[1..][i..] == text[i + 1..] { }
      if i :| 0 <= i <= |text| - |part| && text[i..][..|part|] == part {
        assert i > 0 && text[1..][i - 1..][..|part|] == part;
      }
      if Contains(text[1..], part) {
        var i :| 0 <= i <= |text| - 1 - |part| && text[1..][i..][..|part|] == part;
        assert text[i + 1..][..|part|] == part;
      }
    }
  }

  predicate IsTableNotFound(dialect: Dialect, e: DbError) {
    match dialect
    case Postgresql => e.code == "42P01"
    case Cockroachdb => e.code == "42P01"
    case Mysql => e.code == "42S02"
    case Sqlite => Contains(e.message, "no such table")
  }

  /**
   The version a database counts as having: a missing table or row means a fresh one. Which
   statement creates the table is a parameter throughout.
   */
  function CurrentVersion(table: Statement, db: Database): int {
    if table in db.schema && db.version.Some? then db.version.value else 0
  }

  /** Revision numbers are unsigned 32-bit, and the first is 1. */
  predicate IsRevisionList(revisions: seq<Revision>) {
    forall r :: r in revisions ==> 1 <= r.number < U32
  }

  /** The first revision whose number is `num`, truncated to 32 bits. */
  function Find(revisions: seq<Revision>, num: int): Option<Revision> {
    if revisions == [] then None
    else if revisions[0].number == num % U32 then Some(revisions[0])
    else Find(revisions[1..], num)
  }

  lemma {:induction false} FindFinds(revisions: seq<Revision>, num: int)
    ensures Find(revisions, num).Some? ==> Find(revisions, num).value in revisions && Find(revisions, num).value.number == num % U32
    ensures Find(revisions, num).None? ==> forall r :: r in revisions ==> r.number != num % U32
    decreases |revisions|
  {
    if revisions != [] && revisions[0].number != num % U32 { FindFinds(revisions[1..], num); }
  }

  function MaxNumber(revisions: seq<Revision>): (m: int)
    ensures forall r :: r in revisions ==> r.number <= m
  {
    if revisions == [] then 0
    else
      var rest := MaxNumber(revisions[1..]);
      assert forall r :: r in revisions ==> r == revisions[0] || r in revisions[1..];
      if revisions[0].number > rest then revisions[0].number else rest
  }

  /** A found revision means the truncated counter has not wrapped around, so counting up ends. */
  lemma NextFound(revisions: seq<Revision>, v: int)
    requires IsRevisionList(revisions) && Find(revisions, v + 1).Some?
    ensures (v + 1) % U32 == v % U32 + 1
    ensures Find(revisions, v + 1).value.number == v % U32 + 1 <= MaxNumber(revisions)
  {
    FindFinds(revisions, v + 1);
  }

  /** The end of the contiguous revisions above `v`. */
  function Reach(revisions: seq<Revision>, v: int): (end: int)
    requires IsRevisionList(revisions)
    ensures v <= end && Find(revisions, end + 1).None?
    decreases U32 - v % U32
  {
    if Find(revisions, v + 1).Some? then NextFound(revisions, v); Reach(revisions, v + 1) else v
  }

  function StatementsOf(migrations: seq<seq<Statement>>): set<Statement> {
    set m, s | m in migrations && s in m :: s
  }

  /** Everything the revisions from `v + 1` to the end of the contiguous run create. */
  function Pending(revisions: seq<Revision>, v: int): set<Statement>
    requires IsRevisionList(revisions)
    decreases U32 - v % U32
  {
    var next := Find(revisions, v + 1);
    if next.Some? then
      NextFound(revisions, v);
      StatementsOf(next.value.migrations) + Pending(revisions, v + 1)
    else {}
  }

  /** What one run may do to a database. */
  predicate MayRun(table: Statement, revisions: seq<Revision>, before: Database, after: Database, ok: bool)
    requires IsRevisionList(revisions)
  {
    var current := CurrentVersion(table, before);
    if ok then
      && after.schema == before.schema + Pending(revisions, current)
      && CurrentVersion(table, after) == Reach(revisions, current)
    else
      && before.schema <= after.schema <= before.schema + Pending(revisions, current)
      && after.version == before.version
  }

  /** A stored version is only ever read back if its table exists. */
  predicate IsConsistent(table: Statement, db: Database) {
    db.version.Some? ==> table in db.schema
  }

  // ---------- the connection ----------

  /** A connection on which any call may fail, as `fails` decides. */
  class Connection {
    const fails: nat -> bool
    const ddlPersists: bool       // a data definition outlives a rollback (it commits by itself)
    const readError: DbError      // what reading the version answers when it fails
    const missingError: DbError   // what it answers when the table is missing
    const table: Statement        // what creates the version's table here
    var db: Database
    var local: Database           // the open transaction's view
    var calls: nat
    var executed: seq<Statement>  // the statements that went through, in order

    constructor (db: Database, table: Statement, fails: nat -> bool, ddlPersists: bool, readError: DbError, missingError: DbError)
      ensures this.table == table
      ensures this.db == db && this.fails == fails && this.ddlPersists == ddlPersists
      ensures this.readError == readError && this.missingError == missingError
    {
      this.db, local, calls, executed := db, db, 0, [];
      this.table, this.fails, this.ddlPersists := table, fails, ddlPersists;
      this.readError, this.missingError := readError, missingError;
    }

    ghost predicate Reliable() { forall n: nat :: !fails(n) }

    method Begin() returns (ok: bool)
      modifies this
      ensures Reliable() ==> ok
      ensures db == old(db) && local == db && executed == old(executed)
    {
      ok := !fails(calls);
      calls := calls + 1;
      local := db;
    }

    method Execute(statement: Statement) returns (ok: bool)
      modifies this
      ensures Reliable() ==> ok
      ensures ok ==> local == old(local).(schema := old(local).schema + {statement})
      ensures !ok ==> local == old(local)
      ensures executed == old(executed) + if ok then [statement] else []
      ensures db == if ok && ddlPersists then old(db).(schema := old(db).schema + {statement}) else old(db)
    {
      ok := !fails(calls);
      calls := calls + 1;
      if ok {
        executed := executed + [statement];
        local := local.(schema := local.schema + {statement});
        if ddlPersists {
          db := db.(schema := db.schema + {statement});
        }
      }
    }

    /** Deleting or inserting the version needs its table. */
    method SetVersion(version: Option<int>) returns (ok: bool)
      modifies this
      ensures db == old(db) && executed == old(executed)
      ensures Reliable() ==> (ok <==> table in old(local).schema)
      ensures ok ==> table in old(local).schema && local == old(local).(version := version)
      ensures !ok ==> local == old(local)
    {
      ok := !fails(calls) && table in local.schema;
      calls := calls + 1;
      if ok {
        local := local.(version := version);
      }
    }

    method Commit() returns (ok: bool)
      modifies this
      ensures Reliable() ==> ok
      ensures db == if ok then old(local) else old(db)
      ensures local == old(local) && executed == old(executed)
    {
      ok := !fails(calls);
      calls := calls + 1;
      if ok {
        db := local;
      }
    }

    method Rollback()
      modifies this
      ensures db == old(db) && local == db && executed == old(executed)
    {
      calls := calls + 1;
      local := db;
    }

    method ReadVersion() returns (r: Result<Option<int>, DbError>)
      modifies this
      ensures db == old(db) && executed == old(executed)
      ensures r.Ok? ==> table in db.schema && r.value == db.version
      ensures Reliable() && r.Err? ==> r.error == missingError
      ensures r.Err? ==> r.error == readError || (table !in db.schema && r.error == missingError)
    {
      var failed := fails(calls);
      calls := calls + 1;
      if failed {
        r := Err(readError);
      } else if table in db.schema {
        r := Ok(db.version);
      } else {
        r := Err(missingError);
      }
    }
  }

  /** The driver tells a missing table from every other failure. */
  predicate TellsMissingTable(dialect: Dialect, readError: DbError, missingError: DbError) {
    !IsTableNotFound(dialect, readError) && IsTableNotFound(dialect, missingError)
  }

  method ReadSchemaVersion(conn: Connection, dialect: Dialect) returns (r: Option<int>)
    requires TellsMissingTable(dialect, conn.readError, conn.missingError)
    modifies conn
    ensures conn.db == old(conn.db) && conn.executed == old(conn.executed)
    ensures r.Some? ==> r.value == CurrentVersion(conn.table, conn.db)
    ensures conn.Reliable() ==> r.Some?
  {
    var raw := conn.ReadVersion();
    match raw {
      case Ok(Some(v)) => r := Some(v);
      case Ok(None) => r := Some(0);
      case Err(e) =>
        if dialect != Sqlite {
          conn.Rollback();
        }
        r := if IsTableNotFound(dialect, e) then Some(0) else None;
    }
  }

  /** One migration in its own transaction. */
  method Migrate(conn: Connection, migration: seq<Statement>) returns (ok: bool)
    modifies conn
    ensures conn.Reliable() ==> ok
    ensures conn.db.version == old(conn.db).version
    ensures old(conn.executed) <= conn.executed <= old(conn.executed) + migration
    ensures ok ==> conn.executed == old(conn.executed) + migration
    ensures ok ==> conn.db.schema == old(conn.db).schema + StatementsOf([migration])
    ensures old(conn.db).schema <= conn.db.schema <= old(conn.db).schema + StatementsOf([migration])
  {
    ghost var all := StatementsOf([migration]);
    assert forall s :: s in migration ==> migration in [migration] && s in all;
    ghost var before := conn.db;
    var began := conn.Begin();
    if !began {
      return false;
    }
    var i := 0;
    while i < |migration|
      invariant 0 <= i <= |migration|
      invariant conn.db.version == conn.local.version == before.version
      invariant conn.executed == old(conn.executed) + migration[..i]
      invariant conn.local.schema == before.schema + Taken(migration, i)
      invariant conn.db.schema == if conn.ddlPersists then conn.local.schema else before.schema
    {
      var done := conn.Execute(migration[i]);
      if !done {
        conn.Rollback();
        return false;
      }
      assert Taken(migration, i + 1) == Taken(migration, i) + {migration[i]};
      i := i + 1;
    }
    assert Taken(migration, i) == all && migration[..i] == migration;
    ok := conn.Commit();
    if !ok {
      conn.Rollback();
    }
  }

  function Taken(migration: seq<Statement>, n: nat): set<Statement>
    requires n <= |migration|
  {
    set i | 0 <= i < n :: migration[i]
  }

  lemma StatementsOfConcat(a: seq<seq<Statement>>, b: seq<seq<Statement>>)
    ensures StatementsOf(a + b) == StatementsOf(a) + StatementsOf(b)
  {
    forall s | s in StatementsOf(a) + StatementsOf(b) ensures s in StatementsOf(a + b) {
      var m :| (m in a || m in b) && s in m;
      assert m in a + b;
    }
  }

  /** The statements of some migrations, in order. */
  function Flat(migrations: seq<seq<Statement>>): seq<Statement> {
    if migrations == [] then [] else migrations[0] + Flat(migrations[1..])
  }

  /** The statements of the contiguous revisions above `v`, in order. */
  function Script(revisions: seq<Revision>, v: int): seq<Statement>
    requires IsRevisionList(revisions)
    decreases U32 - v % U32
  {
    var next := Find(revisions, v + 1);
    if next.Some? then
      NextFound(revisions, v);
      Flat(next.value.migrations) + Script(revisions, v + 1)
    else []
  }

  /** The migrations of one revision, each in its own transaction. */
  lemma OneMoreMigration(migrations: seq<seq<Statement>>, i: nat)
    requires i < |migrations|
    ensures Flat(migrations[i..]) == migrations[i] + Flat(migrations[i + 1..])
    ensures StatementsOf(migrations[..i + 1]) == StatementsOf(migrations[..i]) + StatementsOf([migrations[i]])
    ensures StatementsOf(migrations[..i + 1]) <= StatementsOf(migrations)
  {
    assert migrations[i..][0] == migrations[i] && migrations[i..][1..] == migrations[i + 1..];
    StatementsOfConcat(migrations[..i], [migrations[i]]);
    assert migrations[..i + 1] == migrations[..i] + [migrations[i]];
    StatementsOfConcat(migrations[..i + 1], migrations[i + 1..]);
    assert migrations == migrations[..i + 1] + migrations[i + 1..];
  }

  method Build(conn: Connection, migrations: seq<seq<Statement>>) returns (ok: bool)
    modifies conn
    ensures conn.Reliable() ==> ok
    ensures conn.db.version == old(conn.db).version
    ensures old(conn.executed) <= conn.executed <= old(conn.executed) + Flat(migrations)
    ensures ok ==> conn.executed == old(conn.executed) + Flat(migrations)
    ensures ok ==> conn.db.schema == old(conn.db).schema + StatementsOf(migrations)
    ensures old(conn.db).schema <= conn.db.schema <= old(conn.db).schema + StatementsOf(migrations)
  {
    ghost var before := conn.db;
    var i := 0;
    while i < |migrations|
      invariant 0 <= i <= |migrations|
      invariant conn.db == before.(schema := before.schema + StatementsOf(migrations[..i]))
      invariant conn.executed + Flat(migrations[i..]) == old(conn.executed) + Flat(migrations)
      invariant old(conn.executed) <= conn.executed
    {
      OneMoreMigration(migrations, i);
      var done := Migrate(conn, migrations[i]);
      if !done {
        return false;
      }
      i := i + 1;
    }
    assert migrations[..i] == migrations;
    ok := true;
  }

  /** Replaces the stored version, in a transaction of its own. */
  method RecordVersion(conn: Connection, version: int) returns (ok: bool)
    modifies conn
    ensures conn.Reliable() ==> (ok <==> conn.table in old(conn.db).schema)
    ensures conn.executed == old(conn.executed)
    ensures ok ==> conn.table in old(conn.db).schema && conn.db == old(conn.db).(version := Some(version))
    ensures !ok ==> conn.db == old(conn.db)
  {
    ok := conn.Begin();
    if !ok {
      return;
    }
    ok := conn.SetVersion(None);
    if ok {
      ok := conn.SetVersion(Some(version));
    }
    if ok {
      ok := conn.Commit();
    }
    if !ok {
      conn.Rollback();
    }
  }

  /** The table holding the version is there or among what is pending. */
  predicate IsBootstrapped(table: Statement, revisions: seq<Revision>, db: Database)
    requires IsRevisionList(revisions)
  {
    table in db.schema + Pending(revisions, CurrentVersion(table, db))
  }

  /** The three descriptions of what is pending, where there is a next revision and where there is none. */
  lemma NextRevision(revisions: seq<Revision>, v: int)
    requires IsRevisionList(revisions)
    ensures Find(revisions, v + 1).None? ==>
      Script(revisions, v) == [] && Pending(revisions, v) == {} && Reach(revisions, v) == v
    ensures Find(revisions, v + 1).Some? ==>
      var migrations := Find(revisions, v + 1).value.migrations;
      && Script(revisions, v) == Flat(migrations) + Script(revisions, v + 1)
      && Pending(revisions, v) == StatementsOf(migrations) + Pending(revisions, v + 1)
      && Reach(revisions, v) == Reach(revisions, v + 1)
  {
  }

  /** The loop: builds revision after revision, and stops at the first number that has none. */
  method BuildPending(conn: Connection, revisions: seq<Revision>, current: int) returns (ok: bool, num: int)
    requires IsRevisionList(revisions)
    modifies conn
    ensures conn.db.version == old(conn.db).version
    ensures old(conn.executed) <= conn.executed <= old(conn.executed) + Script(revisions, current)
    ensures ok ==> conn.executed == old(conn.executed) + Script(revisions, current)
    ensures old(conn.db).schema <= conn.db.schema <= old(conn.db).schema + Pending(revisions, current)
    ensures ok ==> conn.db.schema == old(conn.db).schema + Pending(revisions, current)
    ensures ok ==> num == Reach(revisions, current) + 1
    ensures conn.Reliable() ==> ok
  {
    hide Script, Pending, Reach, Flat, StatementsOf;
    ghost var before := conn.db;
    num := current;
    while true
      invariant conn.db.version == before.version
      invariant before.schema <= conn.db.schema
      invariant old(conn.executed) <= conn.executed
      invariant conn.executed + Script(revisions, num) == old(conn.executed) + Script(revisions, current)
      invariant conn.db.schema + Pending(revisions, num) == before.schema + Pending(revisions, current)
      invariant Reach(revisions, num) == Reach(revisions, current)
      decreases U32 - num % U32
    {
      NextRevision(revisions, num);
      num := num + 1;
      var found := Find(revisions, num);
      if found.None? {
        return true, num;
      }
      NextFound(revisions, num - 1);
      var built := Build(conn, found.value.migrations);
      if !built {
        return false, num;
      }
    }
  }

  /** Brings the schema up to date. */
  method Run(conn: Connection, dialect: Dialect, revisions: seq<Revision>) returns (ok: bool)
    requires IsRevisionList(revisions) && IsConsistent(conn.table, conn.db)
    requires TellsMissingTable(dialect, conn.readError, conn.missingError)
    modifies conn
    ensures IsConsistent(conn.table, conn.db)
    ensures MayRun(conn.table, revisions, old(conn.db), conn.db, ok)
    ensures var script := Script(revisions, CurrentVersion(conn.table, old(conn.db)));
      && old(conn.executed) <= conn.executed <= old(conn.executed) + script
      && (ok ==> conn.executed == old(conn.executed) + script)
    ensures conn.Reliable() && IsBootstrapped(conn.table, revisions, old(conn.db)) ==> ok
  {
    var read := ReadSchemaVersion(conn, dialect);
    if read.None? {
      return false;
    }
    var current := read.value;
    if current == MaxNumber(revisions) {
      NothingAboveTheLast(revisions);
      return true;
    }
    var num;
    ok, num := BuildPending(conn, revisions, current);
    if ok {
      ok := RecordVersion(conn, num - 1);
    }
  }

  lemma NothingAboveTheLast(revisions: seq<Revision>)
    requires IsRevisionList(revisions)
    ensures Find(revisions, MaxNumber(revisions) + 1).None?
  {
    MaxIsNumber(revisions);
    FindFinds(revisions, MaxNumber(revisions) + 1);
  }

  lemma {:induction false} MaxIsNumber(revisions: seq<Revision>)
    requires IsRevisionList(revisions)
    ensures 0 <= MaxNumber(revisions) < U32
  {
    if revisions != [] {
      MaxIsNumber(revisions[1..]);
      assert revisions[0] in revisions;
    }
  }

  // ---------- what runs add up to ----------

  /** Runs one after the other: `dbs[k]` is the database before run `k`, and all but the last fail. */
  predicate Attempts(table: Statement, revisions: seq<Revision>, dbs: seq<Database>)
    requires IsRevisionList(revisions)
  {
    |dbs| > 0 && forall k: nat :: k + 1 < |dbs| ==> FailsInto(table, revisions, dbs, k)
  }

  predicate FailsInto(table: Statement, revisions: seq<Revision>, dbs: seq<Database>, k: nat)
    requires IsRevisionList(revisions) && k + 1 < |dbs|
  {
    MayRun(table, revisions, dbs[k], dbs[k + 1], false)
  }

  /**
   Any number of failed runs and then a successful one end where one uninterrupted run ends: the
   same schema and the same version.
   */
  lemma {:induction false} RunsConverge(table: Statement, revisions: seq<Revision>, dbs: seq<Database>, interrupted: Database, straight: Database)
    requires IsRevisionList(revisions) && Attempts(table, revisions, dbs) && IsConsistent(table, dbs[0])
    requires MayRun(table, revisions, dbs[|dbs| - 1], interrupted, true)
    requires MayRun(table, revisions, dbs[0], straight, true)
    ensures interrupted.schema == straight.schema
    ensures CurrentVersion(table, interrupted) == CurrentVersion(table, straight)
    decreases |dbs|
  {
    if |dbs| > 1 {
      assert FailsInto(table, revisions, dbs, 0);
      VersionNeverFalls(table, revisions, dbs[0], dbs[1], false);
      forall k: nat | k + 1 < |dbs[1..]| ensures FailsInto(table, revisions, dbs[1..], k) {
        assert FailsInto(table, revisions, dbs, k + 1);
      }
      var resumed := Database(dbs[1].schema + Pending(revisions, CurrentVersion(table, dbs[1])), straight.version);
      assert resumed.schema == straight.schema;
      RunsConverge(table, revisions, dbs[1..], interrupted, resumed);
    }
  }

  /** A failed run leaves the version as it was, and a successful one never lowers it. */
  lemma VersionNeverFalls(table: Statement, revisions: seq<Revision>, before: Database, after: Database, ok: bool)
    requires IsRevisionList(revisions) && IsConsistent(table, before) && MayRun(table, revisions, before, after, ok)
    ensures CurrentVersion(table, before) <= CurrentVersion(table, after)
    ensures !ok ==> CurrentVersion(table, after) == CurrentVersion(table, before) && IsConsistent(table, after)
  {
  }

  /** A run that succeeds holds every revision up to the version it records, and stops only at a gap. */
  lemma {:induction false} RunReachesTheGap(revisions: seq<Revision>, v: int, n: int)
    requires IsRevisionList(revisions) && v < n <= Reach(revisions, v)
    ensures Find(revisions, n).Some?
    ensures StatementsOf(Find(revisions, n).value.migrations) <= Pending(revisions, v)
    decreases n - v
  {
    if Find(revisions, v + 1).Some? && v + 1 < n { RunReachesTheGap(revisions, v + 1, n); }
  }

  /** Nothing else is created. */
  lemma {:induction false} PendingComesFrom(revisions: seq<Revision>, v: int, s: Statement) returns (n: int)
    requires IsRevisionList(revisions) && s in Pending(revisions, v)
    ensures v < n <= Reach(revisions, v) && Find(revisions, n).Some?
    ensures s in StatementsOf(Find(revisions, n).value.migrations)
    decreases U32 - v % U32
  {
    NextFound(revisions, v);
    n := v + 1;
    if s !in StatementsOf(Find(revisions, n).value.migrations) { n := PendingComesFrom(revisions, v + 1, s); }
  }

  /**
   The version is looked up truncated to 32 bits. A database whose version is at or above the last
   revision is left alone by every 32-bit version; above that it is left alone only if the
   truncated number happens not to be a revision's.
   */
  lemma NewerDatabaseIsLeftAlone(revisions: seq<Revision>, v: int)
    requires IsRevisionList(revisions) && MaxNumber(revisions) <= v
    ensures 0 <= v < U32 ==> Reach(revisions, v) == v && Pending(revisions, v) == {}
    ensures Reach(revisions, v) == v <==> forall r :: r in revisions ==> r.number != (v + 1) % U32
  {
    FindFinds(revisions, v + 1);
    MaxIsNumber(revisions);
    if Find(revisions, v + 1).Some? {
      NextFound(revisions, v);
    }
  }

  /** Version 2^32 has the first revision built again, and the version becomes 2^32 + 1. */
  lemma WideVersionIsBuiltAgain(first: Revision)
    requires first.number == 1
    ensures Reach([first], U32) == U32 + 1 && Pending([first], U32) == StatementsOf(first.migrations)
  {
    assert (U32 + 1) % U32 == 1 && (U32 + 2) % U32 == 2;
    assert Find([first], U32 + 1) == Some(first);
    assert Find([first], U32 + 2) == None;
    assert Pending([first], U32 + 1) == {};
    assert Reach([first], U32 + 1) == U32 + 1;
  }

  // ---------- every dialect can be set up ----------

  /**
   A successful run is possible exactly from databases that have the version's table or get it, or
   where there is nothing to record; so the theorems about successful runs are about all dialects.
   */
  lemma WhenRunsCanSucceed(table: Statement, revisions: seq<Revision>, before: Database)
    requires IsRevisionList(revisions)
    ensures (exists after :: MayRun(table, revisions, before, after, true))
      <==> IsBootstrapped(table, revisions, before) || Reach(revisions, CurrentVersion(table, before)) == 0
  {
    var current := CurrentVersion(table, before);
    if IsBootstrapped(table, revisions, before) || Reach(revisions, current) == 0 {
      var after := Database(before.schema + Pending(revisions, current), Some(Reach(revisions, current)));
      assert MayRun(table, revisions, before, after, true);
    }
  }

  /** In every dialect the first migration of the first revision creates the version's table, which is all that is needed. */
  lemma FirstRevisionBootstraps(dialect: Dialect, more: seq<seq<Statement>>, later: seq<Revision>, db: Database)
    requires IsRevisionList(later) && CurrentVersion(VersionTable(dialect), db) == 0
    ensures var revisions := [Revision(1, [[VersionTable(dialect)]] + more)] + later;
      IsRevisionList(revisions) && IsBootstrapped(VersionTable(dialect), revisions, db)
  {
    CreatingTheTableBootstraps(VersionTable(dialect), more, later, db);
  }

  lemma CreatingTheTableBootstraps(table: Statement, more: seq<seq<Statement>>, later: seq<Revision>, db: Database)
    requires IsRevisionList(later) && CurrentVersion(table, db) == 0
    ensures var revisions := [Revision(1, [[table]] + more)] + later;
      IsRevisionList(revisions) && IsBootstrapped(table, revisions, db)
  {
    var first := Revision(1, [[table]] + more);
    var revisions := [first] + later;
    assert revisions[0] == first && Find(revisions, 1) == Some(first);
    assert first.migrations[0] == [table] && table in first.migrations[0];
    assert table in StatementsOf(first.migrations);
  }
}
