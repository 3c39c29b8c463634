/** Schema migrations (hindsight-mcp, migrations.rs) and the thin wrappers
    `Database::initialize`, `is_initialized` and `schema_version` around them.

    The SQL of a migration is reduced to its effect on a `Database`: the
    initial schema's up script creates the entity tables if they are missing
    (keeping any rows) and records its version in `schema_migrations`; its
    down script drops every table, `schema_migrations` included. */
module Migrations {
  import opened Wrappers
  import opened Db

  const CURRENT_VERSION: int := 1

  datatype Script = InitialSchemaUp | InitialSchemaDown

  datatype Migration = Migration(version: int, name: string, up: Script, down: Option<Script>)

  /** Every migration, in order of version. */
  const MIGRATIONS: seq<Migration> := [Migration.Migration(1, "initial_schema", InitialSchemaUp, Some(InitialSchemaDown))]

  /** `COALESCE(MAX(version), 0)`. */
  function MaxOrZero(vs: seq<int>): (r: int)
    ensures vs == [] ==> r == 0
    ensures vs != [] ==> r in vs && forall v :: v in vs ==> v <= r
  {
    if vs == [] then 0
    else if |vs| == 1 then vs[0]
    else
      var m := MaxOrZero(vs[1..]);
      assert forall v :: v in vs ==> v == vs[0] || v in vs[1..];
      if vs[0] >= m then vs[0] else m
  }

  /** `get_version`: 0 while `schema_migrations` does not exist, otherwise
      the highest recorded version (0 for an empty ledger). */
  function GetVersion(db: Database): (r: int)
    reads db`ledger
    ensures db.ledger.None? ==> r == 0
    ensures db.ledger.Some? && db.ledger.value == [] ==> r == 0
    ensures db.ledger.Some? && db.ledger.value != [] ==>
      r in db.ledger.value && forall v :: v in db.ledger.value ==> v <= r
  {
    match db.ledger
    case None => 0
    case Some(vs) => MaxOrZero(vs)
  }

  /** The versions `migrate` applies, in order: those above `current`. */
  function Pending(ms: seq<Migration>, current: int): (r: seq<int>)
    ensures |r| <= |ms|
    ensures forall v :: v in r <==> exists m :: m in ms && m.version == v && m.version > current
  {
    if ms == [] then []
    else
      var rest := Pending(ms[..|ms| - 1], current);
      var m := ms[|ms| - 1];
      assert forall x :: x in ms <==> x in ms[..|ms| - 1] || x == m;
      if m.version > current then rest + [m.version] else rest
  }

  /** The versions `rollback_to` undoes, newest first: those in
      `(target, current]` with a down script. */
  function RollbackVersions(ms: seq<Migration>, target: int, current: int): (r: seq<int>)
    ensures |r| <= |ms|
    ensures forall v :: v in r <==> exists m :: m in ms && m.version == v && target < v <= current && m.down.Some?
  {
    if ms == [] then []
    else
      var m := ms[|ms| - 1];
      var rest := RollbackVersions(ms[..|ms| - 1], target, current);
      assert forall x :: x in ms <==> x in ms[..|ms| - 1] || x == m;
      if target < m.version <= current && m.down.Some? then [m.version] + rest else rest
  }

  /** `execute_batch` of a migration script. */
  method RunScript(db: Database, s: Script)
    requires db.Valid()
    modifies db
    ensures db.Valid()
    ensures unchanged(db`foreignKeys)
    ensures s == InitialSchemaUp ==>
      db.tablesExist && db.ledger == Some(old(db.ledger).GetOr([]) + [1]) &&
      db.workspaces == old(db.workspaces) && db.commits == old(db.commits) &&
      db.testRuns == old(db.testRuns) && db.testResults == old(db.testResults) &&
      db.sessions == old(db.sessions) && db.messages == old(db.messages)
    ensures s == InitialSchemaDown ==> !db.tablesExist && db.ledger.None?
  {
    match s
    case InitialSchemaUp =>
      db.tablesExist := true;
      db.ledger := Some(db.ledger.GetOr([]) + [1]);
    case InitialSchemaDown =>
      db.tablesExist := false;
      db.ledger := None;
      db.workspaces := [];
      db.commits := [];
      db.testRuns := [];
      db.testResults := [];
      db.sessions := [];
      db.messages := [];
  }

  /** `migrate`: apply every migration newer than the recorded version and
      return their versions. Afterwards the database stands at
      `CURRENT_VERSION` (or above), so a second `migrate` applies nothing. */
  method Migrate(db: Database) returns (applied: seq<int>)
    requires db.Valid()
    modifies db
    ensures db.Valid()
    ensures applied == Pending(MIGRATIONS, old(GetVersion(db)))
    ensures GetVersion(db) == if old(GetVersion(db)) >= CURRENT_VERSION then old(GetVersion(db)) else CURRENT_VERSION
    ensures applied == [] ==> db.ledger == old(db.ledger) && db.tablesExist == old(db.tablesExist)
    ensures applied != [] ==> db.tablesExist && db.ledger == Some(old(db.ledger).GetOr([]) + applied)
    ensures old(GetVersion(db)) < CURRENT_VERSION ==> applied == [CURRENT_VERSION]
    ensures Pending(MIGRATIONS, GetVersion(db)) == []
    ensures db.workspaces == old(db.workspaces) && db.commits == old(db.commits)
    ensures db.testRuns == old(db.testRuns) && db.testResults == old(db.testResults)
    ensures db.sessions == old(db.sessions) && db.messages == old(db.messages)
    ensures unchanged(db`foreignKeys)
  {
    var current := GetVersion(db);
    ghost var before := db.ledger.GetOr([]);
    applied := [];
    var i := 0;
    while i < |MIGRATIONS|
      invariant 0 <= i <= |MIGRATIONS|
      invariant db.Valid()
      invariant applied == Pending(MIGRATIONS[..i], current)
      invariant applied == [] ==> db.ledger == old(db.ledger) && db.tablesExist == old(db.tablesExist)
      invariant applied != [] ==> db.tablesExist && db.ledger == Some(before + applied)
      invariant db.workspaces == old(db.workspaces) && db.commits == old(db.commits)
      invariant db.testRuns == old(db.testRuns) && db.testResults == old(db.testResults)
      invariant db.sessions == old(db.sessions) && db.messages == old(db.messages)
      invariant unchanged(db`foreignKeys)
    {
      var m := MIGRATIONS[i];
      assert m.up == InitialSchemaUp && m.version == 1;
      assert MIGRATIONS[..i + 1] == MIGRATIONS[..i] + [m];
      if m.version > current {
        RunScript(db, m.up);
        assert db.ledger.value == before + (applied + [1]);
        applied := applied + [m.version];
      }
      i := i + 1;
    }
    assert MIGRATIONS[..i] == MIGRATIONS;
    if applied != [] {
      assert applied == [1];
      var vs := before;
      assert forall v :: v in vs ==> v <= current;
      assert db.ledger.value == vs + [1];
      assert 1 > current;
      assert forall v :: v in vs + [1] ==> v <= 1;
      assert GetVersion(db) == 1 by {
        var r := GetVersion(db);
        assert r in vs + [1];
        assert 1 in db.ledger.value;
      }
    }
  }

  /** `rollback_to`: undo, newest first, every applied migration above
      `target` that has a down script, and return their versions. */
  method RollbackTo(db: Database, target: int) returns (rolledBack: seq<int>)
    requires db.Valid()
    modifies db
    ensures db.Valid()
    ensures rolledBack == RollbackVersions(MIGRATIONS, target, old(GetVersion(db)))
    ensures rolledBack == [] ==>
      db.ledger == old(db.ledger) && db.tablesExist == old(db.tablesExist) &&
      db.workspaces == old(db.workspaces) && db.commits == old(db.commits) &&
      db.testRuns == old(db.testRuns) && db.testResults == old(db.testResults) &&
      db.sessions == old(db.sessions) && db.messages == old(db.messages)
    ensures rolledBack != [] ==> !db.tablesExist && db.ledger.None? && GetVersion(db) == 0
    ensures unchanged(db`foreignKeys)
  {
    var current := GetVersion(db);
    rolledBack := [];
    var i := |MIGRATIONS|;
    while i > 0
      invariant 0 <= i <= |MIGRATIONS|
      invariant db.Valid()
      invariant rolledBack == RollbackVersions(MIGRATIONS[i..], target, current)
      invariant rolledBack == [] ==>
        db.ledger == old(db.ledger) && db.tablesExist == old(db.tablesExist) &&
        db.workspaces == old(db.workspaces) && db.commits == old(db.commits) &&
        db.testRuns == old(db.testRuns) && db.testResults == old(db.testResults) &&
        db.sessions == old(db.sessions) && db.messages == old(db.messages)
      invariant rolledBack != [] ==> !db.tablesExist && db.ledger.None?
      invariant unchanged(db`foreignKeys)
    {
      i := i - 1;
      var m := MIGRATIONS[i];
      if target < m.version <= current && m.down.Some? {
        RunScript(db, m.down.value);
        rolledBack := [m.version] + rolledBack;
      }
    }
  }

  /** `is_up_to_date`: the ledger records a version at or above
      `CURRENT_VERSION`. */
  predicate IsUpToDate(db: Database)
    reads db`ledger
    ensures IsUpToDate(db) <==> db.ledger.Some? && exists v :: v in db.ledger.value && v >= CURRENT_VERSION
  {
    GetVersion(db) >= CURRENT_VERSION
  }

  /** `Database::initialize`: run the pending migrations. */
  method Initialize(db: Database) returns (r: Result<(), DbError>)
    requires db.Valid()
    modifies db
    ensures db.Valid() && r.Ok?
    ensures IsUpToDate(db)
    ensures !old(IsUpToDate(db)) ==> db.tablesExist
    ensures db.workspaces == old(db.workspaces) && db.commits == old(db.commits)
    ensures db.testRuns == old(db.testRuns) && db.testResults == old(db.testResults)
    ensures db.sessions == old(db.sessions) && db.messages == old(db.messages)
  {
    var applied := Migrate(db);
    return Ok(());
  }

  /** `Database::is_initialized`. */
  function IsInitialized(db: Database): (r: bool)
    reads db`ledger
    ensures r <==> db.ledger.Some? && exists v :: v in db.ledger.value && v >= CURRENT_VERSION
  {
    GetVersion(db) >= CURRENT_VERSION
  }

  /** `Database::schema_version`. */
  function SchemaVersion(db: Database): (r: Result<int, DbError>)
    reads db`ledger
    ensures r.Ok? && (db.ledger.None? ==> r.value == 0)
    ensures r.Ok? && (db.ledger.Some? && db.ledger.value != [] ==> r.value in db.ledger.value)
  {
    Ok(GetVersion(db))
  }

  /** A fresh in-memory database is not initialised; after `migrate` it is,
      and a second `migrate` applies nothing. */
  method MigrateFreshTwice() returns (db: Database, first: seq<int>, second: seq<int>)
    ensures fresh(db) && db.Valid()
    ensures first == [1] && second == []
    ensures IsUpToDate(db) && db.tablesExist && db.ledger == Some([1])
  {
    db := new Database.InMemory();
    assert !IsUpToDate(db);
    first := Migrate(db);
    second := Migrate(db);
  }
}
