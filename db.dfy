/** The record store (hindsight-mcp, db.rs).

    The SQLite connection becomes the class `Database`, whose tables are
    sequences of rows in rowid order. `tablesExist` says whether the entity
    tables have been created (by the initial migration), `ledger` is the
    `schema_migrations` table (None while it does not exist), and
    `foreignKeys` is SQLite's `PRAGMA foreign_keys`, off unless a caller
    turns it on. The table definitions are not part of this model; the keys
    assumed are: every `id` is the primary key, workspace `path` is unique,
    `(workspace_id, sha)` is unique for commits and
    `(workspace_id, vscode_session_id)` for sessions, and the parent
    columns reference their parent's `id`.

    Times are seconds since the epoch. UUIDs and the current time are passed
    in by the caller. JSON columns hold the value that would be serialised. */
module Db {
  import opened Wrappers
  import opened Text
  import opened Ordering
  import GitWalk

  datatype SqliteError =
    | NoSuchTable(table: string)
    | UniqueViolation(constraint: string)
    | ForeignKeyViolation(table: string)
  {
    /** SQLite's own message for the failure. */
    function Text(): string {
      match this
      case NoSuchTable(table) => "no such table: " + table
      case UniqueViolation(constraint) => "UNIQUE constraint failed: " + constraint
      case ForeignKeyViolation(_) => "FOREIGN KEY constraint failed"
    }
  }

  datatype DbError =
    | Sqlite(cause: SqliteError)
    | Migration(message: string)
    | NotInitialized
    | NotFound(table: string, id: string)
    | Json(message: string)
  {
    /** The `Display` text of the error. */
    function Text(): string {
      match this
      case Sqlite(cause) => "SQLite error: " + cause.Text()
      case Migration(message) => "Migration error: " + message
      case NotInitialized => "Database not initialized"
      case NotFound(table, id) => "Record not found: " + table + "/" + id
      case Json(message) => "JSON error: " + message
    }
  }

  /** Rust's `as i32` on a non-negative count: keep the low 32 bits and read
      them as two's complement. */
  function CastI32(n: nat): (r: int)
    ensures -0x8000_0000 <= r < 0x8000_0000
    ensures (n - r) % 0x1_0000_0000 == 0
    ensures n < 0x8000_0000 ==> r == n
  {
    var low := n % 0x1_0000_0000;
    if low < 0x8000_0000 then low else low - 0x1_0000_0000
  }

  /** Rust's `as i64` on a `u64`. */
  function CastI64(n: nat): (r: int)
    ensures -0x8000_0000_0000_0000 <= r < 0x8000_0000_0000_0000
    ensures (n - r) % 0x1_0000_0000_0000_0000 == 0
    ensures n < 0x8000_0000_0000_0000 ==> r == n
  {
    var low := n % 0x1_0000_0000_0000_0000;
    if low < 0x8000_0000_0000_0000 then low else low - 0x1_0000_0000_0000_0000
  }

  // ------------------------------------------------------------ record types

  datatype WorkspaceRecord = WorkspaceRecord(id: string, name: string, path: string, createdAt: int, updatedAt: int)

  /** `WorkspaceRecord::new`: created and updated at the same instant. */
  function NewWorkspaceRecord(name: string, path: string, id: string, now: int): (r: WorkspaceRecord)
    ensures r.id == id && r.name == name && r.path == path
    ensures r.createdAt == now && r.updatedAt == r.createdAt
  {
    WorkspaceRecord(id, name, path, now, now)
  }

  datatype CommitRecord = CommitRecord(
    id: string,
    workspaceId: string,
    sha: string,
    author: string,
    authorEmail: Option<string>,
    message: string,
    timestamp: int,
    parentsJson: Option<seq<string>>,
    diffJson: Option<GitWalk.DiffSummary>,
    createdAt: int)
  {
    /** Record the parent shas; nothing else changes. */
    function WithParents(parents: seq<string>): (r: CommitRecord)
      ensures r.parentsJson == Some(parents)
      ensures r.(parentsJson := parentsJson) == this
    {
      this.(parentsJson := Some(parents))
    }

    /** Record the diff summary; nothing else changes. */
    function WithDiffJson(diff: GitWalk.DiffSummary): (r: CommitRecord)
      ensures r.diffJson == Some(diff)
      ensures r.(diffJson := diffJson) == this
    {
      this.(diffJson := Some(diff))
    }
  }

  /** `CommitRecord::new`: no parents and no diff yet. */
  function NewCommitRecord(workspaceId: string, sha: string, author: string, authorEmail: Option<string>,
                           message: string, timestamp: int, id: string, now: int): (r: CommitRecord)
    ensures r.id == id && r.workspaceId == workspaceId && r.sha == sha && r.timestamp == timestamp
    ensures r.author == author && r.authorEmail == authorEmail && r.message == message
    ensures r.parentsJson.None? && r.diffJson.None? && r.createdAt == now
  {
    CommitRecord(id, workspaceId, sha, author, authorEmail, message, timestamp, None, None, now)
  }

  datatype TestRunRecord = TestRunRecord(
    id: string,
    workspaceId: string,
    commitSha: Option<string>,
    startedAt: int,
    finishedAt: Option<int>,
    passedCount: int,
    failedCount: int,
    ignoredCount: int,
    metadataJson: Option<string>)
  {
    /** Link to a commit; only `commit_sha` changes. */
    function WithCommit(sha: string): (r: TestRunRecord)
      ensures r.commitSha == Some(sha)
      ensures r.(commitSha := commitSha) == this
    {
      this.(commitSha := Some(sha))
    }

    /** Mark finished at `now` with the given counts; nothing else changes. */
    function Finished(passed: int, failed: int, ignored: int, now: int): (r: TestRunRecord)
      ensures r.finishedAt == Some(now)
      ensures r.passedCount == passed && r.failedCount == failed && r.ignoredCount == ignored
      ensures r.id == id && r.workspaceId == workspaceId && r.commitSha == commitSha
      ensures r.startedAt == startedAt && r.metadataJson == metadataJson
    {
      this.(finishedAt := Some(now), passedCount := passed, failedCount := failed, ignoredCount := ignored)
    }
  }

  /** `TestRunRecord::new`: started now, unfinished, zero counts, no commit. */
  function NewTestRunRecord(workspaceId: string, id: string, now: int): (r: TestRunRecord)
    ensures r.id == id && r.workspaceId == workspaceId && r.startedAt == now
    ensures r.commitSha.None? && r.finishedAt.None? && r.metadataJson.None?
    ensures r.passedCount == 0 && r.failedCount == 0 && r.ignoredCount == 0
  {
    TestRunRecord(id, workspaceId, None, now, None, 0, 0, 0, None)
  }

  /** The `{"stdout": …, "stderr": …}` object of a test result. */
  datatype TestOutput = TestOutput(stdout: Option<string>, stderr: Option<string>)

  datatype TestResultRecord = TestResultRecord(
    id: string,
    runId: string,
    suiteName: string,
    testName: string,
    outcome: string,
    durationMs: Option<int>,
    outputJson: Option<TestOutput>,
    createdAt: int)
  {
    /** Attach the output, but only when there is some. */
    function WithOutput(stdout: Option<string>, stderr: Option<string>): (r: TestResultRecord)
      ensures stdout.None? && stderr.None? ==> r == this
      ensures stdout.Some? || stderr.Some? ==> r.outputJson == Some(TestOutput(stdout, stderr))
      ensures r.(outputJson := outputJson) == this
    {
      if stdout.Some? || stderr.Some? then this.(outputJson := Some(TestOutput(stdout, stderr))) else this
    }
  }

  /** `TestResultRecord::new`: no output yet. */
  function NewTestResultRecord(runId: string, suiteName: string, testName: string, outcome: string,
                               durationMs: Option<int>, id: string, now: int): (r: TestResultRecord)
    ensures r.id == id && r.runId == runId && r.suiteName == suiteName && r.testName == testName
    ensures r.outcome == outcome && r.durationMs == durationMs && r.outputJson.None? && r.createdAt == now
  {
    TestResultRecord(id, runId, suiteName, testName, outcome, durationMs, None, now)
  }

  /** The `{"model": …, "mode": …}` object of a session. */
  datatype SessionMetadata = SessionMetadata(model: Option<string>, mode: Option<string>)

  datatype CopilotSessionRecord = CopilotSessionRecord(
    id: string,
    workspaceId: string,
    vscodeSessionId: string,
    createdAt: int,
    updatedAt: int,
    metadataJson: Option<SessionMetadata>)
  {
    /** Attach model and mode, but only when at least one is known. */
    function WithMetadata(model: Option<string>, mode: Option<string>): (r: CopilotSessionRecord)
      ensures model.None? && mode.None? ==> r == this
      ensures model.Some? || mode.Some? ==> r.metadataJson == Some(SessionMetadata(model, mode))
      ensures r.(metadataJson := metadataJson) == this
    {
      if model.Some? || mode.Some? then this.(metadataJson := Some(SessionMetadata(model, mode))) else this
    }
  }

  /** `CopilotSessionRecord::new`: created and updated now, no metadata. */
  function NewCopilotSessionRecord(workspaceId: string, vscodeSessionId: string, id: string, now: int): (r: CopilotSessionRecord)
    ensures r.id == id && r.workspaceId == workspaceId && r.vscodeSessionId == vscodeSessionId
    ensures r.createdAt == now && r.updatedAt == now && r.metadataJson.None?
  {
    CopilotSessionRecord(id, workspaceId, vscodeSessionId, now, now, None)
  }

  datatype CopilotMessageRecord = CopilotMessageRecord(
    id: string,
    sessionId: string,
    requestId: Option<string>,
    role: string,
    content: string,
    variablesJson: Option<string>,
    timestamp: int,
    createdAt: int)
  {
    function WithRequestId(requestId: string): (r: CopilotMessageRecord)
      ensures r.requestId == Some(requestId)
      ensures r.(requestId := this.requestId) == this
    {
      this.(requestId := Some(requestId))
    }

    function WithVariablesJson(json: string): (r: CopilotMessageRecord)
      ensures r.variablesJson == Some(json)
      ensures r.(variablesJson := variablesJson) == this
    {
      this.(variablesJson := Some(json))
    }
  }

  /** `CopilotMessageRecord::new`: no request id and no variables. */
  function NewCopilotMessageRecord(sessionId: string, role: string, content: string, timestamp: int,
                                   id: string, now: int): (r: CopilotMessageRecord)
    ensures r.id == id && r.sessionId == sessionId && r.role == role && r.content == content
    ensures r.timestamp == timestamp && r.createdAt == now
    ensures r.requestId.None? && r.variablesJson.None?
  {
    CopilotMessageRecord(id, sessionId, None, role, content, None, timestamp, now)
  }

  // ------------------------------------------------------------ table facts

  predicate HasWorkspaceId(t: seq<WorkspaceRecord>, id: string) {
    exists k :: 0 <= k < |t| && t[k].id == id
  }

  predicate HasRunId(t: seq<TestRunRecord>, id: string) {
    exists k :: 0 <= k < |t| && t[k].id == id
  }

  predicate HasSessionId(t: seq<CopilotSessionRecord>, id: string) {
    exists k :: 0 <= k < |t| && t[k].id == id
  }

  predicate HasCommit(t: seq<CommitRecord>, workspaceId: string, sha: string) {
    exists k :: 0 <= k < |t| && t[k].workspaceId == workspaceId && t[k].sha == sha
  }

  /** The primary and unique keys the tables keep distinct. */
  predicate WorkspacesDistinct(t: seq<WorkspaceRecord>) {
    forall i, j :: 0 <= i < j < |t| ==> t[i].id != t[j].id && t[i].path != t[j].path
  }

  predicate CommitsDistinct(t: seq<CommitRecord>) {
    forall i, j :: 0 <= i < j < |t| ==>
      t[i].id != t[j].id && (t[i].workspaceId != t[j].workspaceId || t[i].sha != t[j].sha)
  }

  predicate RunsDistinct(t: seq<TestRunRecord>) {
    forall i, j :: 0 <= i < j < |t| ==> t[i].id != t[j].id
  }

  predicate ResultsDistinct(t: seq<TestResultRecord>) {
    forall i, j :: 0 <= i < j < |t| ==> t[i].id != t[j].id
  }

  predicate SessionsDistinct(t: seq<CopilotSessionRecord>) {
    forall i, j :: 0 <= i < j < |t| ==>
      t[i].id != t[j].id && (t[i].workspaceId != t[j].workspaceId || t[i].vscodeSessionId != t[j].vscodeSessionId)
  }

  predicate MessagesDistinct(t: seq<CopilotMessageRecord>) {
    forall i, j :: 0 <= i < j < |t| ==> t[i].id != t[j].id
  }

  /** Index of the workspace stored under `path`. */
  function FindWorkspaceByPath(t: seq<WorkspaceRecord>, path: string): (r: Option<nat>)
    ensures r.Some? ==> r.value < |t| && t[r.value].path == path
    ensures r.None? ==> forall k :: 0 <= k < |t| ==> t[k].path != path
  {
    if t == [] then None
    else if t[0].path == path then Some(0)
    else match FindWorkspaceByPath(t[1..], path)
      case None => None
      case Some(k) => Some(k + 1)
  }

  /** Index of the session stored under `(workspaceId, vscodeSessionId)`. */
  function FindSession(t: seq<CopilotSessionRecord>, workspaceId: string, vscodeSessionId: string): (r: Option<nat>)
    ensures r.Some? ==> r.value < |t| && t[r.value].workspaceId == workspaceId && t[r.value].vscodeSessionId == vscodeSessionId
    ensures r.None? ==> forall k :: 0 <= k < |t| ==> !(t[k].workspaceId == workspaceId && t[k].vscodeSessionId == vscodeSessionId)
  {
    if t == [] then None
    else if t[0].workspaceId == workspaceId && t[0].vscodeSessionId == vscodeSessionId then Some(0)
    else match FindSession(t[1..], workspaceId, vscodeSessionId)
      case None => None
      case Some(k) => Some(k + 1)
  }

  /** Index of the first commit with that workspace and exactly that sha. */
  function FindCommit(t: seq<CommitRecord>, workspaceId: string, sha: string): (r: Option<nat>)
    ensures r.Some? ==> r.value < |t| && t[r.value].workspaceId == workspaceId && t[r.value].sha == sha
    ensures r.None? <==> !HasCommit(t, workspaceId, sha)
  {
    if t == [] then None
    else if t[0].workspaceId == workspaceId && t[0].sha == sha then Some(0)
    else match FindCommit(t[1..], workspaceId, sha)
      case None =>
        assert forall k :: 1 <= k < |t| ==> t[k] == t[1..][k - 1];
        None
      case Some(k) => Some(k + 1)
  }

  // ------------------------------------------------------------ INSERT OR IGNORE

  /** The row would collide with a stored row on its id or its (workspace, sha). */
  predicate CommitConflicts(t: seq<CommitRecord>, x: CommitRecord) {
    exists k :: 0 <= k < |t| && (t[k].id == x.id || (t[k].workspaceId == x.workspaceId && t[k].sha == x.sha))
  }

  /** `INSERT OR IGNORE` of one row. */
  function InsertOrIgnore(t: seq<CommitRecord>, x: CommitRecord): seq<CommitRecord> {
    if CommitConflicts(t, x) then t else t + [x]
  }

  /** `INSERT OR IGNORE` of the rows in order. */
  function InsertOrIgnoreAll(t: seq<CommitRecord>, rs: seq<CommitRecord>): seq<CommitRecord> {
    if rs == [] then t else InsertOrIgnore(InsertOrIgnoreAll(t, rs[..|rs| - 1]), rs[|rs| - 1])
  }

  /** Ignoring rows only ever adds rows at the end, keeps the keys distinct,
      and afterwards every row offered is matched by a stored row. */
  lemma {:induction false} InsertOrIgnoreAllFacts(t: seq<CommitRecord>, rs: seq<CommitRecord>)
    requires CommitsDistinct(t)
    ensures t <= InsertOrIgnoreAll(t, rs)
    ensures CommitsDistinct(InsertOrIgnoreAll(t, rs))
    ensures forall i :: 0 <= i < |rs| ==> CommitConflicts(InsertOrIgnoreAll(t, rs), rs[i])
  {
    if rs != [] {
      var init := rs[..|rs| - 1];
      var x := rs[|rs| - 1];
      InsertOrIgnoreAllFacts(t, init);
      var mid := InsertOrIgnoreAll(t, init);
      var out := InsertOrIgnore(mid, x);
      assert mid <= out;
      forall i | 0 <= i < |rs|
        ensures CommitConflicts(out, rs[i])
      {
        if i < |rs| - 1 {
          assert rs[i] == init[i];
          var k :| 0 <= k < |mid| && (mid[k].id == rs[i].id || (mid[k].workspaceId == rs[i].workspaceId && mid[k].sha == rs[i].sha));
          assert out[k] == mid[k];
        } else if !CommitConflicts(mid, x) {
          assert out[|mid|] == x;
        }
      }
    }
  }

  /** Offering rows that all collide already changes nothing. */
  lemma {:induction false} InsertOrIgnoreAllConflicting(t: seq<CommitRecord>, rs: seq<CommitRecord>)
    requires forall i :: 0 <= i < |rs| ==> CommitConflicts(t, rs[i])
    ensures InsertOrIgnoreAll(t, rs) == t
  {
    if rs != [] {
      InsertOrIgnoreAllConflicting(t, rs[..|rs| - 1]);
    }
  }

  /** Ingesting the same commits twice stores them once: a second
      `INSERT OR IGNORE` pass is a no-op. */
  lemma InsertOrIgnoreAllIdempotent(t: seq<CommitRecord>, rs: seq<CommitRecord>)
    requires CommitsDistinct(t)
    ensures InsertOrIgnoreAll(InsertOrIgnoreAll(t, rs), rs) == InsertOrIgnoreAll(t, rs)
  {
    InsertOrIgnoreAllFacts(t, rs);
    InsertOrIgnoreAllConflicting(InsertOrIgnoreAll(t, rs), rs);
  }

  /** A row of a commit batch that violates the foreign key when it is
      actually inserted (rows ignored as duplicates are never checked). */
  predicate CommitBatchFails(t: seq<CommitRecord>, rs: seq<CommitRecord>, ws: seq<WorkspaceRecord>) {
    exists i :: 0 <= i < |rs| &&
      !CommitConflicts(InsertOrIgnoreAll(t, rs[..i]), rs[i]) && !HasWorkspaceId(ws, rs[i].workspaceId)
  }

  /** Extending the batch by one row fails exactly when the shorter batch
      fails or the new row is inserted and has no workspace. */
  lemma CommitBatchFailsStep(t: seq<CommitRecord>, rs: seq<CommitRecord>, i: nat, ws: seq<WorkspaceRecord>)
    requires i < |rs|
    ensures CommitBatchFails(t, rs[..i + 1], ws) <==>
      CommitBatchFails(t, rs[..i], ws) ||
      (!CommitConflicts(InsertOrIgnoreAll(t, rs[..i]), rs[i]) && !HasWorkspaceId(ws, rs[i].workspaceId))
  {
    var p := rs[..i + 1];
    assert forall j :: 0 <= j <= i ==> p[..j] == rs[..i][..j] || j == i;
    assert forall j :: 0 <= j < i ==> p[..j] == rs[..i][..j] && p[j] == rs[..i][j];
    assert p[..i] == rs[..i];
  }

  /** A plain INSERT of `x` after `t` succeeds: fresh id, and when foreign
      keys are enforced, an existing run. */
  predicate ResultInsertable(t: seq<TestResultRecord>, x: TestResultRecord, runs: seq<TestRunRecord>, fk: bool) {
    (forall k :: 0 <= k < |t| ==> t[k].id != x.id) && (fk ==> HasRunId(runs, x.runId))
  }

  predicate MessageInsertable(t: seq<CopilotMessageRecord>, x: CopilotMessageRecord, sessions: seq<CopilotSessionRecord>, fk: bool) {
    (forall k :: 0 <= k < |t| ==> t[k].id != x.id) && (fk ==> HasSessionId(sessions, x.sessionId))
  }

  /** Every row of a plain batch inserts after the ones before it. */
  predicate ResultBatchInsertable(t: seq<TestResultRecord>, rs: seq<TestResultRecord>, runs: seq<TestRunRecord>, fk: bool) {
    forall i :: 0 <= i < |rs| ==> ResultInsertable(t + rs[..i], rs[i], runs, fk)
  }

  predicate MessageBatchInsertable(t: seq<CopilotMessageRecord>, rs: seq<CopilotMessageRecord>, sessions: seq<CopilotSessionRecord>, fk: bool) {
    forall i :: 0 <= i < |rs| ==> MessageInsertable(t + rs[..i], rs[i], sessions, fk)
  }

  function CountMessagesOf(t: seq<CopilotMessageRecord>, sessionId: string): (n: nat)
    ensures n <= |t|
    ensures n == 0 <==> forall k :: 0 <= k < |t| ==> t[k].sessionId != sessionId
  {
    if t == [] then 0
    else CountMessagesOf(t[..|t| - 1], sessionId) + (if t[|t| - 1].sessionId == sessionId then 1 else 0)
  }

  /** The `UPDATE test_runs SET commit_sha = … WHERE id = …` result. */
  function LinkRuns(t: seq<TestRunRecord>, runId: string, sha: string): (r: seq<TestRunRecord>)
    ensures |r| == |t|
    ensures forall k :: 0 <= k < |t| ==> r[k] == (if t[k].id == runId then t[k].(commitSha := Some(sha)) else t[k])
  {
    if t == [] then []
    else
      var last := t[|t| - 1];
      LinkRuns(t[..|t| - 1], runId, sha) + [if last.id == runId then last.(commitSha := Some(sha)) else last]
  }

  /** `ORDER BY name`. */
  predicate NameLe(a: WorkspaceRecord, b: WorkspaceRecord) {
    TextLe(a.name, b.name)
  }

  lemma NameOrderIsTotal()
    ensures TotalPreorder(NameLe)
  {
    forall a: WorkspaceRecord, b: WorkspaceRecord
      ensures NameLe(a, b) || NameLe(b, a)
    {
      TextLeTotal(a.name, b.name);
    }
    forall a: WorkspaceRecord, b: WorkspaceRecord, c: WorkspaceRecord | NameLe(a, b) && NameLe(b, c)
      ensures NameLe(a, c)
    {
      TextLeTrans(a.name, b.name, c.name);
    }
  }

  function MissingTable(table: string): DbError {
    Sqlite(NoSuchTable(table))
  }

  // ------------------------------------------------------------ the store

  class Database {
    var tablesExist: bool
    var ledger: Option<seq<int>>
    var foreignKeys: bool
    var workspaces: seq<WorkspaceRecord>
    var commits: seq<CommitRecord>
    var testRuns: seq<TestRunRecord>
    var testResults: seq<TestResultRecord>
    var sessions: seq<CopilotSessionRecord>
    var messages: seq<CopilotMessageRecord>

    /** Missing tables hold no rows, and the keys are distinct. */
    ghost predicate Valid()
      reads this
    {
      (!tablesExist ==> (workspaces == [] && commits == [] && testRuns == [] && testResults == [] &&
                         sessions == [] && messages == [])) &&
      WorkspacesDistinct(workspaces) && CommitsDistinct(commits) && RunsDistinct(testRuns) &&
      ResultsDistinct(testResults) && SessionsDistinct(sessions) && MessagesDistinct(messages)
    }

    /** `Database::in_memory`: a fresh connection with no tables at all. */
    constructor InMemory()
      ensures Valid() && !tablesExist && ledger.None? && !foreignKeys
    {
      tablesExist := false;
      ledger := None;
      foreignKeys := false;
      workspaces := [];
      commits := [];
      testRuns := [];
      testResults := [];
      sessions := [];
      messages := [];
    }

    /** `count(table)` for the entity tables. */
    function Count(table: string): (r: Result<nat, DbError>)
      reads this
      ensures table == "schema_migrations" ==> r == (if ledger.Some? then Ok(|ledger.value|) else Err(MissingTable(table)))
      ensures !tablesExist && table != "schema_migrations" ==> r.Err?
      ensures tablesExist && table == "workspaces" ==> r == Ok(|workspaces|)
      ensures tablesExist && table == "commits" ==> r == Ok(|commits|)
      ensures tablesExist && table == "test_runs" ==> r == Ok(|testRuns|)
      ensures tablesExist && table == "test_results" ==> r == Ok(|testResults|)
      ensures tablesExist && table == "copilot_sessions" ==> r == Ok(|sessions|)
      ensures tablesExist && table == "copilot_messages" ==> r == Ok(|messages|)
    {
      if table == "schema_migrations" then
        (if ledger.Some? then Ok(|ledger.value|) else Err(MissingTable(table)))
      else if !tablesExist then Err(MissingTable(table))
      else if table == "workspaces" then Ok(|workspaces|)
      else if table == "commits" then Ok(|commits|)
      else if table == "test_runs" then Ok(|testRuns|)
      else if table == "test_results" then Ok(|testResults|)
      else if table == "copilot_sessions" then Ok(|sessions|)
      else if table == "copilot_messages" then Ok(|messages|)
      else Err(MissingTable(table))
    }

    /** `insert_workspace`: a plain INSERT; a duplicate id or path fails. */
    method InsertWorkspace(record: WorkspaceRecord) returns (r: Result<(), DbError>)
      requires Valid()
      modifies this`workspaces
      ensures Valid()
      ensures r.Ok? <==> (old(tablesExist) && !HasWorkspaceId(old(workspaces), record.id) &&
                          FindWorkspaceByPath(old(workspaces), record.path).None?)
      ensures workspaces == if r.Ok? then old(workspaces) + [record] else old(workspaces)
    {
      if !tablesExist {
        return Err(MissingTable("workspaces"));
      }
      if HasWorkspaceId(workspaces, record.id) {
        return Err(Sqlite(UniqueViolation("workspaces.id")));
      }
      if FindWorkspaceByPath(workspaces, record.path).Some? {
        return Err(Sqlite(UniqueViolation("workspaces.path")));
      }
      workspaces := workspaces + [record];
      return Ok(());
    }

    /** `get_or_create_workspace`: the id stored for `path`, unchanged and
        never updated; otherwise a new workspace `(id, name, path)` created
        at `now`. */
    method GetOrCreateWorkspace(name: string, path: string, id: string, now: int) returns (r: Result<string, DbError>)
      requires Valid()
      modifies this`workspaces
      ensures Valid()
      ensures !tablesExist ==> r.Err? && workspaces == old(workspaces)
      ensures tablesExist && FindWorkspaceByPath(old(workspaces), path).Some? ==>
        r == Ok(old(workspaces)[FindWorkspaceByPath(old(workspaces), path).value].id) &&
        workspaces == old(workspaces)
      ensures tablesExist && FindWorkspaceByPath(old(workspaces), path).None? ==>
        (r.Ok? <==> !HasWorkspaceId(old(workspaces), id)) &&
        (r.Ok? ==> r.value == id && workspaces == old(workspaces) + [NewWorkspaceRecord(name, path, id, now)]) &&
        (r.Err? ==> workspaces == old(workspaces))
      ensures r.Ok? ==> (FindWorkspaceByPath(workspaces, path).Some? &&
                         workspaces[FindWorkspaceByPath(workspaces, path).value].id == r.value)
    {
      if !tablesExist {
        return Err(MissingTable("workspaces"));
      }
      var existing := FindWorkspaceByPath(workspaces, path);
      if existing.Some? {
        return Ok(workspaces[existing.value].id);
      }
      var record := NewWorkspaceRecord(name, path, id, now);
      var inserted := InsertWorkspace(record);
      if inserted.Err? {
        return Err(inserted.error);
      }
      assert FindWorkspaceByPath(workspaces, path).Some? by {
        assert workspaces[|workspaces| - 1].path == path;
      }
      assert forall k :: 0 <= k < |workspaces| - 1 ==> workspaces[k] == old(workspaces)[k];
      return Ok(record.id);
    }

    /** `list_workspaces`: every workspace, ordered by name (ties in no
        promised order). The loop copies the sorted rows into the result. */
    method ListWorkspaces() returns (r: Result<seq<WorkspaceRecord>, DbError>)
      ensures r.Err? <==> !tablesExist
      ensures r.Ok? ==> Sorted(r.value, NameLe) && multiset(r.value) == multiset(workspaces)
    {
      if !tablesExist {
        return Err(MissingTable("workspaces"));
      }
      NameOrderIsTotal();
      var rows := Sort(workspaces, NameLe);
      var out: seq<WorkspaceRecord> := [];
      var i := 0;
      while i < |rows|
        invariant 0 <= i <= |rows|
        invariant out == rows[..i]
      {
        out := out + [rows[i]];
        i := i + 1;
      }
      assert rows[..i] == rows;
      return Ok(out);
    }

    /** `insert_commit`: a plain INSERT. */
    method InsertCommit(record: CommitRecord) returns (r: Result<(), DbError>)
      requires Valid()
      modifies this`commits
      ensures Valid()
      ensures r.Ok? <==> (old(tablesExist) && !CommitConflicts(old(commits), record) &&
                          (foreignKeys ==> HasWorkspaceId(workspaces, record.workspaceId)))
      ensures commits == if r.Ok? then old(commits) + [record] else old(commits)
    {
      if !tablesExist {
        return Err(MissingTable("commits"));
      }
      if CommitConflicts(commits, record) {
        return Err(Sqlite(UniqueViolation("commits")));
      }
      if foreignKeys && !HasWorkspaceId(workspaces, record.workspaceId) {
        return Err(Sqlite(ForeignKeyViolation("commits")));
      }
      commits := commits + [record];
      return Ok(());
    }

    /** `insert_commits_batch`: one transaction of `INSERT OR IGNORE`s. The
        count is the number of rows offered, ignored ones included; when a
        row fails, the transaction is rolled back. */
    method InsertCommitsBatch(records: seq<CommitRecord>) returns (r: Result<nat, DbError>)
      requires Valid()
      modifies this`commits
      ensures Valid()
      ensures r.Err? <==> !tablesExist || (foreignKeys && CommitBatchFails(old(commits), records, workspaces))
      ensures r.Ok? ==> r.value == |records| && commits == InsertOrIgnoreAll(old(commits), records)
      ensures r.Err? ==> commits == old(commits)
    {
      if !tablesExist {
        return Err(MissingTable("commits"));
      }
      var tx := commits;
      var count := 0;
      var i := 0;
      while i < |records|
        invariant 0 <= i <= |records| && count == i
        invariant commits == old(commits) && Valid()
        invariant tx == InsertOrIgnoreAll(commits, records[..i])
        invariant !(foreignKeys && CommitBatchFails(commits, records[..i], workspaces))
      {
        assert records[..i + 1][..i] == records[..i];
        if !CommitConflicts(tx, records[i]) {
          if foreignKeys && !HasWorkspaceId(workspaces, records[i].workspaceId) {
            assert CommitBatchFails(commits, records, workspaces);
            return Err(Sqlite(ForeignKeyViolation("commits")));
          }
          tx := tx + [records[i]];
        }
        CommitBatchFailsStep(commits, records, i, workspaces);
        count := count + 1;
        i := i + 1;
      }
      assert records[..i] == records;
      InsertOrIgnoreAllFacts(commits, records);
      commits := tx;
      return Ok(count);
    }

    /** `get_commit_by_sha`: the row with that workspace and exactly that
        sha, or `NotFound{commits, sha}`. */
    function GetCommitBySha(workspaceId: string, sha: string): (r: Result<CommitRecord, DbError>)
      reads this
      ensures !tablesExist ==> r.Err? && r.error.Sqlite?
      ensures r.Ok? ==> r.value in commits && r.value.workspaceId == workspaceId && r.value.sha == sha
      ensures tablesExist ==> (r.Ok? <==> HasCommit(commits, workspaceId, sha))
      ensures tablesExist && r.Err? ==> r.error == NotFound("commits", sha)
    {
      if !tablesExist then Err(MissingTable("commits"))
      else match FindCommit(commits, workspaceId, sha)
        case Some(k) => Ok(commits[k])
        case None => Err(NotFound("commits", sha))
    }

    /** `insert_test_run`: a plain INSERT returning the record's id. */
    method InsertTestRun(record: TestRunRecord) returns (r: Result<string, DbError>)
      requires Valid()
      modifies this`testRuns
      ensures Valid()
      ensures r.Ok? <==> (old(tablesExist) && !HasRunId(old(testRuns), record.id) &&
                          (foreignKeys ==> HasWorkspaceId(workspaces, record.workspaceId)))
      ensures r.Ok? ==> r.value == record.id && testRuns == old(testRuns) + [record]
      ensures r.Err? ==> testRuns == old(testRuns)
    {
      if !tablesExist {
        return Err(MissingTable("test_runs"));
      }
      if HasRunId(testRuns, record.id) {
        return Err(Sqlite(UniqueViolation("test_runs.id")));
      }
      if foreignKeys && !HasWorkspaceId(workspaces, record.workspaceId) {
        return Err(Sqlite(ForeignKeyViolation("test_runs")));
      }
      testRuns := testRuns + [record];
      return Ok(record.id);
    }

    /** `insert_test_results_batch`: one transaction of plain INSERTs, all
        rows or none. */
    method InsertTestResultsBatch(records: seq<TestResultRecord>) returns (r: Result<nat, DbError>)
      requires Valid()
      modifies this`testResults
      ensures Valid()
      ensures r.Ok? <==> tablesExist && ResultBatchInsertable(old(testResults), records, testRuns, foreignKeys)
      ensures r.Ok? ==> r.value == |records| && testResults == old(testResults) + records
      ensures r.Err? ==> testResults == old(testResults)
    {
      if !tablesExist {
        return Err(MissingTable("test_results"));
      }
      var tx := testResults;
      var count := 0;
      var i := 0;
      while i < |records|
        invariant 0 <= i <= |records| && count == i
        invariant tx == testResults + records[..i]
        invariant ResultsDistinct(tx)
        invariant forall j :: 0 <= j < i ==> ResultInsertable(testResults + records[..j], records[j], testRuns, foreignKeys)
      {
        if !ResultInsertable(tx, records[i], testRuns, foreignKeys) {
          return Err(Sqlite(if foreignKeys && !HasRunId(testRuns, records[i].runId)
            then ForeignKeyViolation("test_results") else UniqueViolation("test_results.id")));
        }
        assert records[..i + 1] == records[..i] + [records[i]];
        tx := tx + [records[i]];
        count := count + 1;
        i := i + 1;
      }
      assert records[..i] == records;
      testResults := tx;
      return Ok(count);
    }

    /** `link_test_run_to_commit`: set `commit_sha` on the run with that id
        (no row matching is not an error). */
    method LinkTestRunToCommit(runId: string, sha: string) returns (r: Result<(), DbError>)
      requires Valid()
      modifies this`testRuns
      ensures Valid()
      ensures r.Err? <==> !tablesExist
      ensures testRuns == if r.Ok? then LinkRuns(old(testRuns), runId, sha) else old(testRuns)
    {
      if !tablesExist {
        return Err(MissingTable("test_runs"));
      }
      testRuns := LinkRuns(testRuns, runId, sha);
      return Ok(());
    }

    /** `insert_copilot_session`: the id already stored for the record's
        `(workspace_id, vscode_session_id)`; otherwise insert the record and
        return its id. */
    method InsertCopilotSession(record: CopilotSessionRecord) returns (r: Result<string, DbError>)
      requires Valid()
      modifies this`sessions
      ensures Valid()
      ensures !tablesExist ==> r.Err? && sessions == old(sessions)
      ensures tablesExist && FindSession(old(sessions), record.workspaceId, record.vscodeSessionId).Some? ==>
        r == Ok(old(sessions)[FindSession(old(sessions), record.workspaceId, record.vscodeSessionId).value].id) &&
        sessions == old(sessions)
      ensures tablesExist && FindSession(old(sessions), record.workspaceId, record.vscodeSessionId).None? ==>
        (r.Ok? <==> (!HasSessionId(old(sessions), record.id) &&
                     (foreignKeys ==> HasWorkspaceId(workspaces, record.workspaceId)))) &&
        sessions == (if r.Ok? then old(sessions) + [record] else old(sessions)) &&
        (r.Ok? ==> r.value == record.id)
      ensures r.Ok? ==> (FindSession(sessions, record.workspaceId, record.vscodeSessionId).Some? &&
                         sessions[FindSession(sessions, record.workspaceId, record.vscodeSessionId).value].id == r.value)
    {
      if !tablesExist {
        return Err(MissingTable("copilot_sessions"));
      }
      var existing := FindSession(sessions, record.workspaceId, record.vscodeSessionId);
      if existing.Some? {
        return Ok(sessions[existing.value].id);
      }
      if HasSessionId(sessions, record.id) {
        return Err(Sqlite(UniqueViolation("copilot_sessions.id")));
      }
      if foreignKeys && !HasWorkspaceId(workspaces, record.workspaceId) {
        return Err(Sqlite(ForeignKeyViolation("copilot_sessions")));
      }
      sessions := sessions + [record];
      assert FindSession(sessions, record.workspaceId, record.vscodeSessionId).Some? by {
        assert sessions[|sessions| - 1] == record;
      }
      assert forall k :: 0 <= k < |sessions| - 1 ==> sessions[k] == old(sessions)[k];
      return Ok(record.id);
    }

    /** `insert_copilot_messages_batch`: one transaction of plain INSERTs,
        all rows or none. */
    method InsertCopilotMessagesBatch(records: seq<CopilotMessageRecord>) returns (r: Result<nat, DbError>)
      requires Valid()
      modifies this`messages
      ensures Valid()
      ensures r.Ok? <==> tablesExist && MessageBatchInsertable(old(messages), records, sessions, foreignKeys)
      ensures r.Ok? ==> r.value == |records| && messages == old(messages) + records
      ensures r.Err? ==> messages == old(messages)
    {
      if !tablesExist {
        return Err(MissingTable("copilot_messages"));
      }
      var tx := messages;
      var count := 0;
      var i := 0;
      while i < |records|
        invariant 0 <= i <= |records| && count == i
        invariant tx == messages + records[..i]
        invariant MessagesDistinct(tx)
        invariant forall j :: 0 <= j < i ==> MessageInsertable(messages + records[..j], records[j], sessions, foreignKeys)
      {
        if !MessageInsertable(tx, records[i], sessions, foreignKeys) {
          return Err(Sqlite(if foreignKeys && !HasSessionId(sessions, records[i].sessionId)
            then ForeignKeyViolation("copilot_messages") else UniqueViolation("copilot_messages.id")));
        }
        assert records[..i + 1] == records[..i] + [records[i]];
        tx := tx + [records[i]];
        count := count + 1;
        i := i + 1;
      }
      assert records[..i] == records;
      messages := tx;
      return Ok(count);
    }

    /** `get_session_message_count`: the stored messages of that session. */
    function GetSessionMessageCount(sessionId: string): (r: Result<nat, DbError>)
      reads this
      ensures r.Err? <==> !tablesExist
      ensures r.Ok? ==> r.value <= |messages|
      ensures r.Ok? ==> (r.value == 0 <==> forall k :: 0 <= k < |messages| ==> messages[k].sessionId != sessionId)
    {
      if !tablesExist then Err(MissingTable("copilot_messages")) else Ok(CountMessagesOf(messages, sessionId))
    }
  }

  /** Two `get_or_create_workspace` calls with the same path give the same id
      and at most one new row. */
  method GetOrCreateTwice(db: Database, path: string, name1: string, name2: string, id1: string, id2: string, now: int)
    returns (r1: Result<string, DbError>, r2: Result<string, DbError>)
    requires db.Valid()
    modifies db
    ensures db.Valid()
    ensures r1.Ok? ==> r2 == r1
    ensures |old(db.workspaces)| <= |db.workspaces| <= |old(db.workspaces)| + 1
  {
    r1 := db.GetOrCreateWorkspace(name1, path, id1, now);
    r2 := db.GetOrCreateWorkspace(name2, path, id2, now);
  }

  /** Two sessions with the same `(workspace_id, vscode_session_id)` map to
      the first one's id and to one row. */
  method InsertSessionTwice(db: Database, first: CopilotSessionRecord, second: CopilotSessionRecord)
    returns (r1: Result<string, DbError>, r2: Result<string, DbError>)
    requires db.Valid()
    requires first.workspaceId == second.workspaceId && first.vscodeSessionId == second.vscodeSessionId
    modifies db
    ensures db.Valid()
    ensures r1.Ok? ==> r2 == r1
    ensures |old(db.sessions)| <= |db.sessions| <= |old(db.sessions)| + 1
  {
    r1 := db.InsertCopilotSession(first);
    r2 := db.InsertCopilotSession(second);
  }
}
