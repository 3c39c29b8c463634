# hindsight-mcp core in Dafny

hindsight-mcp is an MCP server. It records a developer's history: git commits, nextest test runs and
GitHub Copilot chat sessions go into one SQLite store, and the server answers timeline, search,
failing-test, activity and commit-detail queries over it. This project models the core of that
pipeline. It covers ingestion, the store, the queries and the tool handlers, plus the small pure
helpers of the parser crates. Each core file is modelled in its own form:

- `db.dfy` (module `Db`): the record builders as datatypes, and `class Database`. The class keeps
  every table as a `seq` in rowid order, a flag saying whether the schema exists, and the
  `schema_migrations` ledger. Each batch insert is one transaction: all rows or none.
  `INSERT OR IGNORE` is modelled as the function `InsertOrIgnoreAll`.
- `migrations.dfy` (module `Migrations`): the forward-only migration ledger, its
  `MIGRATIONS`/`CURRENT_VERSION` constants, `migrate`, `rollback_to`, `get_version` and
  `is_up_to_date`. These work on the same `Database` object.
- `ingest.dfy` (module `Ingest`): the ingestion coordinator.
  - `IngestOptions` and `IngestStats` are datatypes.
  - `class Ingestor` drives the store through methods with loops. It logs progress events in a
    field, and `class UuidSource` hands out fresh identifiers.
  - Each method is proved against reference functions. `Kept`, `SkippedCount` and `GitProgress`
    cover the git pass, and `CopilotTotals` and `CopilotEvents` cover the Copilot pass.
- `queries.dfy` (module `Queries`): the read-only queries.
  - The timeline, search and failing-test queries (`ORDER BY … LIMIT ?`) are stated as a legal
    top-k answer (`Ordering.IsTopK`), because SQL promises no order among rows that tie on the sort
    key. They are methods: the engine's ordered answer is `Take(Sort(…))`, proved a top-k in
    `Ordering.TakeSortIsTopK`, and their loop copies it row by row into the result vector as the
    source's `push` loops do.
  - Two other ordered lookups, the newest stored sha of `ingest_git` and the runs of
    `get_commit_with_tests`, pick one order among ties instead; "## Left out" says so.
  - `get_activity_summary` and `get_commit_with_tests` are functions. `search_all` re-sorts with
    Rust's stable `sort_by`, so its order among equal ranks is defined; `Queries.SearchAll` states
    only the top-k relation there.
- `handlers.dfy` (module `Handlers`): argument defaults, input validation, error mapping and source
  dispatch for the six MCP tools.
- `nextest.dfy` (module `Nextest`): the libtest-JSON event fold of `parse_run_output` and
  `StreamingParser` (a class), `normalize_test_name`, and the `TestList`/`TestRunSummary` helpers.
  Events are taken as already decoded.
- `test_result.dfy`, `commit.dfy`, `git_walk.dfy`, `session.dfy`, `lsp.dfy`, `config.dfy`:
  - `TestResult`/`TestOutcome`;
  - `Commit`;
  - the filter-and-limit loop of `walk_commits`, over a revwalk given as a sequence;
  - `ChatSession` (a class) and `ChatMessage`;
  - JSON-RPC 2.0 message kinds, as in sections 4, 4.1 and 5 of the JSON-RPC 2.0 specification;
  - `Config`'s path defaults, log level and validation order.
- Supporting modules:
  - `wrappers.dfy`: `Option` and `Result`.
  - `text.dfy`: substring search and decimal rendering.
  - `ordering.dfy`: a stable insertion sort, `Take` and the top-k predicate.
  - `environment.dfy`: the file system as exists/is-dir predicates, and `Path`'s `join`, `file_name`
    and `parent` on '/'-separated text.

Clocks, UUIDs, the git repository, the test output, session discovery and the full-text index are
parameters. `now` is an integer number of seconds, passed to each operation. The failing-test count
of `get_activity_summary` accepts the outcomes `'failed'` and `'timedout'`. Ingestion writes
`"timed_out"` for a timed-out test, so such a result is never counted. The model keeps this
mismatch as written (`Queries.TimedOutResultsAreNotCounted`).

## Model

| member | source | states |
|---|---|---|
| GitCommit.Commit.ShortSha | crates/hindsight-git/src/commit.rs:32-34 | the result is a prefix of the sha of length min(7, \|sha\|) |
| GitCommit.Commit.Subject | crates/hindsight-git/src/commit.rs:50-52 | the first line: a prefix of the message holding no '\n'; the whole message when it has no '\n'; otherwise it ends right before the first '\n', or before the '\r' of a first "\r\n" |
| GitCommit.MergeRootExclusive | crates/hindsight-git/src/commit.rs:38-46 | merge iff more than one parent, root iff no parent, never both; a single-parent commit is neither |
| GitCommit.EmptySubject | crates/hindsight-git/src/commit.rs:50-52 | an empty message has the empty subject |
| Config.DatabasePath | crates/hindsight-mcp/src/config.rs:150-157 | the configured database path when set, otherwise `<data-local dir or ".">/hindsight/hindsight.db` |
| Config.WorkspacePath | crates/hindsight-mcp/src/config.rs:164-168 | the configured workspace when set, otherwise the current directory if known |
| Config.Validate | crates/hindsight-mcp/src/config.rs:177-198 | a missing configured workspace gives WorkspaceNotFound and a non-directory gives WorkspaceNotDirectory, both checked before the database directory; success iff the workspace is fine and the database path has no parent, an empty parent (the current directory), or a parent that exists or can be created |
| Config.ValidateBareDatabaseName | crates/hindsight-mcp/src/config.rs:188-195 | a database named by one relative component needs no directory: validation succeeds iff the workspace is absent or a directory |
| Config.LogLevel | crates/hindsight-mcp/src/config.rs:202-210 | verbose gives DEBUG whatever quiet says; otherwise quiet gives WARN and neither gives INFO |
| Config.LogLevelsDistinct | crates/hindsight-mcp/src/config.rs:202-210 | flag settings that differ in the deciding flag give different levels |
| Db.CastI32 | crates/hindsight-mcp/src/ingest.rs:431-435 | `as i32`: a value in i32 range congruent to n modulo 2^32, equal to n below 2^31 |
| Db.CastI64 | crates/hindsight-mcp/src/ingest.rs:452 | `as i64`: a value in i64 range congruent to n modulo 2^64, equal to n below 2^63 |
| Db.NewWorkspaceRecord | crates/hindsight-mcp/src/db.rs:69-78 | the given id, name and path; created_at = updated_at = now |
| Db.CommitRecord.WithParents | crates/hindsight-mcp/src/db.rs:137-140 | sets the parents and changes nothing else |
| Db.CommitRecord.WithDiffJson | crates/hindsight-mcp/src/db.rs:144-147 | sets the diff and changes nothing else |
| Db.NewCommitRecord | crates/hindsight-mcp/src/db.rs:113-133 | copies every argument; no parents and no diff |
| Db.TestRunRecord.WithCommit | crates/hindsight-mcp/src/db.rs:196-199 | sets commit_sha and changes nothing else |
| Db.TestRunRecord.Finished | crates/hindsight-mcp/src/db.rs:203-209 | sets exactly the three counts and makes finished_at Some(now); every other field is kept |
| Db.NewTestRunRecord | crates/hindsight-mcp/src/db.rs:180-192 | started now, zero counts, no commit, no finish time, no metadata |
| Db.TestResultRecord.WithOutput | crates/hindsight-mcp/src/db.rs:257-266 | no stdout and no stderr leaves the record unchanged; otherwise only the output field is set, to both streams |
| Db.NewTestResultRecord | crates/hindsight-mcp/src/db.rs:236-253 | copies every argument; no output |
| Db.CopilotSessionRecord.WithMetadata | crates/hindsight-mcp/src/db.rs:307-316 | no model and no mode leaves the record unchanged; otherwise only the metadata is set |
| Db.NewCopilotSessionRecord | crates/hindsight-mcp/src/db.rs:293-303 | copies the ids; created and updated now; no metadata |
| Db.CopilotMessageRecord.WithRequestId | crates/hindsight-mcp/src/db.rs:363-366 | sets the request id and changes nothing else |
| Db.CopilotMessageRecord.WithVariablesJson | crates/hindsight-mcp/src/db.rs:370-373 | sets the variables and changes nothing else |
| Db.NewCopilotMessageRecord | crates/hindsight-mcp/src/db.rs:343-359 | copies every argument; no request id and no variables |
| Db.FindWorkspaceByPath | crates/hindsight-mcp/src/db.rs:475-482 | a found index holds that path; None iff no stored workspace has it |
| Db.FindSession | crates/hindsight-mcp/src/db.rs:723-727 | a found index holds that (workspace_id, vscode_session_id); None iff no session has it |
| Db.FindCommit | crates/hindsight-mcp/src/db.rs:600-604 | a found index holds that workspace and exactly that sha; None iff there is no such row |
| Db.InsertOrIgnoreAllFacts | crates/hindsight-mcp/src/db.rs:563-588 | INSERT OR IGNORE only appends, keeps the commit key unique, and leaves every offered row matched by a stored row |
| Db.InsertOrIgnoreAllConflicting | crates/hindsight-mcp/src/db.rs:563-588 | offering only rows that already collide changes nothing |
| Db.InsertOrIgnoreAllIdempotent | crates/hindsight-mcp/src/db.rs:563-588 | offering the same batch a second time changes nothing |
| Db.CommitBatchFailsStep | crates/hindsight-mcp/src/db.rs:563-588 | a longer batch fails iff the shorter one fails or the new, inserted row names no stored workspace |
| Db.CountMessagesOf | crates/hindsight-mcp/src/db.rs:795-802 | the count is at most the table size and is zero iff no message belongs to the session |
| Db.LinkRuns | crates/hindsight-mcp/src/db.rs:702-708 | same length; exactly the rows with that run id get the commit sha |
| Db.Database.InMemory | crates/hindsight-mcp/src/db.rs:387-390 | a fresh in-memory store has no tables and no ledger |
| Db.Database.Count | crates/hindsight-mcp/src/db.rs:437-441 | the row count of each named table; an error when that table does not exist |
| Db.Database.InsertWorkspace | crates/hindsight-mcp/src/db.rs:452-465 | succeeds iff the tables exist and neither the id nor the path is stored; success appends exactly the record, failure changes nothing |
| Db.Database.GetOrCreateWorkspace | crates/hindsight-mcp/src/db.rs:475-493 | a stored path returns its id and adds no row or update; otherwise one new workspace with the given id, created now; afterwards the path maps to the returned id |
| Db.Database.ListWorkspaces | crates/hindsight-mcp/src/db.rs:500-520 | every workspace, a permutation of the table ordered by name; the loop copies the sorted rows |
| Db.Database.InsertCommit | crates/hindsight-mcp/src/db.rs:531-549 | plain INSERT: succeeds iff the tables exist, the key is new and the workspace exists (when foreign keys are on); appends exactly the record |
| Db.Database.InsertCommitsBatch | crates/hindsight-mcp/src/db.rs:556-588 | on success returns \|records\|, ignored rows included, and the table becomes InsertOrIgnoreAll; on any failing row the table is unchanged |
| Db.Database.GetCommitBySha | crates/hindsight-mcp/src/db.rs:595-627 | Ok iff a row has that workspace and exactly that sha, and it is such a row; otherwise NotFound{commits, sha} |
| Db.Database.InsertTestRun | crates/hindsight-mcp/src/db.rs:638-655 | succeeds iff the tables exist, the id is new and the workspace exists (when foreign keys are on); returns the id and appends the run |
| Db.Database.InsertTestResultsBatch | crates/hindsight-mcp/src/db.rs:662-695 | all rows are appended and \|records\| returned, or nothing changes; success iff every row is insertable |
| Db.Database.LinkTestRunToCommit | crates/hindsight-mcp/src/db.rs:702-708 | sets commit_sha on the run(s) with that id; no match is not an error |
| Db.Database.InsertCopilotSession | crates/hindsight-mcp/src/db.rs:721-748 | an existing (workspace_id, vscode_session_id) returns the stored id and adds nothing; otherwise inserts the record and returns its id |
| Db.Database.InsertCopilotMessagesBatch | crates/hindsight-mcp/src/db.rs:755-788 | all rows are appended and \|records\| returned, or nothing changes; success iff every row is insertable |
| Db.Database.GetSessionMessageCount | crates/hindsight-mcp/src/db.rs:795-802 | the count is zero iff no stored message belongs to the session |
| Db.GetOrCreateTwice | crates/hindsight-mcp/src/db.rs:475-493 | two calls with one path give the same id and at most one new row |
| Db.InsertSessionTwice | crates/hindsight-mcp/src/db.rs:721-748 | two sessions with the same key give the first one's id and at most one new row |
| GitWalk.WalkOptions.WithDiff | crates/hindsight-git/src/parser.rs:43-46 | sets include_diff and nothing else |
| GitWalk.WalkOptions.From | crates/hindsight-git/src/parser.rs:50-53 | sets the start reference and nothing else |
| GitWalk.WalkOptions.Since | crates/hindsight-git/src/parser.rs:57-60 | sets the lower time bound and nothing else |
| GitWalk.WalkOptions.Until | crates/hindsight-git/src/parser.rs:64-67 | sets the upper time bound and nothing else |
| GitWalk.Latest | crates/hindsight-git/src/parser.rs:34-39 | only the limit is set |
| GitWalk.WalkCommits | crates/hindsight-git/src/parser.rs:176-232 | an unknown reference or an unborn HEAD is an error; otherwise the loop returns exactly WalkFrom of the chosen revwalk |
| GitWalk.WalkProperties | crates/hindsight-git/src/parser.rs:189-228 | a successful walk returns at most `limit` commits, all inside the since/until window, each with a diff iff diffs were requested, in revwalk order |
| GitWalk.ZeroLimitWalksNothing | crates/hindsight-git/src/parser.rs:189-194 | limit 0 returns no commits |
| Environment.Join | crates/hindsight-mcp/src/config.rs:150-157 | the component ends the joined path, which starts with the non-empty base |
| Environment.FileName | crates/hindsight-mcp/src/ingest.rs:265-268 | None for a path with no body once trailing separators and "." components are trimmed (root, ".", "") or whose last component is ".."; otherwise that last component, which is not empty, ".", ".." and holds no '/' |
| Environment.Parent | crates/hindsight-mcp/src/config.rs:190 | None exactly when the path, trimmed of trailing separators and "." components, is empty or the root; otherwise a strictly shorter prefix of the path |
| Environment.TrailingDotIgnored | crates/hindsight-mcp/src/config.rs:190 | a trailing "/" or "/." changes neither the file name nor the parent |
| Environment.FileNameAfterSeparator | crates/hindsight-mcp/src/ingest.rs:265-268 | the normal component after the last separator is the file name, and the parent is what precedes that separator, trimmed |
| Environment.FileNameOfComponent | crates/hindsight-mcp/src/config.rs:190 | a single normal component is its own file name and its parent is the empty path |
| Handlers.ParseTimeline | crates/hindsight-mcp/src/handlers.rs:55-66 | a missing limit defaults to 50; the workspace is copied |
| Handlers.ParseSearch | crates/hindsight-mcp/src/handlers.rs:69-87 | a missing query is the serde error "missing field `query`"; the source defaults to "all" and the limit to 20 |
| Handlers.ParseFailingTests | crates/hindsight-mcp/src/handlers.rs:90-103 | a missing limit defaults to 50; workspace and commit are copied |
| Handlers.ParseActivity | crates/hindsight-mcp/src/handlers.rs:106-115 | missing days default to 7 |
| Handlers.ParseCommitDetails | crates/hindsight-mcp/src/handlers.rs:118-122 | a missing sha is "missing field `sha`" |
| Handlers.ParseIngest | crates/hindsight-mcp/src/handlers.rs:125-145 | a missing workspace is "missing field `workspace`"; the source defaults to "all", incremental to true |
| Handlers.AbsentArgumentsAreEmptyArguments | crates/hindsight-mcp/src/handlers.rs:55-145 | an absent argument map parses like an empty one: timeline limit 50, search "all"/20, failing-test limit 50, 7 days, "missing field `sha`", and ingest "all" with incremental on |
| Handlers.WorkspaceFilter | crates/hindsight-mcp/src/handlers.rs:213-216 | the argument workspace when given, otherwise the default workspace |
| Handlers.HandleTimeline | crates/hindsight-mcp/src/handlers.rs:205-221 | fails iff the store has no tables; otherwise the newest `limit` timeline events of the filter's workspace (default 50) |
| Handlers.HandleSearch | crates/hindsight-mcp/src/handlers.rs:226-246 | an empty query is InvalidInput before any lookup; "commits" and "messages" give the best-ranked hits of one index; any other source gives at most `limit` sorted hits drawn from both indexes |
| Handlers.BothSourcesFacts | crates/hindsight-mcp/src/queries.rs:314-338 | every `search_all` result is a hit of the commit index or of the message index |
| Handlers.HandleFailingTests | crates/hindsight-mcp/src/handlers.rs:251-272 | fails iff the store has no tables; otherwise the `limit` most recently started failing results of the filter's workspace |
| Handlers.HandleActivitySummary | crates/hindsight-mcp/src/handlers.rs:277-286 | the activity summary for the given days, seven by default, echoing the days |
| Handlers.EmptyStoreSummarisesToZero | crates/hindsight-mcp/src/handlers.rs:277-286 | an empty store reports zero of everything |
| Handlers.HandleCommitDetails | crates/hindsight-mcp/src/handlers.rs:291-306 | an empty sha is InvalidInput; no prefix match iff NotFound("Commit not found: \<sha\>"); otherwise the commit detail for the prefix |
| Handlers.StatsResponse | crates/hindsight-mcp/src/handlers.rs:174-186 | copies the six counters, and total_items equals `stats.total_items()` |
| Handlers.OptionsFor | crates/hindsight-mcp/src/handlers.rs:331-341 | diffs on; incremental and limit taken from the input |
| Handlers.Gained | crates/hindsight-mcp/src/handlers.rs:347-366 | a successful pass contributes its stats, a failed or absent one contributes no items |
| Handlers.HandleIngest | crates/hindsight-mcp/src/handlers.rs:311-380 | parse errors run no pass and change nothing; otherwise the IngestOutcome of the parsed input, and each pass that ran had the effect its `Ingestor` contract states, with `OptionsFor(input)`: the commits, sessions and messages as the passes left them, and the workspaces table opened for the path by each pass in turn (PassEffects) |
| Handlers.IngestWorkspace | crates/hindsight-mcp/src/handlers.rs:317-380 | a missing path is WorkspaceNotFound and a non-directory InvalidInput, both before any pass and changing nothing; otherwise the dispatch result, echoing the source, with the passes' effects on all four tables |
| Handlers.Dispatch | crates/hindsight-mcp/src/handlers.rs:343-379 | at least one pass runs; the response reports the dispatch total (source, stats, "Ingested N items" message) and the passes had their effects on commits, workspaces, sessions and messages |
| Handlers.DispatchOutcome | crates/hindsight-mcp/src/handlers.rs:344-379 | the response built from the total meets IngestOutcome for each source |
| Handlers.RunSources | crates/hindsight-mcp/src/handlers.rs:343-367 | "git" and "copilot" run one pass and propagate its error or report its stats; any other source runs both, swallows their errors and merges what succeeded; each pass's effect on the store holds, the workspaces table included |
| Handlers.RunOn | crates/hindsight-mcp/src/handlers.rs:343-367 | the dispatch on the ingestor: "git" and "copilot" run one pass with its error or stats, any other source both with the merged total; the passes' effects hold |
| Handlers.GitOnly | crates/hindsight-mcp/src/handlers.rs:348-351 | the git pass alone: its error wrapped as IngestFailed, else its stats; the git effect, with the workspaces table opened for the path; sessions and messages unchanged |
| Handlers.CopilotOnly | crates/hindsight-mcp/src/handlers.rs:352-355 | the Copilot pass alone: its error wrapped as IngestFailed, else its stats; the Copilot effect, with the workspaces table opened for the path; commits unchanged |
| Handlers.GitOnlyEffects | crates/hindsight-mcp/src/handlers.rs:348-351 | a git pass with untouched sessions and messages has the dispatch's pass effects |
| Handlers.CopilotOnlyEffects | crates/hindsight-mcp/src/handlers.rs:352-355 | a Copilot pass with untouched commits has the dispatch's pass effects, starting from the workspaces before it |
| Handlers.SinglePass | crates/hindsight-mcp/src/handlers.rs:349-354 | `?` then a merge into the default stats: Ok iff the pass succeeded, the error wrapped as IngestFailed, the stats the pass's own |
| Handlers.MergeIfOk | crates/hindsight-mcp/src/handlers.rs:360-365 | merging a pass when it succeeded adds exactly its contribution |
| Handlers.BothArm | crates/hindsight-mcp/src/handlers.rs:356-366 | both passes run; the total is Ok and the merge of what succeeded, git first; both effects hold |
| Handlers.BothTotal | crates/hindsight-mcp/src/handlers.rs:344-366 | the default arm's total is the merge of the two passes' contributions, git first |
| Handlers.RunBoth | crates/hindsight-mcp/src/handlers.rs:356-366 | the Copilot pass runs whatever the git pass gave, starting from the workspaces table the git pass left; both passes' effects hold on the final store |
| Handlers.BothPassEffects | crates/hindsight-mcp/src/handlers.rs:356-366 | the two effects compose: the git pass opens the workspace from the table before it, the Copilot pass from the table the git pass left |
| Handlers.RunGit | crates/hindsight-mcp/src/handlers.rs:349 | the effect `IngestGit` states on commits and workspaces (GitPassEffect); messages unchanged |
| Handlers.RunCopilot | crates/hindsight-mcp/src/handlers.rs:353 | the effect `IngestCopilot` states on workspaces, sessions and messages (CopilotPassEffect) |
| Handlers.ReportedTotalIsSumOfPasses | crates/hindsight-mcp/src/handlers.rs:344-377 | the reported total is the sum of the successful passes' items, zero when all failed |
| Ingest.IngestOptions.WithLimit | crates/hindsight-mcp/src/ingest.rs:151-154 | only the commit limit changes |
| Ingest.IngestOptions.WithDiffs | crates/hindsight-mcp/src/ingest.rs:158-161 | only include_diffs changes |
| Ingest.DefaultOptions | crates/hindsight-mcp/src/ingest.rs:118-126 | no limit, no diffs, not incremental |
| Ingest.FullOptions | crates/hindsight-mcp/src/ingest.rs:131-137 | no limit, diffs on, not incremental |
| Ingest.IncrementalOptions | crates/hindsight-mcp/src/ingest.rs:141-147 | no limit, diffs on, incremental |
| Ingest.IngestStats.TotalItems | crates/hindsight-mcp/src/ingest.rs:186-192 | at least each inserted counter, and zero iff all five inserted counters are zero (skipped and warnings excluded) |
| Ingest.IngestStats.Merge | crates/hindsight-mcp/src/ingest.rs:195-203 | every counter is the sum of the two |
| Ingest.MergeAddsTotals | crates/hindsight-mcp/src/ingest.rs:186-203 | the total of a merge is the sum of the totals |
| Ingest.TotalsOfTwoPasses | crates/hindsight-mcp/src/ingest.rs:648-685 | merging the two passes into the default stats is their merge; warnings and totals add |
| Ingest.MergeIsCommutativeMonoid | crates/hindsight-mcp/src/ingest.rs:195-203 | the default stats are a unit of merge, and merge is commutative and associative |
| Ingest.OutcomeToString | crates/hindsight-mcp/src/ingest.rs:693-700 | each outcome maps to its own string: "passed", "failed", "ignored", "timed_out" |
| Ingest.SplitTestName | crates/hindsight-mcp/src/ingest.rs:705-713 | without "::" the result is ("", name); otherwise the split is at the first "::": prefix + "::" + rest is the name and no "::" starts inside the prefix |
| Ingest.WorkspaceName | crates/hindsight-mcp/src/ingest.rs:265-269 | "unknown" when the path has no file name; otherwise a normal component (not empty, not "." or "..", no '/') that ends the path once trailing separators and "." components are trimmed, after a '/' or as the whole |
| Ingest.WorkspaceNameOfDirectory | crates/hindsight-mcp/src/ingest.rs:265-269 | a directory is named after itself whether given alone, after a parent, or followed by "/" or "/." |
| Ingest.UuidSource.Next | crates/hindsight-mcp/src/db.rs:69-78 | a `Uuid::new_v4()` that differs from every identifier issued before |
| Ingest.UuidSource.NextMany | crates/hindsight-mcp/src/db.rs:113-133 | n fresh identifiers appended to the issued log |
| Ingest.UuidOfInjective | crates/hindsight-mcp/src/db.rs:69-78 | a generator that qualifies as a UUID source exists: distinct positions give distinct identifiers |
| Ingest.IssuedDistinct | crates/hindsight-mcp/src/db.rs:69-78 | every identifier issued is distinct |
| Ingest.OpenedWorkspaces | crates/hindsight-mcp/src/db.rs:475-493 | the table after get_or_create_workspace: it only grows, by at most one row; a stored path leaves it unchanged; afterwards the path is stored iff it was, or the schema exists and the drawn id is free |
| Ingest.FindAppendedWorkspace | crates/hindsight-mcp/src/db.rs:475-482 | a row appended for a path no row has is the row found for that path |
| Ingest.OpenedWorkspaceId | crates/hindsight-mcp/src/db.rs:475-493 | after opening, the path maps to the id stored before or else to the drawn one, and opening it again with any id changes nothing |
| Ingest.LastIngestedSha | crates/hindsight-mcp/src/ingest.rs:377-389 | None iff the workspace has no commit; otherwise the sha of one of its commits with the greatest timestamp |
| Ingest.NewestOf | crates/hindsight-mcp/src/ingest.rs:377-389 | an index of a commit of the workspace whose timestamp is the greatest |
| Ingest.GitWalkOptions | crates/hindsight-mcp/src/ingest.rs:276-285 | the walk limit is the commit limit, include_diff the diff flag, no reference or window |
| Ingest.StopIndex | crates/hindsight-mcp/src/ingest.rs:309-315 | the first index whose sha equals the stop sha, or the length |
| Ingest.CommitRecordOf | crates/hindsight-mcp/src/ingest.rs:329-343 | the record copies sha, author, email, message, timestamp, parents and diff |
| Ingest.CommitRecords | crates/hindsight-mcp/src/ingest.rs:329-345 | one record per kept commit, the k-th with the k-th identifier |
| Ingest.CommitRecordsAppend | crates/hindsight-mcp/src/ingest.rs:329-345 | one more kept commit appends exactly its record, with its identifier, to the records |
| Ingest.GitStep | crates/hindsight-mcp/src/ingest.rs:317-327 | one more commit is either skipped (incremental and already stored) or kept |
| Ingest.KeptFacts | crates/hindsight-mcp/src/ingest.rs:307-355 | kept + skipped = considered; kept commits come from the walk and, in incremental mode, are not stored; outside incremental mode all are kept |
| Ingest.IncrementalRerunSkipsAll | crates/hindsight-mcp/src/ingest.rs:317-327 | when every walked commit is stored, an incremental pass keeps none, skips all and reports no progress |
| Ingest.GitProgressHasNoCompleted | crates/hindsight-mcp/src/ingest.rs:299-355 | the git loop's events never include a Completed |
| Ingest.ResultRecordOf | crates/hindsight-mcp/src/ingest.rs:450-467 | suite and test name from split_test_name, outcome string, duration `as i64`, stdout as output |
| Ingest.ResultRecords | crates/hindsight-mcp/src/ingest.rs:447-469 | one record per result |
| Ingest.RunRecordOf | crates/hindsight-mcp/src/ingest.rs:430-441 | the run's counts are the summary's (as i32), commit_sha as supplied, finished now |
| Ingest.RoleName | crates/hindsight-mcp/src/ingest.rs:605-609 | each role maps to its own column value |
| Ingest.MessageRecordOf | crates/hindsight-mcp/src/ingest.rs:604-626 | copies role, content, timestamp and variables; no request id |
| Ingest.MessageRecords | crates/hindsight-mcp/src/ingest.rs:601-627 | one record per message |
| Ingest.Contribution | crates/hindsight-mcp/src/ingest.rs:658-674 | success contributes its stats; failure one warning and no items |
| Ingest.CopilotTotalsFacts | crates/hindsight-mcp/src/ingest.rs:527-544 | warnings = failed sessions; only sessions and messages are counted; at most one session per session file |
| Ingest.CopilotEventsFacts | crates/hindsight-mcp/src/ingest.rs:527-554 | one Warning event per failed session; no Completed inside the loop |
| Ingest.SessionEventsFacts | crates/hindsight-mcp/src/ingest.rs:532-553 | one turn warns iff its session failed |
| Ingest.ParseFailuresAreFailures | crates/hindsight-mcp/src/ingest.rs:578-582 | every unparsable session file counts as a failure |
| Ingest.CopilotTotalsAppend | crates/hindsight-mcp/src/ingest.rs:527-544 | one more session adds its contribution to the totals |
| Ingest.CopilotEventsAppend | crates/hindsight-mcp/src/ingest.rs:527-554 | one more session appends its events |
| Ingest.FindSessionStable | crates/hindsight-mcp/src/db.rs:723-727 | a session found in the table is found at the same row after rows are appended |
| Ingest.StepsFitAppend | crates/hindsight-mcp/src/ingest.rs:527-554 | the traces of the sessions handled so far still fit when the sessions table grows and the next session is handled |
| Ingest.Ingestor.constructor | crates/hindsight-mcp/src/ingest.rs:219-221 | no progress callback, so the callback has received nothing |
| Ingest.Ingestor.WithProgress | crates/hindsight-mcp/src/ingest.rs:224-227 | installs the callback, which has received nothing yet |
| Ingest.Ingestor.Report | crates/hindsight-mcp/src/ingest.rs:230-234 | the callback receives the event when one is installed, and nothing otherwise; the log of reported events grows by it |
| Ingest.Ingestor.CollectCommits | crates/hindsight-mcp/src/ingest.rs:307-355 | the loop stops at the stop sha, skips stored commits in incremental mode, builds the kept records in order and reports every tenth position |
| Ingest.Ingestor.OpenWorkspace | crates/hindsight-mcp/src/ingest.rs:265-272 | get_or_create_workspace named after the last path component, with one freshly drawn id: the table becomes OpenedWorkspaces of the old one; Ok iff the schema exists and the path is stored or the id is free, and then the path maps to the returned id (the drawn one for a new row) |
| Ingest.Ingestor.CollectAndInsert | crates/hindsight-mcp/src/ingest.rs:297-373 | Started, then the loop, then one batch insert; Completed only on success |
| Ingest.Ingestor.RecordCommits | crates/hindsight-mcp/src/ingest.rs:288-373 | in incremental mode stops at the newest stored sha; the table becomes InsertOrIgnoreAll of the kept records; commits_inserted = kept, commits_skipped = skipped |
| Ingest.Ingestor.WalkAndRecord | crates/hindsight-mcp/src/ingest.rs:274-373 | the repository opens and walks successfully, and then RecordCommits holds |
| Ingest.Ingestor.IngestGit | crates/hindsight-mcp/src/ingest.rs:255-374 | the workspace is opened first, so on success and on error the workspaces table is the old one opened for the path; on success: the walk succeeded, and the kept records are inserted or ignored with the stats counted; on error: no Completed and commits unchanged |
| Ingest.Ingestor.RecordTestRun | crates/hindsight-mcp/src/ingest.rs:423-486 | success stores exactly one run record with the summary's counts and the given commit sha, then one result record per test linked to that run, counts one run and its results, and reports Started then Completed; a failing result batch stores no results and keeps the run when it was inserted; identifiers are drawn run first, then one per result |
| Ingest.Ingestor.IngestTests | crates/hindsight-mcp/src/ingest.rs:400-487 | the workspaces table is the old one opened for the path, whatever the outcome; any undecodable line fails; a failure reports no Completed and stores no results, and stores at most the run of a fully decoded output; success stores the run and results of the decoded summary under the workspace found for the path, with test_runs_inserted = 1 |
| Ingest.Ingestor.IngestSingleSession | crates/hindsight-mcp/src/ingest.rs:571-634 | an unparsable file is that error and draws nothing; sessions only grow; success finds the session under the workspace at the returned row; a session already holding messages gives zero stats and adds nothing; otherwise exactly its messages' records are appended and counted |
| Ingest.Ingestor.RecordMessages | crates/hindsight-mcp/src/ingest.rs:592-633 | a session already holding messages gets zero stats, draws no ids and adds nothing; otherwise one session and exactly its messages' records, in order, are appended and counted |
| Ingest.Ingestor.ReportSession | crates/hindsight-mcp/src/ingest.rs:532-553 | a Warning "Failed to ingest \<id\>: \<error\>" for a failed session, with the error's `Display` text, then progress every fifth session and after the last |
| Ingest.Ingestor.IngestOne | crates/hindsight-mcp/src/ingest.rs:528-531 | the per-session call: a parse error is returned as it is; sessions only grow; the messages table grows by exactly the trace's records, which fit the outcome (found row, MessageRecords for an inserted session) |
| Ingest.Ingestor.SessionTurn | crates/hindsight-mcp/src/ingest.rs:528-553 | one loop turn keeps the loop invariant with the session's outcome and trace appended |
| Ingest.Ingestor.IngestSessions | crates/hindsight-mcp/src/ingest.rs:527-554 | every session is handled in order; totals are CopilotTotals and events CopilotEvents; a failed parse is a failed outcome and the loop continues; each session's trace fits its outcome; sessions only grow; messages grow by exactly the traces' records, session by session |
| Ingest.Ingestor.RecordDiscovered | crates/hindsight-mcp/src/ingest.rs:516-567 | a failed discovery is that error and changes nothing; otherwise Started, the session loop with its totals, traces and table effects, then Completed |
| Ingest.Ingestor.IngestCopilot | crates/hindsight-mcp/src/ingest.rs:498-568 | the workspaces table is the old one opened for the path, whatever the outcome; only the workspace and discovery can fail, and a failure reports no Completed and changes neither sessions nor messages; success: one outcome per discovered session under the workspace stored for the path, the totals of the outcomes, the effect of IngestSessions on both tables, and Started, the loop's events and Completed |
| Ingest.Ingestor.BothPasses | crates/hindsight-mcp/src/ingest.rs:658-674 | the Copilot pass runs whatever the git pass gave; both passes' effects hold on the final store: the git pass opens the workspace in the table before it, the Copilot pass in the table the git pass left, which it keeps when the git pass found or created the row |
| Ingest.Ingestor.IngestAll | crates/hindsight-mcp/src/ingest.rs:648-685 | always Ok, with zero merged with each pass's statistics or, for a failed pass, one warning; the git pass's effect holds on the commits and workspaces (GitPassEffect) and the Copilot pass's on workspaces, sessions and messages (CopilotPassEffect), with the workspaces table between the passes exposed |
| Lsp.LspMessage.WithParams | crates/hindsight-copilot/src/lsp.rs:87-90 | only params changes, so the message kind is kept |
| Lsp.Request | crates/hindsight-copilot/src/lsp.rs:37-46 | jsonrpc "2.0", with the id and method; a request and nothing else |
| Lsp.Notification | crates/hindsight-copilot/src/lsp.rs:50-59 | no id; a notification and nothing else |
| Lsp.KindsExclusive | crates/hindsight-copilot/src/lsp.rs:63-83 | never both request and notification; an id with an error is an error response |
| Lsp.CodeContext.WithVisibleRange | crates/hindsight-copilot/src/lsp.rs:118-121 | sets the range, keeping uri and position |
| Lsp.NewCodeContext | crates/hindsight-copilot/src/lsp.rs:108-114 | the position is given, with no visible range |
| Migrations.MaxOrZero | crates/hindsight-mcp/src/migrations.rs:90-94 | 0 for no versions, otherwise the maximum |
| Migrations.GetVersion | crates/hindsight-mcp/src/migrations.rs:77-99 | 0 without a ledger table or with an empty ledger, otherwise the highest recorded version |
| Migrations.Pending | crates/hindsight-mcp/src/migrations.rs:106-118 | exactly the versions above the current one |
| Migrations.RollbackVersions | crates/hindsight-mcp/src/migrations.rs:138-153 | exactly the versions in (target, current] that have a down script |
| Migrations.RunScript | crates/hindsight-mcp/src/migrations.rs:42-68 | the up script creates the tables and records version 1; the down script drops everything |
| Migrations.Migrate | crates/hindsight-mcp/src/migrations.rs:106-118 | applies and returns the pending versions; afterwards the version is at least CURRENT_VERSION and nothing is pending; data is untouched |
| Migrations.RollbackTo | crates/hindsight-mcp/src/migrations.rs:138-153 | returns the versions above the target, newest first, among those at most the recorded version; nothing rolled back leaves the ledger and every table as they were; rolling back reverts the initial schema, dropping every table and the ledger (version 0) |
| Migrations.IsUpToDate | crates/hindsight-mcp/src/migrations.rs:157-161 | holds iff a recorded version is at least CURRENT_VERSION; false without a ledger |
| Migrations.Initialize | crates/hindsight-mcp/src/db.rs:407-410 | always Ok; afterwards the store is up to date, a store that was not gets its schema, and no table's rows change |
| Migrations.IsInitialized | crates/hindsight-mcp/src/db.rs:413-415 | iff the ledger is up to date |
| Migrations.SchemaVersion | crates/hindsight-mcp/src/db.rs:422-424 | get_version of the store |
| Migrations.MigrateFreshTwice | crates/hindsight-mcp/src/migrations.rs:175-196 | a fresh store migrates to [1]; a second migrate applies nothing |
| Nextest.SuiteNames | crates/hindsight-tests/src/nextest.rs:72-80 | one "suite::case" name per case |
| Nextest.QualifiedNamesCount | crates/hindsight-tests/src/nextest.rs:72-80 | as many names as cases |
| Nextest.AllTestNames | crates/hindsight-tests/src/nextest.rs:72-80 | the "suite::case" names of every suite in order, one per test case |
| Nextest.AppendSuiteNames | crates/hindsight-tests/src/nextest.rs:75-77 | the inner loop appends one suite's qualified names in case order |
| Nextest.TestsInSuite | crates/hindsight-tests/src/nextest.rs:84-89 | the case names of the first suite with that id; empty when there is none |
| Nextest.IgnoredCount | crates/hindsight-tests/src/nextest.rs:93-99 | at most the case count, and zero iff no case is ignored |
| Nextest.TestRunSummary.FailingTests | crates/hindsight-tests/src/nextest.rs:185-187 | the failed results and only those, at most all results; order and multiplicity are pinned by the two lemmas below |
| Nextest.FailedOnlyAppend | crates/hindsight-tests/src/nextest.rs:185-187 | the filter splits over concatenation, so it keeps order and duplicates |
| Nextest.FailedOnlySingle | crates/hindsight-tests/src/nextest.rs:185-187 | a single result is kept iff it failed |
| Nextest.NormalizeTestName | crates/hindsight-tests/src/nextest.rs:284-294 | the suffix after the first '$'; otherwise after the first "::"; otherwise the name |
| Nextest.OutcomeOf | crates/hindsight-tests/src/nextest.rs:245-271 | "ok"→Passed, "ignored"→Ignored, anything else→Failed; never TimedOut |
| Nextest.ParseRunOutput | crates/hindsight-tests/src/nextest.rs:210-278 | an error iff some line fails to decode; otherwise the fold of the lines |
| Nextest.BlankInputGivesEmptySummary | crates/hindsight-tests/src/nextest.rs:215-219 | blank lines only give the empty summary |
| Nextest.FinishedResultsNeverTimedOut | crates/hindsight-tests/src/nextest.rs:245-271 | no result is TimedOut |
| Nextest.OutcomeCountsPartition | crates/hindsight-tests/src/nextest.rs:390-409 | the four outcome counts add up to the number of results |
| Nextest.StreamingParser.constructor | crates/hindsight-tests/src/nextest.rs:319-325 | no pending tests, no results, total 0 |
| Nextest.StreamingParser.ProcessLine | crates/hindsight-tests/src/nextest.rs:332-380 | Some(result) iff a finished test event, which is appended; a start is remembered; a bad line is an error |
| Nextest.StreamingParser.IntoSummary | crates/hindsight-tests/src/nextest.rs:390-409 | passed + failed + ignored = \|results\| |
| Ordering.TakeSortIsTopK | crates/hindsight-mcp/src/queries.rs:328-336 | sorting by rank and truncating to k gives a legal top-k answer |
| Queries.RowCap | crates/hindsight-mcp/src/queries.rs:150 | `limit as i64`: the limit itself up to i64::MAX, no cap above it |
| Queries.Collect | crates/hindsight-mcp/src/queries.rs:161-163 | the rows copied from the engine's ordered answer form a legal top-k answer |
| Queries.TopKIsCapped | crates/hindsight-mcp/src/queries.rs:146 | a legal answer has at most `limit` rows |
| Queries.TopKRowsAreCandidates | crates/hindsight-mcp/src/queries.rs:142-146 | every answered row is a candidate row |
| Queries.ResolveWorkspaceFilter | crates/hindsight-mcp/src/queries.rs:89-113 | a stored path gives its id; otherwise a stored id is returned unchanged; otherwise None |
| Queries.ResolvedFilterIsStored | crates/hindsight-mcp/src/queries.rs:89-113 | a resolved filter is a stored workspace id |
| Queries.ResolveIsIdempotent | crates/hindsight-mcp/src/queries.rs:89-113 | resolving the resolved id again gives the same id |
| Queries.ResolveOptionalFilter | crates/hindsight-mcp/src/queries.rs:134-137 | no filter selects no workspace |
| Queries.EventsOf | crates/hindsight-mcp/src/queries.rs:142-144 | exactly the events of that workspace, each at most once |
| Queries.GetTimeline | crates/hindsight-mcp/src/queries.rs:126-191 | the newest `limit` events of the resolved workspace, or of all when unresolved; at most `limit` |
| Queries.CommitHits | crates/hindsight-mcp/src/queries.rs:218-227 | a hit for every matching commit |
| Queries.MessageHits | crates/hindsight-mcp/src/queries.rs:273-282 | a hit for every matching message |
| Queries.CommitHitsMatch | crates/hindsight-mcp/src/queries.rs:218-227 | every commit hit comes from a matching commit |
| Queries.MessageHitsMatch | crates/hindsight-mcp/src/queries.rs:273-282 | every message hit comes from a matching message |
| Queries.SearchCommits | crates/hindsight-mcp/src/queries.rs:204-246 | an empty query is InvalidParameter before the store is touched; otherwise the best-ranked `limit` commit hits |
| Queries.SearchMessages | crates/hindsight-mcp/src/queries.rs:259-301 | the same over the messages |
| Queries.SearchAll | crates/hindsight-mcp/src/queries.rs:314-338 | both per-source answers are capped at `limit`; the result is their best `limit` by rank |
| Queries.FailuresOf | crates/hindsight-mcp/src/queries.rs:370-376 | exactly the failures whose run is in that workspace |
| Queries.GetFailingTests | crates/hindsight-mcp/src/queries.rs:351-426 | the `limit` most recently started failures, of the resolved workspace's runs when it resolves |
| Queries.WindowStart | crates/hindsight-mcp/src/queries.rs:439 | the window starts no later than now |
| Queries.GetActivitySummary | crates/hindsight-mcp/src/queries.rs:438-481 | echoes days; each count is at most the table size |
| Queries.CommitsSinceMonotone | crates/hindsight-mcp/src/queries.rs:441-445 | a later window start counts no more commits |
| Queries.RunsSinceMonotone | crates/hindsight-mcp/src/queries.rs:448-452 | a later window start counts no more runs |
| Queries.SessionsSinceMonotone | crates/hindsight-mcp/src/queries.rs:455-459 | a later window start counts no more sessions |
| Queries.RunsOfResultSinceMonotone | crates/hindsight-mcp/src/queries.rs:464-467 | a later window start joins no more runs |
| Queries.FailuresSinceMonotone | crates/hindsight-mcp/src/queries.rs:462-472 | a later window start counts no more failures |
| Queries.ActivityGrowsWithDays | crates/hindsight-mcp/src/queries.rs:438-481 | every count grows with days |
| Queries.TimedOutResultsAreNotCounted | crates/hindsight-mcp/src/queries.rs:468 | a result stored as "timed_out" is never counted as failing |
| Queries.FailedResultIsCounted | crates/hindsight-mcp/src/queries.rs:462-472 | a "failed" result of a run inside the window counts once |
| Queries.OnlyRunWithId | crates/hindsight-mcp/src/queries.rs:466 | with unique run ids exactly one run joins |
| Queries.NoRunWithId | crates/hindsight-mcp/src/queries.rs:466 | a result without a run never joins |
| Queries.FirstWithPrefix | crates/hindsight-mcp/src/queries.rs:513-533 | None iff no sha starts with the prefix; otherwise such a commit |
| Queries.FilesOf | crates/hindsight-mcp/src/queries.rs:540-561 | the paths of the diff's files; no diff gives no files |
| Queries.RunsOfCommit | crates/hindsight-mcp/src/queries.rs:564-571 | exactly the runs linked to the full sha |
| Queries.SummaryOf | crates/hindsight-mcp/src/queries.rs:573-581 | copies id, start time and the three counts |
| Queries.LinkedRuns | crates/hindsight-mcp/src/queries.rs:564-584 | one summary per linked run |
| Queries.LinkedRunsAreNewestFirst | crates/hindsight-mcp/src/queries.rs:569 | the runs of a commit are newest first |
| Queries.LinkedRunsAreComplete | crates/hindsight-mcp/src/queries.rs:564-584 | every run linked to the full sha is listed |
| Queries.LinkedRunsAreLinked | crates/hindsight-mcp/src/queries.rs:564-584 | every listed run is linked to the full sha |
| Queries.GetCommitWithTests | crates/hindsight-mcp/src/queries.rs:508-595 | None iff no sha has the prefix; otherwise a matching commit's fields, files and linked runs |
| ChatSessions.MessageRole.DisplayName | crates/hindsight-copilot/src/session.rs:143-149 | User→"User", Assistant→"Copilot", System→"System" |
| ChatSessions.ChatMessage.WithAgent | crates/hindsight-copilot/src/session.rs:110-113 | has_agent holds; everything else is kept |
| ChatSessions.ChatMessage.ContentLen | crates/hindsight-copilot/src/session.rs:117-119 | the UTF-8 byte length: between 1 and 4 bytes per character |
| ChatSessions.UserMessage | crates/hindsight-copilot/src/session.rs:88-95 | role User, no agent |
| ChatSessions.AssistantMessage | crates/hindsight-copilot/src/session.rs:99-106 | role Assistant, no agent |
| ChatSessions.WithRole | crates/hindsight-copilot/src/session.rs:48-62 | exactly the messages with that role |
| ChatSessions.RoleFiltersBounded | crates/hindsight-copilot/src/session.rs:48-62 | the user and assistant filters together have at most message_count messages |
| ChatSessions.WithRoleAppend | crates/hindsight-copilot/src/session.rs:35-62 | appending keeps the filter order |
| ChatSessions.ChatSession.constructor | crates/hindsight-copilot/src/session.rs:24-32 | created_at = updated_at = timestamp, no messages, so it is empty |
| ChatSessions.ChatSession.AddMessage | crates/hindsight-copilot/src/session.rs:35-38 | appends, raises the count by one, moves updated_at; ids and created_at are kept |
| ChatSessions.ChatSession.UserMessages | crates/hindsight-copilot/src/session.rs:48-53 | exactly the user messages |
| ChatSessions.ChatSession.AssistantMessages | crates/hindsight-copilot/src/session.rs:57-62 | exactly the assistant messages |
| TestResults.TestResult.ModulePath | crates/hindsight-tests/src/result.rs:46-48 | None iff there is no "::"; otherwise the text before the last "::" |
| TestResults.TestResult.TestFnName | crates/hindsight-tests/src/result.rs:52-57 | the suffix after the last "::", or the whole name |
| TestResults.TestResult.DurationDisplayMs | crates/hindsight-tests/src/result.rs:36-38 | below 1000 ms, the decimal value followed by "ms" |
| TestResults.PassedFailedExclusive | crates/hindsight-tests/src/result.rs:24-32 | passed iff Passed, failed iff Failed, never both |
| TestResults.IsSuccessExactly | crates/hindsight-tests/src/result.rs:77-79 | success iff Passed or Ignored |
| TestResults.ModulePathRoundTrip | crates/hindsight-tests/src/result.rs:46-57 | module path + "::" + function name is the name |

## Left out

- SQLite itself is not modelled: SQL text, prepared statements and rusqlite errors other than a
  missing table or a key conflict. Transactions are modelled only as all-or-nothing.
- `schema.sql` is not part of this model. The commit key behind INSERT OR IGNORE,
  the version the initial migration records, and the `timeline` and `failing_tests` views are
  stated assumptions. The view rows are parameters of the queries that read them.
- FTS5 matching, `rank` and `snippet()` are parameters (`FullTextIndex`); rank is an integer,
  while the real one is an f64 compared with `partial_cmp`.
- LIKE's wildcards and case folding are not modelled: the commit-prefix lookup is a plain prefix.
- Timestamps are integer seconds, and `datetime('now', …)` is a `now` parameter. Comparing RFC 3339
  strings (section 5.6 of RFC 3339) and `parse_timestamp`'s fallback to the current time are not
  modelled.
- JSON is left out. Arguments arrive as already-parsed optional fields, so a wrong JSON type is not
  modelled, and JSON columns are held as values. The `{"files": [...]}` decoding of
  `get_commit_with_tests` is the typed diff's file paths.
- Row decode (`row.get`) errors are left out. The run rows of `get_commit_with_tests` are taken
  without the `filter_map(Result::ok)` drop.
- git2 is left out. The revwalk is a sequence of entries, each with its own read or diff error;
  `extract_diff` is not modelled.
- Session discovery, file reading and the per-session parser are inputs: a list of parsed files or
  errors. `default_chat_sessions_dir` is not modelled.
- UUIDs come from an injective source. Commit ids are drawn for the kept commits after the loop,
  not inside it. This is not observable.
- Ingest.Ingestor.RecordCommits: `get_last_ingested_sha` runs after the walk rather than before it,
  and its own SQL error is not modelled, because the lookup cannot fail in this model.
- Ingest.Ingestor.IngestGit: the "error means no Completed event" property is stated in one
  direction only.
- The progress callback is a ghost log of the events passed to `report`, and `Delivered()` is what
  an installed callback has received. What the callback does with them, and `tracing` logging, are
  left out.
- Queries.SearchAll: the result is stated as a top-k by rank of the two per-source answers. The
  stable `sort_by` fixes the order among equal ranks (commit hits first); the model does not state
  that order.
- Floating point is left out: `exec_time` and `duration_display`'s seconds branch. Only the ms branch
  is modelled.
- `TestOutcome::symbol` (emoji output) is not modelled.
- `Commit::is_valid_sha`, `is_merge`, `is_root`, `TestRunSummary::all_passed`, `TestOutcome::is_success`
  and the LSP kind tests are predicates whose body is the definition. Their properties are stated in
  lemmas.
- Environment.FileName: does not model `OsStr::to_str` failing on non-UTF-8 names. Paths are Unix
  '/'-separated text; Windows prefixes and `\` separators are not modelled.
- Integer widths: `usize` and `u32` arguments are unbounded naturals. Only the casts the source
  writes (`as i32`, `as i64`) are modelled.
- Handlers.HandleFailingTests: the `commit` argument is parsed and then ignored. `get_failing_tests`
  takes no commit filter, so none is applied.
- Handlers.HandleSearch: for a source other than "commits" or "messages", the result is stated as
  sorted, at most `limit`, and drawn from both indexes' hits. The full top-k relation over
  the per-source answers is stated in `Queries.SearchAll`.
- Ingest.LastIngestedSha: when several stored commits of the workspace share the greatest
  timestamp, the model returns the first of them in table order (`NewestOf`). `ORDER BY timestamp
  DESC LIMIT 1` promises no particular one, so the incremental stop sha is one legal answer, not
  every legal answer.
- Queries.LinkedRuns: the runs of `get_commit_with_tests` that share a `started_at` keep table order
  (a stable sort); `ORDER BY r.started_at DESC` leaves their order open. The newest-first order is
  what `Queries.LinkedRunsAreNewestFirst` states.
- `handle_ingest` never ingests tests; `ingest_tests` is reached only through `Ingestor`.
- Code outside the core is not modelled: the MCP server, the CLI, `parse_list_output`'s JSON and the
  watcher.
