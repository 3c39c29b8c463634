/** The ingestion coordinator (hindsight-mcp, ingest.rs).

    Git, the test-output parser and Copilot session discovery are not called:
    their results come in as parameters (a `GitWalk.GitRepo` or the error of
    opening it, the decoded lines of a test run, the discovered sessions with
    the outcome of parsing each). UUIDs come from a `UuidSource` and the
    current time is a parameter. The progress callback is a ghost log of the
    events handed to it. */
module Ingest {
  import opened Wrappers
  import opened Text
  import opened Db
  import GitWalk
  import Nextest
  import TestResults
  import ChatSessions
  import Environment

  datatype IngestError =
    | Database(cause: DbError)
    | Git(gitCause: GitWalk.GitError)
    | Copilot(message: string)
    | Tests(testsCause: Nextest.TestsError)
    | Json(jsonMessage: string)
    | WorkspaceNotFound(path: string)

  // ------------------------------------------------------------ options and statistics

  datatype IngestOptions = IngestOptions(commitLimit: Option<nat>, includeDiffs: bool, incremental: bool)
  {
    /** `with_limit`: only the limit changes. */
    function WithLimit(limit: nat): (r: IngestOptions)
      ensures r.commitLimit == Some(limit)
      ensures r.includeDiffs == includeDiffs && r.incremental == incremental
    {
      this.(commitLimit := Some(limit))
    }

    /** `with_diffs`: only the diff flag changes. */
    function WithDiffs(): (r: IngestOptions)
      ensures r.includeDiffs
      ensures r.commitLimit == commitLimit && r.incremental == incremental
    {
      this.(includeDiffs := true)
    }
  }

  /** `IngestOptions::default`: everything off, no limit. */
  function DefaultOptions(): (r: IngestOptions)
    ensures r.commitLimit.None? && !r.includeDiffs && !r.incremental
  {
    IngestOptions(None, false, false)
  }

  /** `IngestOptions::full`: every commit, with diffs, not incremental. */
  function FullOptions(): (r: IngestOptions)
    ensures r.commitLimit.None? && r.includeDiffs && !r.incremental
  {
    IngestOptions(None, true, false)
  }

  /** `IngestOptions::incremental`: every new commit, with diffs. */
  function IncrementalOptions(): (r: IngestOptions)
    ensures r.commitLimit.None? && r.includeDiffs && r.incremental
  {
    IngestOptions(None, true, true)
  }

  datatype IngestStats = IngestStats(
    commitsInserted: nat,
    commitsSkipped: nat,
    testRunsInserted: nat,
    testResultsInserted: nat,
    sessionsInserted: nat,
    messagesInserted: nat,
    warnings: nat)
  {
    /** `total_items`: the inserted items of every kind; skipped commits and
        warnings are not items. */
    function TotalItems(): (n: nat)
      ensures n >= commitsInserted && n >= testRunsInserted && n >= testResultsInserted
      ensures n >= sessionsInserted && n >= messagesInserted
      ensures n == 0 <==> commitsInserted == 0 && testRunsInserted == 0 && testResultsInserted == 0 &&
                          sessionsInserted == 0 && messagesInserted == 0
    {
      commitsInserted + testRunsInserted + testResultsInserted + sessionsInserted + messagesInserted
    }

    /** `merge`: add the other statistics counter by counter. */
    function Merge(other: IngestStats): (r: IngestStats)
      ensures r.commitsInserted == commitsInserted + other.commitsInserted
      ensures r.commitsSkipped == commitsSkipped + other.commitsSkipped
      ensures r.testRunsInserted == testRunsInserted + other.testRunsInserted
      ensures r.testResultsInserted == testResultsInserted + other.testResultsInserted
      ensures r.sessionsInserted == sessionsInserted + other.sessionsInserted
      ensures r.messagesInserted == messagesInserted + other.messagesInserted
      ensures r.warnings == warnings + other.warnings
    {
      IngestStats(commitsInserted + other.commitsInserted, commitsSkipped + other.commitsSkipped,
        testRunsInserted + other.testRunsInserted, testResultsInserted + other.testResultsInserted,
        sessionsInserted + other.sessionsInserted, messagesInserted + other.messagesInserted,
        warnings + other.warnings)
    }
  }

  function ZeroStats(): IngestStats {
    IngestStats(0, 0, 0, 0, 0, 0, 0)
  }

  /** Merging adds the item totals, so merged statistics never lose items. */
  lemma MergeAddsTotals(a: IngestStats, b: IngestStats)
    ensures a.Merge(b).TotalItems() == a.TotalItems() + b.TotalItems()
  {
  }

  /** What `ingest_all` adds up from its two passes. */
  lemma TotalsOfTwoPasses(a: IngestStats, b: IngestStats)
    ensures ZeroStats().Merge(a).Merge(b) == a.Merge(b)
    ensures a.Merge(b).warnings == a.warnings + b.warnings
    ensures a.Merge(b).TotalItems() == a.TotalItems() + b.TotalItems()
  {
  }

  /** The empty statistics are the unit of merging, and the order of
      merging does not matter. */
  lemma MergeIsCommutativeMonoid(a: IngestStats, b: IngestStats, c: IngestStats)
    ensures a.Merge(ZeroStats()) == a && ZeroStats().Merge(a) == a
    ensures a.Merge(b) == b.Merge(a)
    ensures a.Merge(b).Merge(c) == a.Merge(b.Merge(c))
  {
  }

  datatype ProgressEvent =
    | Started(source: string, totalItems: Option<nat>)
    | Progress(source: string, processed: nat, total: Option<nat>)
    | Warning(source: string, message: string)
    | Completed(source: string, stats: IngestStats)

  predicate NoCompleted(es: seq<ProgressEvent>) {
    forall k :: 0 <= k < |es| ==> !es[k].Completed?
  }

  // ------------------------------------------------------------ helpers

  /** `outcome_to_string`. */
  function OutcomeToString(o: TestResults.TestOutcome): (r: string)
    ensures o.Passed? <==> r == "passed"
    ensures o.Failed? <==> r == "failed"
    ensures o.Ignored? <==> r == "ignored"
    ensures o.TimedOut? <==> r == "timed_out"
  {
    match o
    case Passed => "passed"
    case Failed => "failed"
    case Ignored => "ignored"
    case TimedOut => "timed_out"
  }

  /** `split_test_name`: suite and test at the first "::", or an empty suite
      and the whole name. */
  function SplitTestName(name: string): (r: (string, string))
    ensures Find(name, "::").None? ==> r == ("", name)
    ensures Find(name, "::").Some? ==> r.0 + "::" + r.1 == name && !Contains(r.0, "::")
    ensures Find(name, "::").Some? ==>
      OccursAt(name, "::", |r.0|) && forall j :: 0 <= j < |r.0| ==> !OccursAt(name, "::", j)
  {
    match Find(name, "::")
    case None => ("", name)
    case Some(pos) =>
      SplitAtOccurrence(name, "::", pos);
      assert !Contains(name[..pos], "::") by {
        forall j | 0 <= j <= pos
          ensures !OccursAt(name[..pos], "::", j)
        {
          if OccursAt(name[..pos], "::", j) {
            assert name[..pos][j..j + 2] == name[j..j + 2];
            assert OccursAt(name, "::", j);
          }
        }
      }
      (name[..pos], name[pos + 2..])
  }

  predicate Contains(s: string, pat: string) {
    exists j :: 0 <= j <= |s| && OccursAt(s, pat, j)
  }

  /** The workspace name: the last normal component of the path, after
      trailing separators and "." components, or "unknown" when it has
      none (the root, ".", "" or a path ending in ".."). */
  function WorkspaceName(path: string): (r: string)
    ensures Environment.FileName(path).None? ==> r == "unknown"
    ensures Environment.FileName(path).Some? ==>
      var q := Environment.TrimBack(path);
      Environment.NormalComponent(r) && |r| <= |q| && q[|q| - |r|..] == r && (|r| == |q| || q[|q| - |r| - 1] == '/')
  {
    Environment.FileName(path).GetOr("unknown")
  }

  /** A workspace directory is named after its last component, however the
      path ends. */
  lemma WorkspaceNameOfDirectory(parent: string, dir: string)
    requires Environment.NormalComponent(dir)
    ensures WorkspaceName(dir) == dir
    ensures WorkspaceName(parent + "/" + dir) == dir
    ensures WorkspaceName(parent + "/" + dir + "/") == dir && WorkspaceName(parent + "/" + dir + "/.") == dir
  {
    Environment.FileNameOfComponent(dir);
    Environment.FileNameAfterSeparator(parent, dir);
    Environment.TrailingDotIgnored(parent + "/" + dir);
  }

  /** A generator of identifiers never yields the same one twice. */
  ghost predicate Injective(mint: nat -> string) {
    forall m: nat, n: nat :: m != n ==> mint(m) != mint(n)
  }

  /** One generator that qualifies: a prefix and the position in decimal. */
  function UuidOf(n: nat): string {
    "uuid-" + NatToString(n)
  }

  lemma UuidOfInjective()
    ensures Injective(UuidOf)
  {
    forall m: nat, n: nat | UuidOf(m) == UuidOf(n)
      ensures m == n
    {
      assert UuidOf(m)[5..] == NatToString(m);
      assert UuidOf(n)[5..] == NatToString(n);
      NatToStringRoundTrip(m);
      NatToStringRoundTrip(n);
    }
  }

  /** `Uuid::new_v4` as a source of distinct identifiers. The random bits
      are the generator `mint`, consulted at one new position per call;
      `issued` lists every identifier handed out so far. */
  class UuidSource {
    const mint: nat -> string
    var issued: seq<string>

    ghost predicate Valid()
      reads this
    {
      Injective(mint) && forall k :: 0 <= k < |issued| ==> issued[k] == mint(k)
    }

    constructor(mint: nat -> string)
      requires Injective(mint)
      ensures Valid() && this.mint == mint && issued == []
    {
      this.mint := mint;
      issued := [];
    }

    /** A new identifier, different from every one handed out before. */
    method Next() returns (id: string)
      requires Valid()
      modifies this
      ensures Valid()
      ensures issued == old(issued) + [id] && id !in old(issued)
    {
      id := mint(|issued|);
      issued := issued + [id];
    }

    /** `n` new identifiers, different from each other and from every one
        handed out before. */
    method NextMany(n: nat) returns (ids: seq<string>)
      requires Valid()
      modifies this
      ensures Valid()
      ensures |ids| == n && issued == old(issued) + ids
    {
      ids := [];
      while |ids| < n
        invariant |ids| <= n && Valid() && issued == old(issued) + ids
      {
        var id := Next();
        ids := ids + [id];
      }
    }
  }

  /** Everything a valid source has handed out is distinct. */
  lemma IssuedDistinct(source: UuidSource)
    requires source.Valid()
    ensures forall i, j :: 0 <= i < j < |source.issued| ==> source.issued[i] != source.issued[j]
  {
  }

  // ------------------------------------------------------------ workspaces, specified

  /** The workspaces table after `get_or_create_workspace` for `path` with
      the identifier `drawn`: unchanged when the path is already stored,
      the schema is missing or the identifier is taken; otherwise one new
      row at the end, named after the path. */
  function OpenedWorkspaces(workspaces: seq<WorkspaceRecord>, tablesExist: bool, path: string, drawn: string,
                            now: int): (r: seq<WorkspaceRecord>)
    ensures workspaces <= r && |r| <= |workspaces| + 1
    ensures FindWorkspaceByPath(workspaces, path).Some? ==> r == workspaces
    ensures FindWorkspaceByPath(r, path).Some? <==>
      FindWorkspaceByPath(workspaces, path).Some? || (tablesExist && !HasWorkspaceId(workspaces, drawn))
  {
    if tablesExist && FindWorkspaceByPath(workspaces, path).None? && !HasWorkspaceId(workspaces, drawn) then
      var r := workspaces + [NewWorkspaceRecord(WorkspaceName(path), path, drawn, now)];
      assert r[|workspaces|].path == path;
      r
    else workspaces
  }

  /** A row appended for a path no row has is the one found for it. */
  lemma {:induction false} FindAppendedWorkspace(t: seq<WorkspaceRecord>, w: WorkspaceRecord)
    requires FindWorkspaceByPath(t, w.path).None?
    ensures FindWorkspaceByPath(t + [w], w.path) == Some(|t|)
  {
    if t != [] {
      assert (t + [w])[1..] == t[1..] + [w];
      FindAppendedWorkspace(t[1..], w);
    }
  }

  /** Once opened, the workspace found for the path carries the identifier
      stored for it before, or else the one drawn; and opening it again
      changes nothing, whatever identifier is drawn then. */
  lemma OpenedWorkspaceId(workspaces: seq<WorkspaceRecord>, tablesExist: bool, path: string, drawn: string, now: int,
                          drawn2: string, later: int)
    requires FindWorkspaceByPath(OpenedWorkspaces(workspaces, tablesExist, path, drawn, now), path).Some?
    ensures var r := OpenedWorkspaces(workspaces, tablesExist, path, drawn, now);
      r[FindWorkspaceByPath(r, path).value].id ==
        (if FindWorkspaceByPath(workspaces, path).Some? then workspaces[FindWorkspaceByPath(workspaces, path).value].id
         else drawn) &&
      OpenedWorkspaces(r, tablesExist, path, drawn2, later) == r
  {
    if FindWorkspaceByPath(workspaces, path).None? {
      FindAppendedWorkspace(workspaces, NewWorkspaceRecord(WorkspaceName(path), path, drawn, now));
    }
  }

  // ------------------------------------------------------------ git ingestion, specified

  /** `get_last_ingested_sha`: the sha of a stored commit of the workspace
      with the greatest timestamp (the first such row in this model). */
  function LastIngestedSha(t: seq<CommitRecord>, workspaceId: string): (r: Option<string>)
    ensures r.None? <==> forall k :: 0 <= k < |t| ==> t[k].workspaceId != workspaceId
    ensures r.Some? ==> exists k :: (0 <= k < |t| && t[k].workspaceId == workspaceId && t[k].sha == r.value &&
                                     forall j :: 0 <= j < |t| && t[j].workspaceId == workspaceId ==> t[j].timestamp <= t[k].timestamp)
  {
    match NewestOf(t, workspaceId)
    case None => None
    case Some(k) => Some(t[k].sha)
  }

  function NewestOf(t: seq<CommitRecord>, workspaceId: string): (r: Option<nat>)
    ensures r.None? <==> forall k :: 0 <= k < |t| ==> t[k].workspaceId != workspaceId
    ensures r.Some? ==> (r.value < |t| && t[r.value].workspaceId == workspaceId &&
                         forall j :: 0 <= j < |t| && t[j].workspaceId == workspaceId ==> t[j].timestamp <= t[r.value].timestamp)
  {
    if t == [] then None
    else
      var rest := NewestOf(t[..|t| - 1], workspaceId);
      var last := t[|t| - 1];
      if last.workspaceId != workspaceId then rest
      else if rest.Some? && t[rest.value].timestamp >= last.timestamp then rest
      else Some(|t| - 1)
  }

  /** The walk options `ingest_git` builds from its own options. */
  function GitWalkOptions(options: IngestOptions): (r: GitWalk.WalkOptions)
    ensures r.limit == options.commitLimit && r.includeDiff == options.includeDiffs
    ensures r.fromRef.None? && r.since.None? && r.until.None?
  {
    var base := if options.commitLimit.Some? then GitWalk.Latest(options.commitLimit.value) else GitWalk.DefaultWalkOptions();
    if options.includeDiffs then base.WithDiff() else base
  }

  /** Index of the first commit with the stop sha, or the length. */
  function StopIndex(cs: seq<GitWalk.CommitWithDiff>, stop: Option<string>): (k: nat)
    ensures k <= |cs|
    ensures forall i :: 0 <= i < k ==> !(stop.Some? && cs[i].commit.sha == stop.value)
    ensures k < |cs| ==> stop.Some? && cs[k].commit.sha == stop.value
  {
    if cs == [] then 0
    else if stop.Some? && cs[0].commit.sha == stop.value then 0
    else 1 + StopIndex(cs[1..], stop)
  }

  /** The record `ingest_git` builds for one commit. */
  function CommitRecordOf(c: GitWalk.CommitWithDiff, workspaceId: string, id: string, now: int): (r: CommitRecord)
    ensures r.id == id && r.workspaceId == workspaceId && r.sha == c.commit.sha
    ensures r.author == c.commit.author && r.authorEmail == Some(c.commit.authorEmail)
    ensures r.message == c.commit.message && r.timestamp == c.commit.timestamp
    ensures r.parentsJson == Some(c.commit.parents) && r.diffJson == c.diff
  {
    var r := NewCommitRecord(workspaceId, c.commit.sha, c.commit.author, Some(c.commit.authorEmail),
      c.commit.message, c.commit.timestamp, id, now).WithParents(c.commit.parents);
    if c.diff.Some? then r.WithDiffJson(c.diff.value) else r
  }

  /** The first `n` commits of `cs` that are not skipped, in walk order:
      in incremental mode a commit already stored for the workspace is
      skipped. */
  function Kept(cs: seq<GitWalk.CommitWithDiff>, n: nat, incremental: bool, stored: seq<CommitRecord>,
                workspaceId: string): seq<GitWalk.CommitWithDiff>
    requires n <= |cs|
  {
    if n == 0 then []
    else
      var ks := Kept(cs, n - 1, incremental, stored, workspaceId);
      if (incremental && FindCommit(stored, workspaceId, cs[n - 1].commit.sha).Some?) then ks else ks + [cs[n - 1]]
  }

  /** How many of the first `n` commits are skipped. */
  function SkippedCount(cs: seq<GitWalk.CommitWithDiff>, n: nat, incremental: bool, stored: seq<CommitRecord>,
                        workspaceId: string): nat
    requires n <= |cs|
  {
    if n == 0 then 0
    else
      var one := if (incremental && FindCommit(stored, workspaceId, cs[n - 1].commit.sha).Some?) then 1 else 0;
      SkippedCount(cs, n - 1, incremental, stored, workspaceId) + one
  }

  /** The progress events of the first `n` commits: one after every tenth
      position whose commit was not skipped. */
  function GitProgress(cs: seq<GitWalk.CommitWithDiff>, n: nat, incremental: bool,
                       stored: seq<CommitRecord>, workspaceId: string): seq<ProgressEvent>
    requires n <= |cs|
  {
    if n == 0 then []
    else
      var here := if !(incremental && FindCommit(stored, workspaceId, cs[n - 1].commit.sha).Some?) && n % 10 == 0
                  then [Progress("git", n, Some(|cs|))] else [];
      GitProgress(cs, n - 1, incremental, stored, workspaceId) + here
  }

  /** The records of the kept commits, the k-th with the k-th identifier. */
  function CommitRecords(ks: seq<GitWalk.CommitWithDiff>, workspaceId: string, ids: seq<string>, now: int)
    : (rs: seq<CommitRecord>)
    requires |ids| == |ks|
    ensures |rs| == |ks|
    ensures forall k :: 0 <= k < |rs| ==> rs[k] == CommitRecordOf(ks[k], workspaceId, ids[k], now)
  {
    if ks == [] then []
    else
      var init := CommitRecords(ks[..|ks| - 1], workspaceId, ids[..|ids| - 1], now);
      var last := CommitRecordOf(ks[|ks| - 1], workspaceId, ids[|ids| - 1], now);
      assert forall k :: 0 <= k < |init| ==> (init + [last])[k] == init[k];
      init + [last]
  }

  lemma CommitRecordsAppend(ks: seq<GitWalk.CommitWithDiff>, workspaceId: string, ids: seq<string>, now: int,
                            c: GitWalk.CommitWithDiff, id: string)
    requires |ids| == |ks|
    ensures CommitRecords(ks + [c], workspaceId, ids + [id], now) ==
      CommitRecords(ks, workspaceId, ids, now) + [CommitRecordOf(c, workspaceId, id, now)]
  {
    assert (ks + [c])[..|ks|] == ks;
    assert (ids + [id])[..|ids|] == ids;
  }

  /** One more commit: how the three walk functions grow. */
  lemma GitStep(cs: seq<GitWalk.CommitWithDiff>, n: nat, incremental: bool, stored: seq<CommitRecord>, workspaceId: string)
    requires n < |cs|
    ensures var skip := incremental && FindCommit(stored, workspaceId, cs[n].commit.sha).Some?;
      Kept(cs, n + 1, incremental, stored, workspaceId) ==
        (if skip then Kept(cs, n, incremental, stored, workspaceId) else Kept(cs, n, incremental, stored, workspaceId) + [cs[n]]) &&
      SkippedCount(cs, n + 1, incremental, stored, workspaceId) ==
        SkippedCount(cs, n, incremental, stored, workspaceId) + (if skip then 1 else 0) &&
      GitProgress(cs, n + 1, incremental, stored, workspaceId) ==
        GitProgress(cs, n, incremental, stored, workspaceId) +
        (if !skip && (n + 1) % 10 == 0 then [Progress("git", n + 1, Some(|cs|))] else [])
  {
  }

  /** Every commit considered is either skipped or kept; the kept ones keep
      the walk's order, in incremental mode none of them is already stored,
      and outside incremental mode every commit is kept. */
  lemma {:induction false} KeptFacts(cs: seq<GitWalk.CommitWithDiff>, n: nat, incremental: bool, stored: seq<CommitRecord>,
                                     workspaceId: string)
    requires n <= |cs|
    ensures |Kept(cs, n, incremental, stored, workspaceId)| + SkippedCount(cs, n, incremental, stored, workspaceId) == n
    ensures forall c :: c in Kept(cs, n, incremental, stored, workspaceId) ==>
      c in cs[..n] && (incremental ==> !HasCommit(stored, workspaceId, c.commit.sha))
    ensures !incremental ==> Kept(cs, n, incremental, stored, workspaceId) == cs[..n]
  {
    if n > 0 {
      KeptFacts(cs, n - 1, incremental, stored, workspaceId);
      assert cs[..n] == cs[..n - 1] + [cs[n - 1]];
    }
  }

  /** A second incremental pass over the same walk, once the first pass's
      commits are stored, keeps nothing. */
  lemma IncrementalRerunSkipsAll(cs: seq<GitWalk.CommitWithDiff>, n: nat, stored: seq<CommitRecord>, workspaceId: string)
    requires n <= |cs|
    requires forall i :: 0 <= i < n ==> HasCommit(stored, workspaceId, cs[i].commit.sha)
    ensures Kept(cs, n, true, stored, workspaceId) == []
    ensures SkippedCount(cs, n, true, stored, workspaceId) == n
    ensures GitProgress(cs, n, true, stored, workspaceId) == []
  {
    KeptFacts(cs, n, true, stored, workspaceId);
    NoProgressWhenAllSkipped(cs, n, stored, workspaceId);
  }

  lemma {:induction false} NoProgressWhenAllSkipped(cs: seq<GitWalk.CommitWithDiff>, n: nat, stored: seq<CommitRecord>,
                                                    workspaceId: string)
    requires n <= |cs|
    requires forall i :: 0 <= i < n ==> HasCommit(stored, workspaceId, cs[i].commit.sha)
    ensures GitProgress(cs, n, true, stored, workspaceId) == []
  {
    if n > 0 {
      NoProgressWhenAllSkipped(cs, n - 1, stored, workspaceId);
    }
  }

  /** The progress events of the git pass never include a completion. */
  lemma {:induction false} GitProgressHasNoCompleted(cs: seq<GitWalk.CommitWithDiff>, n: nat, incremental: bool,
                                                     stored: seq<CommitRecord>, workspaceId: string)
    requires n <= |cs|
    ensures NoCompleted(GitProgress(cs, n, incremental, stored, workspaceId))
    ensures NoCompleted([Started("git", Some(|cs|))] + GitProgress(cs, n, incremental, stored, workspaceId))
  {
    if n > 0 {
      GitProgressHasNoCompleted(cs, n - 1, incremental, stored, workspaceId);
    }
  }

  // ------------------------------------------------------------ test ingestion, specified

  /** The record `ingest_tests` builds for one result. */
  function ResultRecordOf(t: TestResults.TestResult, runId: string, id: string, now: int): (r: TestResultRecord)
    ensures r.id == id && r.runId == runId
    ensures r.suiteName == SplitTestName(t.name).0 && r.testName == SplitTestName(t.name).1
    ensures r.outcome == OutcomeToString(t.outcome) && r.durationMs == Some(CastI64(t.durationMs))
    ensures r.outputJson == if t.output.Some? then Some(TestOutput(t.output, None)) else None
  {
    var split := SplitTestName(t.name);
    var rec := NewTestResultRecord(runId, split.0, split.1, OutcomeToString(t.outcome), Some(CastI64(t.durationMs)), id, now);
    if t.output.Some? then rec.WithOutput(t.output, None) else rec
  }

  /** The records of a run's results, in order, the k-th with the k-th
      identifier. */
  function ResultRecords(ts: seq<TestResults.TestResult>, runId: string, ids: seq<string>, now: int)
    : (rs: seq<TestResultRecord>)
    requires |ids| == |ts|
    ensures |rs| == |ts|
  {
    seq(|ts|, k requires 0 <= k < |ts| => ResultRecordOf(ts[k], runId, ids[k], now))
  }

  /** The run `ingest_tests` records for a parsed summary. */
  function RunRecordOf(summary: Nextest.TestRunSummary, workspaceId: string, commitSha: Option<string>, id: string, now: int): (r: TestRunRecord)
    ensures r.id == id && r.workspaceId == workspaceId && r.commitSha == commitSha
    ensures r.passedCount == CastI32(summary.passed) && r.failedCount == CastI32(summary.failed)
    ensures r.ignoredCount == CastI32(summary.ignored)
    ensures r.startedAt == now && r.finishedAt == Some(now)
  {
    var run := NewTestRunRecord(workspaceId, id, now).Finished(CastI32(summary.passed), CastI32(summary.failed), CastI32(summary.ignored), now);
    if commitSha.Some? then run.WithCommit(commitSha.value) else run
  }

  // ------------------------------------------------------------ copilot ingestion, specified

  /** A message as `parse_session_file` yields it. `variablesJson` is the
      serialised variable list, None when the list is empty (or does not
      serialise). */
  datatype ParsedMessage = ParsedMessage(role: ChatSessions.MessageRole, content: string, timestamp: int, variablesJson: Option<string>)

  datatype ParsedSession = ParsedSession(id: string, model: Option<string>, mode: Option<string>, messages: seq<ParsedMessage>)

  /** A discovered session file and the outcome of parsing it. */
  datatype DiscoveredSession = DiscoveredSession(sessionId: string, path: string, parsed: Result<ParsedSession, string>)

  /** The role column. */
  function RoleName(role: ChatSessions.MessageRole): (r: string)
    ensures role.User? <==> r == "user"
    ensures role.Assistant? <==> r == "assistant"
    ensures role.System? <==> r == "system"
  {
    match role
    case User => "user"
    case Assistant => "assistant"
    case System => "system"
  }

  function MessageRecordOf(m: ParsedMessage, sessionId: string, id: string, now: int): (r: CopilotMessageRecord)
    ensures r.id == id && r.sessionId == sessionId && r.role == RoleName(m.role)
    ensures r.content == m.content && r.timestamp == m.timestamp
    ensures r.variablesJson == m.variablesJson && r.requestId.None?
  {
    var rec := NewCopilotMessageRecord(sessionId, RoleName(m.role), m.content, m.timestamp, id, now);
    if m.variablesJson.Some? then rec.WithVariablesJson(m.variablesJson.value) else rec
  }

  /** The records of a session's messages, in order, the k-th with the
      k-th identifier. */
  function MessageRecords(ms: seq<ParsedMessage>, sessionId: string, ids: seq<string>, now: int)
    : (rs: seq<CopilotMessageRecord>)
    requires |ids| == |ms|
    ensures |rs| == |ms|
  {
    seq(|ms|, k requires 0 <= k < |ms| => MessageRecordOf(ms[k], sessionId, ids[k], now))
  }

  function ParseFailures(ss: seq<DiscoveredSession>): (n: nat)
    ensures n <= |ss|
  {
    if ss == [] then 0
    else ParseFailures(ss[..|ss| - 1]) + (if ss[|ss| - 1].parsed.Err? then 1 else 0)
  }

  ghost function WarningCount(es: seq<ProgressEvent>): (n: nat)
    ensures n <= |es|
  {
    if es == [] then 0
    else WarningCount(es[..|es| - 1]) + (if es[|es| - 1].Warning? then 1 else 0)
  }

  /** The statistics a sub-ingestion contributes to `ingest_all`: its own
      on success, one warning on failure. */
  function Contribution(r: Result<IngestStats, IngestError>): (s: IngestStats)
    ensures r.Ok? ==> s == r.value
    ensures r.Err? ==> s.warnings == 1 && s.TotalItems() == 0
  {
    if r.Ok? then r.value else ZeroStats().(warnings := 1)
  }

  /** Sessions whose outcome is an error. */
  function FailureCount(outs: seq<Result<IngestStats, IngestError>>): (n: nat)
    ensures n <= |outs|
  {
    if outs == [] then 0
    else FailureCount(outs[..|outs| - 1]) + (if outs[|outs| - 1].Err? then 1 else 0)
  }

  /** The statistics of the copilot pass after the given per-session
      outcomes. */
  function CopilotTotals(outs: seq<Result<IngestStats, IngestError>>): IngestStats {
    if outs == [] then ZeroStats()
    else CopilotTotals(outs[..|outs| - 1]).Merge(Contribution(outs[|outs| - 1]))
  }

  /** What one session may contribute: at most one session and its messages. */
  predicate SessionOutcome(o: Result<IngestStats, IngestError>) {
    o.Ok? ==> o.value.commitsInserted == 0 && o.value.commitsSkipped == 0 && o.value.testRunsInserted == 0 &&
              o.value.testResultsInserted == 0 && o.value.warnings == 0 && o.value.sessionsInserted <= 1
  }

  lemma AppendAssociates<T>(a: seq<T>, b: seq<T>, c: seq<T>)
    ensures (a + b) + c == a + (b + c)
  {
  }

  lemma PrefixTransitive<T>(a: seq<T>, b: seq<T>, c: seq<T>)
    requires a <= b && b <= c
    ensures a <= c
  {
  }

  /** Session outcomes that fit the sessions they came from: each is a
      possible outcome of one session, and it is a failure wherever the
      session file did not parse. */
  predicate OutcomesFit(ss: seq<DiscoveredSession>, outs: seq<Result<IngestStats, IngestError>>) {
    |outs| <= |ss| &&
    (forall k :: 0 <= k < |outs| ==> SessionOutcome(outs[k])) &&
    (forall k :: 0 <= k < |outs| ==> ss[k].parsed.Err? ==> outs[k] == Err(Copilot(ss[k].parsed.error)))
  }

  lemma OutcomesFitAppend(ss: seq<DiscoveredSession>, outs: seq<Result<IngestStats, IngestError>>,
                          o: Result<IngestStats, IngestError>)
    requires OutcomesFit(ss, outs) && |outs| < |ss| && SessionOutcome(o)
    requires ss[|outs|].parsed.Err? ==> o == Err(Copilot(ss[|outs|].parsed.error))
    ensures OutcomesFit(ss, outs + [o])
  {
    assert forall k :: 0 <= k < |outs| ==> (outs + [o])[k] == outs[k];
  }

  /** Each failed session is one warning; the totals hold sessions and
      messages only, and at most one session per session file. */
  lemma {:induction false} CopilotTotalsFacts(outs: seq<Result<IngestStats, IngestError>>)
    requires forall k :: 0 <= k < |outs| ==> SessionOutcome(outs[k])
    ensures CopilotTotals(outs).warnings == FailureCount(outs)
    ensures CopilotTotals(outs).commitsInserted == 0 && CopilotTotals(outs).commitsSkipped == 0
    ensures CopilotTotals(outs).testRunsInserted == 0 && CopilotTotals(outs).testResultsInserted == 0
    ensures CopilotTotals(outs).sessionsInserted + FailureCount(outs) <= |outs|
  {
    if outs != [] {
      var init := outs[..|outs| - 1];
      CopilotTotalsFacts(init);
      var last := outs[|outs| - 1];
      assert SessionOutcome(last);
      assert CopilotTotals(outs) == CopilotTotals(init).Merge(Contribution(last));
      assert FailureCount(outs) == FailureCount(init) + (if last.Err? then 1 else 0);
    }
  }

  /** The `Display` text of an ingestion error, with the prefix of each
      variant. */
  function ErrorText(e: IngestError): string {
    match e
    case Database(cause) => "Database error: " + cause.Text()
    case Git(cause) => "Git error: " + cause.Text()
    case Copilot(message) => "Copilot error: " + message
    case Tests(cause) => "Tests error: " + cause.Text()
    case Json(message) => "JSON error: " + message
    case WorkspaceNotFound(path) => "Workspace not found: " + path
  }

  /** The text of the warning for a session that failed: its id, then the
      error. */
  function FailureMessage(sessionId: string, e: IngestError): string {
    "Failed to ingest " + sessionId + ": " + ErrorText(e)
  }

  /** The events of the copilot loop after the given outcomes: a warning
      for each failure, and progress after every fifth session and after
      the last. */
  function CopilotEvents(ss: seq<DiscoveredSession>, outs: seq<Result<IngestStats, IngestError>>): seq<ProgressEvent>
    requires |outs| <= |ss|
  {
    if outs == [] then []
    else CopilotEvents(ss, outs[..|outs| - 1]) + SessionEvents(ss, |outs| - 1, outs[|outs| - 1])
  }

  /** The events of the copilot loop for session `n` (counted from zero):
      a warning when it failed, then progress after every fifth session and
      after the last. */
  function SessionEvents(ss: seq<DiscoveredSession>, n: nat, o: Result<IngestStats, IngestError>): seq<ProgressEvent>
    requires n < |ss|
  {
    (if o.Err? then [Warning("copilot", FailureMessage(ss[n].sessionId, o.error))] else []) +
    (if (n + 1) % 5 == 0 || n + 1 == |ss| then [Progress("copilot", n + 1, Some(|ss|))] else [])
  }

  /** The warning events of the copilot loop are exactly its failures, and
      it never reports completion. */
  lemma {:induction false} CopilotEventsFacts(ss: seq<DiscoveredSession>, outs: seq<Result<IngestStats, IngestError>>)
    requires |outs| <= |ss|
    ensures WarningCount(CopilotEvents(ss, outs)) == FailureCount(outs)
    ensures NoCompleted(CopilotEvents(ss, outs))
  {
    if outs != [] {
      var n := |outs|;
      var init, last := outs[..n - 1], outs[n - 1];
      var before, turn := CopilotEvents(ss, init), SessionEvents(ss, n - 1, last);
      CopilotEventsUnfold(ss, outs);
      CopilotEventsFacts(ss, init);
      SessionEventsFacts(ss, n - 1, last);
      WarningCountAppend(before, turn);
      NoCompletedAppend(before, turn);
      assert FailureCount(outs) == FailureCount(init) + (if last.Err? then 1 else 0);
    }
  }

  /** The copilot events of the outcomes so far: those before the last
      session, then the last session's. */
  lemma CopilotEventsUnfold(ss: seq<DiscoveredSession>, outs: seq<Result<IngestStats, IngestError>>)
    requires 0 < |outs| <= |ss|
    ensures CopilotEvents(ss, outs) ==
            CopilotEvents(ss, outs[..|outs| - 1]) + SessionEvents(ss, |outs| - 1, outs[|outs| - 1])
  {
  }

  /** One turn of the copilot loop warns exactly when its session failed,
      and never reports completion. */
  lemma SessionEventsFacts(ss: seq<DiscoveredSession>, n: nat, o: Result<IngestStats, IngestError>)
    requires n < |ss|
    ensures WarningCount(SessionEvents(ss, n, o)) == (if o.Err? then 1 else 0)
    ensures NoCompleted(SessionEvents(ss, n, o))
  {
    var warning := if o.Err? then [Warning("copilot", FailureMessage(ss[n].sessionId, o.error))] else [];
    var progress := if (n + 1) % 5 == 0 || n + 1 == |ss| then [Progress("copilot", n + 1, Some(|ss|))] else [];
    WarningCountAppend(warning, progress);
    assert WarningCount(warning) == (if o.Err? then 1 else 0) by {
      if o.Err? { assert warning[..0] == []; }
    }
    assert WarningCount(progress) == 0 by {
      if progress != [] { assert progress[..0] == []; }
    }
  }

  lemma NoCompletedAppend(a: seq<ProgressEvent>, b: seq<ProgressEvent>)
    requires NoCompleted(a) && NoCompleted(b)
    ensures NoCompleted(a + b)
  {
    forall k | 0 <= k < |a + b| ensures !(a + b)[k].Completed? {
      if k < |a| { assert (a + b)[k] == a[k]; } else { assert (a + b)[k] == b[k - |a|]; }
    }
  }

  /** What was logged after `before` holds no completion when the added
      events hold none. */
  lemma NoCompletedAfter(before: seq<ProgressEvent>, added: seq<ProgressEvent>)
    requires NoCompleted(added)
    ensures NoCompleted((before + added)[|before|..])
  {
    assert (before + added)[|before|..] == added;
  }

  /** The events of a git recording: whatever it logged extends the log,
      and a recording that stopped before `Completed` logged none. */
  lemma GitEventsAfter(before: seq<ProgressEvent>, events: seq<ProgressEvent>, commits: seq<GitWalk.CommitWithDiff>,
                       n: nat, incremental: bool, stored: seq<CommitRecord>, workspaceId: string,
                       completed: bool, stats: IngestStats)
    requires n <= |commits|
    requires !completed ==>
      events == before + [Started("git", Some(|commits|))] + GitProgress(commits, n, incremental, stored, workspaceId)
    requires completed ==>
      events == before + [Started("git", Some(|commits|))] + GitProgress(commits, n, incremental, stored, workspaceId) +
                [Completed("git", stats)]
    ensures before <= events
    ensures !completed ==> NoCompleted(events[|before|..])
  {
    var started := [Started("git", Some(|commits|))];
    var progress := GitProgress(commits, n, incremental, stored, workspaceId);
    if completed {
      assert events == before + (started + progress + [Completed("git", stats)]);
    } else {
      GitProgressHasNoCompleted(commits, n, incremental, stored, workspaceId);
      NoCompletedAppend(started, progress);
      AppendAssociates(before, started, progress);
      NoCompletedAfter(before, started + progress);
    }
  }

  lemma {:induction false} WarningCountAppend(a: seq<ProgressEvent>, b: seq<ProgressEvent>)
    ensures WarningCount(a + b) == WarningCount(a) + WarningCount(b)
  {
    if b != [] {
      WarningCountAppend(a, b[..|b| - 1]);
      assert (a + b)[..|a + b| - 1] == a + b[..|b| - 1];
    } else {
      assert a + b == a;
    }
  }

  /** Every session whose file does not parse fails, so there are at least
      as many failures as parse failures. */
  lemma {:induction false} ParseFailuresAreFailures(ss: seq<DiscoveredSession>, outs: seq<Result<IngestStats, IngestError>>)
    requires |outs| == |ss|
    requires forall k :: 0 <= k < |ss| ==> ss[k].parsed.Err? ==> outs[k].Err?
    ensures ParseFailures(ss) <= FailureCount(outs)
  {
    if ss != [] {
      ParseFailuresAreFailures(ss[..|ss| - 1], outs[..|outs| - 1]);
    }
  }

  /** One more session outcome: how the totals grow. */
  lemma CopilotTotalsAppend(outs: seq<Result<IngestStats, IngestError>>, o: Result<IngestStats, IngestError>)
    ensures CopilotTotals(outs + [o]) == CopilotTotals(outs).Merge(Contribution(o))
  {
    assert (outs + [o])[..|outs|] == outs;
  }

  /** One more session outcome: how the event log grows. */
  lemma CopilotEventsAppend(ss: seq<DiscoveredSession>, outs: seq<Result<IngestStats, IngestError>>,
                            o: Result<IngestStats, IngestError>)
    requires |outs| < |ss|
    ensures CopilotEvents(ss, outs + [o]) == CopilotEvents(ss, outs) + SessionEvents(ss, |outs|, o)
  {
    var all := outs + [o];
    assert all[..|all| - 1] == outs && all[|all| - 1] == o;
    CopilotEventsUnfold(ss, all);
  }

  /** The walk of a git pass, the workspace it recorded under, the
      identifier it drew for a new workspace and the commit ids it drew. */
  datatype GitTrace = GitTrace(workspaceId: string, drawn: string, walked: seq<GitWalk.CommitWithDiff>, ids: seq<string>)

  /** What a git pass over the workspace at `path` did to the commits
      table, from `before` to `after`, and to the workspaces table, from
      `workspaces0` to `workspaces`: the workspace is opened first, so
      whatever the outcome the table is `workspaces0` opened for the path;
      a failure leaves the commits unchanged; a success walked the
      repository's HEAD with the options, inserted the kept commits under
      the workspace's id and reports how many it kept and skipped. */
  ghost predicate GitPassEffect(path: string, options: IngestOptions, repo: Result<GitWalk.GitRepo, GitWalk.GitError>,
                                now: int, before: seq<CommitRecord>, after: seq<CommitRecord>,
                                workspaces0: seq<WorkspaceRecord>, tablesExist: bool,
                                workspaces: seq<WorkspaceRecord>, r: Result<IngestStats, IngestError>, trace: GitTrace)
  {
    workspaces == OpenedWorkspaces(workspaces0, tablesExist, path, trace.drawn, now) &&
    (r.Err? ==> after == before) &&
    (r.Ok? ==>
       FindWorkspaceByPath(workspaces, path).Some? &&
       workspaces[FindWorkspaceByPath(workspaces, path).value].id == trace.workspaceId &&
       repo.Ok? && repo.value.head.Ok? &&
       GitWalk.WalkFrom(repo.value.head.value, GitWalkOptions(options), options.commitLimit) == Ok(trace.walked) &&
       var stop := if options.incremental then LastIngestedSha(before, trace.workspaceId) else None;
       var considered := StopIndex(trace.walked, stop);
       var kept := Kept(trace.walked, considered, options.incremental, before, trace.workspaceId);
       |trace.ids| == |kept| &&
       after == InsertOrIgnoreAll(before, CommitRecords(kept, trace.workspaceId, trace.ids, now)) &&
       r.value == IngestStats(|kept|, SkippedCount(trace.walked, considered, options.incremental, before,
                                                    trace.workspaceId), 0, 0, 0, 0, 0))
  }

  /** What the ingestion of one session did: the id of the session row it
      recorded under, the identifiers it drew for its messages and the
      message records it appended. */
  datatype SessionTrace = SessionTrace(rowId: string, ids: seq<string>, added: seq<CopilotMessageRecord>)

  /** The record of a Copilot pass: the workspace it recorded under, the
      identifier it drew for a new workspace, and each session's outcome
      and trace, in discovery order. */
  datatype CopilotTrace = CopilotTrace(workspaceId: string, drawn: string, outs: seq<Result<IngestStats, IngestError>>,
                                       steps: seq<SessionTrace>)

  /** The messages the traces appended, in order. */
  function AllAdded(steps: seq<SessionTrace>): seq<CopilotMessageRecord> {
    if steps == [] then [] else AllAdded(steps[..|steps| - 1]) + steps[|steps| - 1].added
  }

  lemma AllAddedAppend(before: seq<CopilotMessageRecord>, steps: seq<SessionTrace>, t: SessionTrace)
    ensures before + AllAdded(steps) + t.added == before + AllAdded(steps + [t])
  {
    assert (steps + [t])[..|steps|] == steps;
    AppendAssociates(before, AllAdded(steps), t.added);
  }

  /** A session's outcome and trace agree with the sessions table
      `sessions`: it appended as many messages as its statistics say; a
      success names the row stored for the session under the workspace;
      a session newly recorded appended one record per parsed message, in
      order, under that row. */
  predicate SessionStepFits(workspaceId: string, d: DiscoveredSession, o: Result<IngestStats, IngestError>,
                            t: SessionTrace, sessions: seq<CopilotSessionRecord>, now: int)
  {
    |t.added| == Contribution(o).messagesInserted &&
    (o.Ok? ==>
       d.parsed.Ok? && FindSession(sessions, workspaceId, d.parsed.value.id).Some? &&
       sessions[FindSession(sessions, workspaceId, d.parsed.value.id).value].id == t.rowId) &&
    (o.Ok? && o.value.sessionsInserted == 1 ==>
       d.parsed.Ok? && |t.ids| == |d.parsed.value.messages| &&
       t.added == MessageRecords(d.parsed.value.messages, t.rowId, t.ids, now))
  }

  /** Every handled session fits its trace. */
  predicate StepsFit(workspaceId: string, ss: seq<DiscoveredSession>, outs: seq<Result<IngestStats, IngestError>>,
                     steps: seq<SessionTrace>, sessions: seq<CopilotSessionRecord>, now: int)
  {
    |steps| == |outs| <= |ss| &&
    forall k :: 0 <= k < |outs| ==> SessionStepFits(workspaceId, ss[k], outs[k], steps[k], sessions, now)
  }

  /** A session found in a table is found at the same row once more rows
      are appended. */
  lemma {:induction false} FindSessionStable(t: seq<CopilotSessionRecord>, u: seq<CopilotSessionRecord>,
                                             workspaceId: string, vscodeSessionId: string)
    requires t <= u && FindSession(t, workspaceId, vscodeSessionId).Some?
    ensures FindSession(u, workspaceId, vscodeSessionId) == FindSession(t, workspaceId, vscodeSessionId)
  {
    if !(t[0].workspaceId == workspaceId && t[0].vscodeSessionId == vscodeSessionId) {
      assert t[1..] <= u[1..];
      FindSessionStable(t[1..], u[1..], workspaceId, vscodeSessionId);
    }
  }

  /** A session's trace still fits once the table has grown. */
  lemma SessionStepStable(workspaceId: string, d: DiscoveredSession, o: Result<IngestStats, IngestError>,
                          t: SessionTrace, sessions1: seq<CopilotSessionRecord>, sessions2: seq<CopilotSessionRecord>,
                          now: int)
    requires SessionStepFits(workspaceId, d, o, t, sessions1, now) && sessions1 <= sessions2
    ensures SessionStepFits(workspaceId, d, o, t, sessions2, now)
  {
    if o.Ok? {
      FindSessionStable(sessions1, sessions2, workspaceId, d.parsed.value.id);
    }
  }

  /** The trace of the `k`th session handled still fits once the table has
      grown and the next session has been handled. */
  lemma StepFitsAfterAppend(workspaceId: string, ss: seq<DiscoveredSession>,
                            outs: seq<Result<IngestStats, IngestError>>, steps: seq<SessionTrace>,
                            o: Result<IngestStats, IngestError>, t: SessionTrace,
                            sessions1: seq<CopilotSessionRecord>, sessions2: seq<CopilotSessionRecord>, now: int, k: nat)
    requires |steps| == |outs| < |ss| && k <= |outs| && sessions1 <= sessions2
    requires k < |outs| ==> SessionStepFits(workspaceId, ss[k], outs[k], steps[k], sessions1, now)
    requires SessionStepFits(workspaceId, ss[|outs|], o, t, sessions2, now)
    ensures SessionStepFits(workspaceId, ss[k], (outs + [o])[k], (steps + [t])[k], sessions2, now)
  {
    var d, x, y := ss[k], (outs + [o])[k], (steps + [t])[k];
    if k < |outs| {
      assert x == outs[k] && y == steps[k];
      SessionStepStable(workspaceId, d, x, y, sessions1, sessions2, now);
    } else {
      assert d == ss[|outs|] && x == o && y == t;
    }
  }

  /** The traces of the sessions handled so far still fit once the table
      has grown, and the next session's trace fits the grown table. */
  lemma StepsFitAppend(workspaceId: string, ss: seq<DiscoveredSession>, outs: seq<Result<IngestStats, IngestError>>,
                       steps: seq<SessionTrace>, o: Result<IngestStats, IngestError>, t: SessionTrace,
                       sessions1: seq<CopilotSessionRecord>, sessions2: seq<CopilotSessionRecord>, now: int)
    requires StepsFit(workspaceId, ss, outs, steps, sessions1, now) && |outs| < |ss| && sessions1 <= sessions2
    requires SessionStepFits(workspaceId, ss[|outs|], o, t, sessions2, now)
    ensures StepsFit(workspaceId, ss, outs + [o], steps + [t], sessions2, now)
  {
    forall k | 0 <= k < |outs| + 1
      ensures SessionStepFits(workspaceId, ss[k], (outs + [o])[k], (steps + [t])[k], sessions2, now)
    {
      StepFitsAfterAppend(workspaceId, ss, outs, steps, o, t, sessions1, sessions2, now, k);
    }
  }

  /** What a Copilot pass over the workspace at `path` did, with
      `workspaces0`/`workspaces`, `sessions0`/`sessions` and
      `before`/`after` the workspaces, sessions and messages tables before
      and after: the workspace is opened first, so whatever the outcome the
      workspaces table is `workspaces0` opened for the path; a failed
      discovery fails the pass; a failure changes neither other table;
      a success has one outcome and trace per discovered session, recorded
      under the workspace stored for `path`, adds up their statistics,
      fails each session that did not parse, only appends sessions, and
      appends exactly the messages the traces report, session by session. */
  ghost predicate CopilotPassEffect(path: string, discovered: Result<seq<DiscoveredSession>, string>,
                                    workspaces0: seq<WorkspaceRecord>, tablesExist: bool,
                                    workspaces: seq<WorkspaceRecord>,
                                    sessions0: seq<CopilotSessionRecord>, sessions: seq<CopilotSessionRecord>,
                                    before: seq<CopilotMessageRecord>, after: seq<CopilotMessageRecord>,
                                    r: Result<IngestStats, IngestError>, trace: CopilotTrace, now: int)
  {
    workspaces == OpenedWorkspaces(workspaces0, tablesExist, path, trace.drawn, now) &&
    (discovered.Err? ==> r.Err?) &&
    (r.Err? ==> after == before && sessions == sessions0) &&
    (r.Ok? ==>
       discovered.Ok? && |trace.outs| == |discovered.value| && r.value == CopilotTotals(trace.outs) &&
       FindWorkspaceByPath(workspaces, path).Some? &&
       workspaces[FindWorkspaceByPath(workspaces, path).value].id == trace.workspaceId &&
       OutcomesFit(discovered.value, trace.outs) &&
       StepsFit(trace.workspaceId, discovered.value, trace.outs, trace.steps, sessions, now) &&
       sessions0 <= sessions && after == before + AllAdded(trace.steps) &&
       |after| == |before| + r.value.messagesInserted)
  }

  /** What `ingest_all` did: the git pass had its effect on the commits,
      taking the workspaces from `workspaces0` to `workspaces1`; then the
      Copilot pass had its effect on the sessions and messages, taking the
      workspaces from `workspaces1` to `workspaces`; a workspace the git
      pass found stays as it was. */
  ghost predicate IngestAllEffect(path: string, options: IngestOptions, repo: Result<GitWalk.GitRepo, GitWalk.GitError>,
                                  discovered: Result<seq<DiscoveredSession>, string>, now: int,
                                  commits0: seq<CommitRecord>, commits: seq<CommitRecord>,
                                  workspaces0: seq<WorkspaceRecord>, tablesExist: bool,
                                  workspaces1: seq<WorkspaceRecord>, workspaces: seq<WorkspaceRecord>,
                                  sessions0: seq<CopilotSessionRecord>, sessions: seq<CopilotSessionRecord>,
                                  messages0: seq<CopilotMessageRecord>, messages: seq<CopilotMessageRecord>,
                                  git: Result<IngestStats, IngestError>, copilot: Result<IngestStats, IngestError>,
                                  gitTrace: GitTrace, copilotTrace: CopilotTrace)
  {
    GitPassEffect(path, options, repo, now, commits0, commits, workspaces0, tablesExist, workspaces1, git, gitTrace) &&
    CopilotPassEffect(path, discovered, workspaces1, tablesExist, workspaces, sessions0, sessions, messages0, messages,
                      copilot, copilotTrace, now) &&
    (FindWorkspaceByPath(workspaces1, path).Some? ==> workspaces == workspaces1)
  }

  /** The effects of the two passes of `ingest_all` compose: the Copilot
      pass leaves a workspace the git pass found or created where it was. */
  lemma IngestAllEffectOf(path: string, options: IngestOptions, repo: Result<GitWalk.GitRepo, GitWalk.GitError>,
                          discovered: Result<seq<DiscoveredSession>, string>, now: int,
                          commits0: seq<CommitRecord>, commits: seq<CommitRecord>,
                          workspaces0: seq<WorkspaceRecord>, tablesExist: bool,
                          workspaces1: seq<WorkspaceRecord>, workspaces: seq<WorkspaceRecord>,
                          sessions0: seq<CopilotSessionRecord>, sessions: seq<CopilotSessionRecord>,
                          messages0: seq<CopilotMessageRecord>, messages: seq<CopilotMessageRecord>,
                          git: Result<IngestStats, IngestError>, copilot: Result<IngestStats, IngestError>,
                          gitTrace: GitTrace, copilotTrace: CopilotTrace)
    requires GitPassEffect(path, options, repo, now, commits0, commits, workspaces0, tablesExist, workspaces1, git,
                           gitTrace)
    requires CopilotPassEffect(path, discovered, workspaces1, tablesExist, workspaces, sessions0, sessions, messages0,
                               messages, copilot, copilotTrace, now)
    ensures IngestAllEffect(path, options, repo, discovered, now, commits0, commits, workspaces0, tablesExist,
                            workspaces1, workspaces,
                            sessions0, sessions, messages0, messages, git, copilot, gitTrace, copilotTrace)
  {
  }

  // ------------------------------------------------------------ the ingestor

  class Ingestor {
    const db: Database
    const uuids: UuidSource
    var hasProgress: bool
    /** Every event passed to `report` since the progress callback was
        last set, in order. */
    ghost var events: seq<ProgressEvent>

    ghost predicate Valid()
      reads db, uuids
    {
      db.Valid() && uuids.Valid()
    }

    /** `Ingestor::new`: no progress callback yet. */
    constructor(db: Database, uuids: UuidSource)
      requires db.Valid() && uuids.Valid()
      ensures Valid() && this.db == db && this.uuids == uuids
      ensures !hasProgress && events == []
    {
      this.db := db;
      this.uuids := uuids;
      hasProgress := false;
      events := [];
    }

    /** What the progress callback has received since it was set: every
        reported event when one is installed, nothing otherwise. */
    ghost function Delivered(): seq<ProgressEvent>
      reads this
    {
      if hasProgress then events else []
    }

    /** `with_progress`: install the callback, which has received nothing
        yet. */
    method WithProgress()
      modifies this`hasProgress, this`events
      ensures hasProgress && events == [] && Delivered() == []
    {
      hasProgress := true;
      events := [];
    }

    /** `report`: hand the event to the callback if there is one. */
    method Report(e: ProgressEvent)
      modifies this`events
      ensures events == old(events) + [e]
      ensures Delivered() == old(Delivered()) + (if hasProgress then [e] else [])
    {
      events := events + [e];
    }

    /** The loop of `ingest_git`: walk the commits in order, stop at the
        newest stored sha, skip stored commits in incremental mode, build a
        record for every other commit and report progress after every tenth
        position. */
    method CollectCommits(commits: seq<GitWalk.CommitWithDiff>, lastSha: Option<string>, incremental: bool,
                          workspaceId: string, now: int)
      returns (records: seq<CommitRecord>, skipped: nat, ghost considered: nat, ids: seq<string>)
      requires db.tablesExist && uuids.Valid()
      modifies this`events, uuids
      ensures uuids.Valid() && uuids.issued == old(uuids.issued) + ids
      ensures considered == StopIndex(commits, lastSha)
      ensures |ids| == |Kept(commits, considered, incremental, db.commits, workspaceId)|
      ensures records == CommitRecords(Kept(commits, considered, incremental, db.commits, workspaceId), workspaceId, ids, now)
      ensures skipped == SkippedCount(commits, considered, incremental, db.commits, workspaceId)
      ensures events == old(events) + GitProgress(commits, considered, incremental, db.commits, workspaceId)
    {
      ghost var e1 := events;
      ghost var stored := db.commits;
      var kept: seq<GitWalk.CommitWithDiff> := [];
      ghost var progress: seq<ProgressEvent> := [];
      skipped := 0;
      var idx := 0;
      while idx < |commits|
        invariant 0 <= idx <= StopIndex(commits, lastSha)
        invariant kept == Kept(commits, idx, incremental, stored, workspaceId)
        invariant progress == GitProgress(commits, idx, incremental, stored, workspaceId)
        invariant skipped == SkippedCount(commits, idx, incremental, stored, workspaceId)
        invariant events == e1 + progress
        modifies this`events
      {
        var c := commits[idx];
        if lastSha.Some? && c.commit.sha == lastSha.value {
          break;
        }
        assert idx < StopIndex(commits, lastSha);
        GitStep(commits, idx, incremental, stored, workspaceId);
        var skip := incremental && db.GetCommitBySha(workspaceId, c.commit.sha).Ok?;
        assert skip == (incremental && FindCommit(stored, workspaceId, c.commit.sha).Some?);
        if skip {
          skipped := skipped + 1;
        } else {
          kept := kept + [c];
          if (idx + 1) % 10 == 0 {
            Report(Progress("git", idx + 1, Some(|commits|)));
            progress := progress + [Progress("git", idx + 1, Some(|commits|))];
          }
        }
        idx := idx + 1;
      }
      considered := idx;
      ids := uuids.NextMany(|kept|);
      records := CommitRecords(kept, workspaceId, ids, now);
    }

    /** `get_or_create_workspace` with a freshly drawn identifier, as
        `ingest_git` and `ingest_tests` begin: the workspace is named after
        the last path component. */
    method OpenWorkspace(path: string, now: int) returns (r: Result<string, IngestError>, ghost drawn: string)
      requires Valid()
      modifies db`workspaces, uuids
      ensures Valid()
      ensures uuids.issued == old(uuids.issued) + [drawn]
      ensures db.workspaces == OpenedWorkspaces(old(db.workspaces), db.tablesExist, path, drawn, now)
      ensures r.Ok? <==> db.tablesExist && (FindWorkspaceByPath(old(db.workspaces), path).Some? ||
                                            !HasWorkspaceId(old(db.workspaces), drawn))
      ensures r.Ok? ==> FindWorkspaceByPath(db.workspaces, path).Some? &&
                        db.workspaces[FindWorkspaceByPath(db.workspaces, path).value].id == r.value
      ensures r.Ok? && FindWorkspaceByPath(old(db.workspaces), path).None? ==>
        r.value == drawn && db.workspaces == old(db.workspaces) + [NewWorkspaceRecord(WorkspaceName(path), path, drawn, now)]
      ensures r.Err? || FindWorkspaceByPath(old(db.workspaces), path).Some? ==> db.workspaces == old(db.workspaces)
    {
      var id := uuids.Next();
      drawn := id;
      var ws := db.GetOrCreateWorkspace(WorkspaceName(path), path, id, now);
      if ws.Err? {
        return Err(Database(ws.error)), drawn;
      }
      return Ok(ws.value), drawn;
    }

    /** The recording loop of `ingest_git`: announce the walk, collect the
        records and insert them in one batch. */
    method CollectAndInsert(commits: seq<GitWalk.CommitWithDiff>, lastSha: Option<string>, incremental: bool,
                            workspaceId: string, now: int)
      returns (r: Result<IngestStats, IngestError>, ids: seq<string>)
      requires Valid() && db.tablesExist
      modifies this`events, db`commits, uuids
      ensures Valid() && uuids.issued == old(uuids.issued) + ids
      ensures var considered := StopIndex(commits, lastSha);
        var kept := Kept(commits, considered, incremental, old(db.commits), workspaceId);
        |ids| == |kept| &&
        (r.Err? ==> db.commits == old(db.commits) &&
                    events == old(events) + [Started("git", Some(|commits|))] +
                      GitProgress(commits, considered, incremental, old(db.commits), workspaceId)) &&
        (r.Ok? ==> events == old(events) + [Started("git", Some(|commits|))] +
                     GitProgress(commits, considered, incremental, old(db.commits), workspaceId) +
                     [Completed("git", r.value)] &&
                   db.commits == InsertOrIgnoreAll(old(db.commits), CommitRecords(kept, workspaceId, ids, now)) &&
                   r.value == IngestStats(|kept|, SkippedCount(commits, considered, incremental, old(db.commits),
                                                               workspaceId), 0, 0, 0, 0, 0))
    {
      Report(Started("git", Some(|commits|)));
      var records, skipped;
      ghost var considered;
      records, skipped, considered, ids := CollectCommits(commits, lastSha, incremental, workspaceId, now);
      var inserted := db.InsertCommitsBatch(records);
      if inserted.Err? {
        return Err(Database(inserted.error)), ids;
      }
      var stats := ZeroStats().(commitsInserted := inserted.value, commitsSkipped := skipped);
      Report(Completed("git", stats));
      return Ok(stats), ids;
    }

    /** The second half of `ingest_git`: find the newest stored sha in
        incremental mode, then record the walked commits. */
    method RecordCommits(commits: seq<GitWalk.CommitWithDiff>, incremental: bool, workspaceId: string, now: int)
      returns (r: Result<IngestStats, IngestError>, ids: seq<string>)
      requires Valid() && db.tablesExist
      modifies this`events, db`commits, uuids
      ensures Valid() && uuids.issued == old(uuids.issued) + ids && old(events) <= events
      ensures r.Err? ==> NoCompleted(events[|old(events)|..]) && db.commits == old(db.commits)
      ensures r.Ok? ==>
        var stop := if incremental then LastIngestedSha(old(db.commits), workspaceId) else None;
        var considered := StopIndex(commits, stop);
        var kept := Kept(commits, considered, incremental, old(db.commits), workspaceId);
        |ids| == |kept| &&
        db.commits == InsertOrIgnoreAll(old(db.commits), CommitRecords(kept, workspaceId, ids, now)) &&
        r.value == IngestStats(|kept|, SkippedCount(commits, considered, incremental, old(db.commits), workspaceId),
                               0, 0, 0, 0, 0) &&
        events == old(events) + [Started("git", Some(|commits|))] +
          GitProgress(commits, considered, incremental, old(db.commits), workspaceId) + [Completed("git", r.value)]
    {
      var lastSha := if incremental then LastIngestedSha(db.commits, workspaceId) else None;
      r, ids := CollectAndInsert(commits, lastSha, incremental, workspaceId, now);
      GitEventsAfter(old(events), events, commits, StopIndex(commits, lastSha), incremental, old(db.commits),
                     workspaceId, r.Ok?, if r.Ok? then r.value else ZeroStats());
    }

    /** Open the repository at HEAD and walk it, as `ingest_git` does. */
    static method WalkRepository(options: IngestOptions, repo: Result<GitWalk.GitRepo, GitWalk.GitError>)
      returns (r: Result<seq<GitWalk.CommitWithDiff>, IngestError>)
      ensures r.Ok? <==>
        repo.Ok? && repo.value.head.Ok? &&
        GitWalk.WalkFrom(repo.value.head.value, GitWalkOptions(options), options.commitLimit).Ok?
      ensures r.Ok? ==> GitWalk.WalkFrom(repo.value.head.value, GitWalkOptions(options), options.commitLimit) == Ok(r.value)
    {
      if repo.Err? {
        return Err(Git(repo.error));
      }
      var walk := GitWalk.WalkCommits(repo.value, GitWalkOptions(options));
      if walk.Err? {
        return Err(Git(walk.error));
      }
      return Ok(walk.value);
    }

    /** The walking half of `ingest_git`, once the workspace exists: open
        and walk the repository, then record the commits. */
    method WalkAndRecord(workspaceId: string, options: IngestOptions, repo: Result<GitWalk.GitRepo, GitWalk.GitError>,
                         now: int)
      returns (r: Result<IngestStats, IngestError>, ghost walked: seq<GitWalk.CommitWithDiff>, ghost ids: seq<string>)
      requires Valid() && db.tablesExist
      modifies this`events, db`commits, uuids
      ensures Valid() && uuids.issued == old(uuids.issued) + ids && old(events) <= events
      ensures r.Err? ==> NoCompleted(events[|old(events)|..]) && db.commits == old(db.commits)
      ensures r.Ok? ==>
        repo.Ok? && repo.value.head.Ok? &&
        GitWalk.WalkFrom(repo.value.head.value, GitWalkOptions(options), options.commitLimit) == Ok(walked)
      ensures r.Ok? ==>
        var stop := if options.incremental then LastIngestedSha(old(db.commits), workspaceId) else None;
        var considered := StopIndex(walked, stop);
        var kept := Kept(walked, considered, options.incremental, old(db.commits), workspaceId);
        |ids| == |kept| &&
        db.commits == InsertOrIgnoreAll(old(db.commits), CommitRecords(kept, workspaceId, ids, now)) &&
        r.value == IngestStats(|kept|, SkippedCount(walked, considered, options.incremental, old(db.commits), workspaceId),
                               0, 0, 0, 0, 0) &&
        events == old(events) + [Started("git", Some(|walked|))] +
          GitProgress(walked, considered, options.incremental, old(db.commits), workspaceId) + [Completed("git", r.value)]
    {
      walked := [];
      ids := [];
      var walk := WalkRepository(options, repo);
      if walk.Err? {
        return Err(walk.error), walked, ids;
      }
      walked := walk.value;
      var commitIds;
      r, commitIds := RecordCommits(walk.value, options.incremental, workspaceId, now);
      ids := commitIds;
    }

    /** `ingest_git`: create the workspace if needed, open and walk the
        repository, then record the commits (stopping at the newest stored
        sha and skipping stored commits in incremental mode). */
    method IngestGit(repoPath: string, options: IngestOptions, repo: Result<GitWalk.GitRepo, GitWalk.GitError>, now: int)
      returns (r: Result<IngestStats, IngestError>, ghost workspaceId: string, ghost drawn: string,
               ghost walked: seq<GitWalk.CommitWithDiff>, ghost ids: seq<string>)
      requires Valid()
      modifies this`events, db`workspaces, db`commits, uuids
      ensures Valid()
      ensures old(events) <= events && old(uuids.issued) <= uuids.issued
      ensures r.Err? ==> NoCompleted(events[|old(events)|..])
      ensures GitPassEffect(repoPath, options, repo, now, old(db.commits), db.commits, old(db.workspaces),
                            db.tablesExist, db.workspaces, r, GitTrace(workspaceId, drawn, walked, ids))
      ensures r.Ok? ==>
        var stop := if options.incremental then LastIngestedSha(old(db.commits), workspaceId) else None;
        var considered := StopIndex(walked, stop);
        uuids.issued == old(uuids.issued) + [drawn] + ids &&
        events == old(events) + [Started("git", Some(|walked|))] +
          GitProgress(walked, considered, options.incremental, old(db.commits), workspaceId) + [Completed("git", r.value)]
    {
      workspaceId := "";
      walked := [];
      ids := [];
      var ws;
      ws, drawn := OpenWorkspace(repoPath, now);
      if ws.Err? {
        return Err(ws.error), workspaceId, drawn, walked, ids;
      }
      workspaceId := ws.value;
      r, walked, ids := WalkAndRecord(ws.value, options, repo, now);
    }

    /** Whether `insert_test_run` accepts a run with that id for that
        workspace, given the runs stored before it. */
    ghost predicate RunInsertable(db: Database, runs: seq<TestRunRecord>, runId: string, workspaceId: string)
      reads db
    {
      db.tablesExist && !HasRunId(runs, runId) && (db.foreignKeys ==> HasWorkspaceId(db.workspaces, workspaceId))
    }

    /** The second half of `ingest_tests`: announce the results, record
        the run and then its results in one batch. The run is inserted
        before the results, so a failing batch leaves the run stored. */
    method RecordTestRun(summary: Nextest.TestRunSummary, workspaceId: string, commitSha: Option<string>, now: int)
      returns (r: Result<IngestStats, IngestError>, runId: string, ids: seq<string>)
      requires Valid()
      modifies this`events, db`testRuns, db`testResults, uuids
      ensures Valid() && uuids.issued == old(uuids.issued) + [runId] + ids
      ensures r.Err? ==> db.testResults == old(db.testResults) &&
                         events == old(events) + [Started("tests", Some(|summary.results|))]
      ensures r.Err? && RunInsertable(db, old(db.testRuns), runId, workspaceId) ==>
        db.testRuns == old(db.testRuns) + [RunRecordOf(summary, workspaceId, commitSha, runId, now)]
      ensures r.Err? && !RunInsertable(db, old(db.testRuns), runId, workspaceId) ==> db.testRuns == old(db.testRuns)
      ensures r.Ok? ==>
        |ids| == |summary.results| &&
        db.testRuns == old(db.testRuns) + [RunRecordOf(summary, workspaceId, commitSha, runId, now)] &&
        db.testResults == old(db.testResults) + ResultRecords(summary.results, runId, ids, now) &&
        r.value == IngestStats(0, 0, 1, |summary.results|, 0, 0, 0) &&
        events == old(events) + [Started("tests", Some(|summary.results|))] + [Completed("tests", r.value)]
    {
      ids := [];
      Report(Started("tests", Some(|summary.results|)));
      runId := uuids.Next();
      var run := db.InsertTestRun(RunRecordOf(summary, workspaceId, commitSha, runId, now));
      if run.Err? {
        return Err(Database(run.error)), runId, ids;
      }
      ids := uuids.NextMany(|summary.results|);
      var inserted := db.InsertTestResultsBatch(ResultRecords(summary.results, run.value, ids, now));
      if inserted.Err? {
        return Err(Database(inserted.error)), runId, ids;
      }
      var stats := ZeroStats().(testRunsInserted := 1, testResultsInserted := inserted.value);
      Report(Completed("tests", stats));
      return Ok(stats), runId, ids;
    }

    /** `ingest_tests`: create the workspace if needed, parse the test
        output, then record the run and its results. */
    method IngestTests(workspacePath: string, lines: seq<Nextest.Line>, commitSha: Option<string>, now: int)
      returns (r: Result<IngestStats, IngestError>, ghost workspaceId: string, ghost drawn: string,
               ghost runId: string, ghost ids: seq<string>)
      requires Valid()
      modifies this`events, db`workspaces, db`testRuns, db`testResults, uuids
      ensures Valid()
      ensures old(events) <= events && old(uuids.issued) <= uuids.issued
      ensures db.workspaces == OpenedWorkspaces(old(db.workspaces), db.tablesExist, workspacePath, drawn, now)
      ensures (exists i :: 0 <= i < |lines| && lines[i].Garbled?) ==> r.Err?
      ensures r.Err? ==> NoCompleted(events[|old(events)|..]) && db.testResults == old(db.testResults)
      ensures r.Err? ==>
        db.testRuns == old(db.testRuns) ||
        ((forall i :: 0 <= i < |lines| ==> !lines[i].Garbled?) &&
         db.testRuns == old(db.testRuns) + [RunRecordOf(Nextest.SummaryOf(lines, now), workspaceId, commitSha, runId, now)])
      ensures r.Ok? ==>
        FindWorkspaceByPath(db.workspaces, workspacePath).Some? &&
        db.workspaces[FindWorkspaceByPath(db.workspaces, workspacePath).value].id == workspaceId
      ensures r.Ok? ==>
        var summary := Nextest.SummaryOf(lines, now);
        |ids| == |summary.results| && uuids.issued == old(uuids.issued) + [drawn] + [runId] + ids &&
        db.testRuns == old(db.testRuns) + [RunRecordOf(summary, workspaceId, commitSha, runId, now)] &&
        db.testResults == old(db.testResults) + ResultRecords(summary.results, runId, ids, now) &&
        r.value == IngestStats(0, 0, 1, |summary.results|, 0, 0, 0) &&
        events == old(events) + [Started("tests", Some(|summary.results|))] + [Completed("tests", r.value)]
    {
      workspaceId, runId, ids := "", "", [];
      var ws;
      ws, drawn := OpenWorkspace(workspacePath, now);
      if ws.Err? {
        return Err(ws.error), workspaceId, drawn, runId, ids;
      }
      workspaceId := ws.value;
      var parsed := Nextest.ParseRunOutput(lines, now);
      if parsed.Err? {
        return Err(Tests(parsed.error)), workspaceId, drawn, runId, ids;
      }
      var id, resultIds;
      r, id, resultIds := RecordTestRun(parsed.value, ws.value, commitSha, now);
      runId, ids := id, resultIds;
      if r.Err? {
        assert events[|old(events)|..] == [Started("tests", Some(|parsed.value.results|))];
      }
    }

    /** `ingest_single_session`: record the session (or find it stored),
        and when no message of it is stored yet, record its messages in one
        batch. */
    method IngestSingleSession(workspaceId: string, d: DiscoveredSession, now: int)
      returns (r: Result<IngestStats, IngestError>, ghost sessionRowId: string, ghost drawn: seq<string>,
               ghost ids: seq<string>, ghost added: seq<CopilotMessageRecord>)
      requires Valid()
      modifies db`sessions, db`messages, uuids
      ensures Valid() && SessionOutcome(r)
      ensures uuids.issued == old(uuids.issued) + drawn && db.messages == old(db.messages) + added
      ensures old(db.sessions) <= db.sessions
      ensures |added| == if r.Ok? then r.value.messagesInserted else 0
      ensures d.parsed.Err? ==> r == Err(Copilot(d.parsed.error)) && drawn == [] && db.sessions == old(db.sessions)
      ensures r.Ok? ==>
        d.parsed.Ok? &&
        FindSession(db.sessions, workspaceId, d.parsed.value.id).Some? &&
        db.sessions[FindSession(db.sessions, workspaceId, d.parsed.value.id).value].id == sessionRowId
      ensures r.Ok? && r.value.sessionsInserted == 0 ==>
        added == [] &&
        exists k :: 0 <= k < |old(db.messages)| && old(db.messages)[k].sessionId == sessionRowId
      ensures r.Ok? && (exists k :: 0 <= k < |old(db.messages)| && old(db.messages)[k].sessionId == sessionRowId) ==>
        r.value == ZeroStats() && added == []
      ensures (d.parsed.Ok? && db.tablesExist && FindSession(old(db.sessions), workspaceId, d.parsed.value.id).Some? &&
               exists k :: 0 <= k < |old(db.messages)| && old(db.messages)[k].sessionId ==
                 old(db.sessions)[FindSession(old(db.sessions), workspaceId, d.parsed.value.id).value].id) ==>
        r == Ok(ZeroStats()) && added == [] && db.sessions == old(db.sessions)
      ensures r.Ok? && r.value.sessionsInserted == 1 ==>
        |ids| == |d.parsed.value.messages| &&
        added == MessageRecords(d.parsed.value.messages, sessionRowId, ids, now) &&
        r.value.messagesInserted == |d.parsed.value.messages|
    {
      sessionRowId, drawn, ids, added := "", [], [], [];
      if d.parsed.Err? {
        return Err(Copilot(d.parsed.error)), sessionRowId, drawn, ids, added;
      }
      var session := d.parsed.value;
      var id := uuids.Next();
      drawn := [id];
      var record := NewCopilotSessionRecord(workspaceId, session.id, id, now).WithMetadata(session.model, session.mode);
      var inserted := db.InsertCopilotSession(record);
      if inserted.Err? {
        return Err(Database(inserted.error)), sessionRowId, drawn, ids, added;
      }
      sessionRowId := inserted.value;
      r, ids, added := RecordMessages(inserted.value, session.messages, now);
      AppendAssociates(old(uuids.issued), drawn, ids);
      drawn := drawn + ids;
    }

    /** The message half of `ingest_single_session`: a session that has
        stored messages is left as it is; otherwise its messages are
        recorded in one batch. */
    method RecordMessages(sessionRowId: string, messages: seq<ParsedMessage>, now: int)
      returns (r: Result<IngestStats, IngestError>, ghost ids: seq<string>, ghost added: seq<CopilotMessageRecord>)
      requires Valid()
      modifies db`messages, uuids
      ensures Valid() && uuids.issued == old(uuids.issued) + ids && db.messages == old(db.messages) + added
      ensures r.Ok? ==> r.value == ZeroStats() || r.value == IngestStats(0, 0, 0, 0, 1, |messages|, 0)
      ensures |added| == if r.Ok? then r.value.messagesInserted else 0
      ensures r.Ok? && r.value.sessionsInserted == 0 ==>
        added == [] &&
        exists k :: 0 <= k < |old(db.messages)| && old(db.messages)[k].sessionId == sessionRowId
      ensures r.Ok? && r.value.sessionsInserted == 1 ==>
        |ids| == |messages| && added == MessageRecords(messages, sessionRowId, ids, now)
      ensures db.tablesExist && (exists k :: 0 <= k < |old(db.messages)| && old(db.messages)[k].sessionId == sessionRowId) ==>
        r == Ok(ZeroStats()) && ids == [] && added == []
    {
      ids, added := [], [];
      var count;
      match db.GetSessionMessageCount(sessionRowId) {
        case Err(e) => return Err(Database(e)), ids, added;
        case Ok(n) => count := n;
      }
      if count > 0 {
        return Ok(ZeroStats()), ids, added;
      }
      var drawn := uuids.NextMany(|messages|);
      ids := drawn;
      var records := MessageRecords(messages, sessionRowId, drawn, now);
      var batch := db.InsertCopilotMessagesBatch(records);
      if batch.Err? {
        return Err(Database(batch.error)), ids, added;
      }
      added := records;
      return Ok(ZeroStats().(sessionsInserted := 1, messagesInserted := batch.value)), ids, added;
    }

    /** The reporting of one turn of the copilot loop: a warning for a
        failed session, then progress after every fifth session and after
        the last. */
    method ReportSession(ss: seq<DiscoveredSession>, idx: nat, o: Result<IngestStats, IngestError>)
      requires idx < |ss|
      modifies this`events
      ensures events == old(events) + SessionEvents(ss, idx, o)
    {
      if o.Err? {
        Report(Warning("copilot", FailureMessage(ss[idx].sessionId, o.error)));
      }
      if (idx + 1) % 5 == 0 || idx == |ss| - 1 {
        Report(Progress("copilot", idx + 1, Some(|ss|)));
      }
    }

    /** The state after the copilot loop has handled the sessions `outs`
        and `steps` stand for, recording under `workspaceId` and starting
        from the event log `events0`, the identifiers `issued0`, the
        sessions table `sessions0` and the messages table `messages0`. */
    ghost predicate CopilotLoop(workspaceId: string, ss: seq<DiscoveredSession>,
                                outs: seq<Result<IngestStats, IngestError>>, steps: seq<SessionTrace>,
                                stats: IngestStats, events0: seq<ProgressEvent>, issued0: seq<string>,
                                sessions0: seq<CopilotSessionRecord>, messages0: seq<CopilotMessageRecord>, now: int)
      reads this, db, uuids
    {
      Valid() && OutcomesFit(ss, outs) && stats == CopilotTotals(outs) &&
      events == events0 + CopilotEvents(ss, outs) &&
      issued0 <= uuids.issued && sessions0 <= db.sessions &&
      StepsFit(workspaceId, ss, outs, steps, db.sessions, now) &&
      db.messages == messages0 + AllAdded(steps) &&
      |db.messages| == |messages0| + stats.messagesInserted
    }

    /** `ingest_single_session` as the copilot loop sees it. */
    method IngestOne(workspaceId: string, d: DiscoveredSession, now: int)
      returns (r: Result<IngestStats, IngestError>, ghost t: SessionTrace)
      requires Valid()
      modifies db`sessions, db`messages, uuids
      ensures Valid() && SessionOutcome(r)
      ensures d.parsed.Err? ==> r == Err(Copilot(d.parsed.error))
      ensures old(uuids.issued) <= uuids.issued && old(db.sessions) <= db.sessions
      ensures db.messages == old(db.messages) + t.added
      ensures SessionStepFits(workspaceId, d, r, t, db.sessions, now)
    {
      ghost var rowId, drawn, ids, added;
      r, rowId, drawn, ids, added := IngestSingleSession(workspaceId, d, now);
      t := SessionTrace(rowId, ids, added);
    }

    /** One turn of the copilot loop: ingest the next session, add what it
        contributes to the running totals and report it. */
    method SessionTurn(workspaceId: string, ss: seq<DiscoveredSession>, idx: nat, now: int,
                       ghost outs: seq<Result<IngestStats, IngestError>>, ghost steps: seq<SessionTrace>,
                       stats: IngestStats, ghost events0: seq<ProgressEvent>, ghost issued0: seq<string>,
                       ghost sessions0: seq<CopilotSessionRecord>, ghost messages0: seq<CopilotMessageRecord>)
      returns (o: Result<IngestStats, IngestError>, ghost t: SessionTrace, next: IngestStats)
      requires idx == |outs| < |ss| && CopilotLoop(workspaceId, ss, outs, steps, stats, events0, issued0, sessions0, messages0, now)
      modifies this`events, db`sessions, db`messages, uuids
      ensures CopilotLoop(workspaceId, ss, outs + [o], steps + [t], next, events0, issued0, sessions0, messages0, now)
    {
      ghost var issued1, sessions1, messages1 := uuids.issued, db.sessions, db.messages;
      o, t := IngestOne(workspaceId, ss[idx], now);
      PrefixTransitive(issued0, issued1, uuids.issued);
      PrefixTransitive(sessions0, sessions1, db.sessions);
      StepsFitAppend(workspaceId, ss, outs, steps, o, t, sessions1, db.sessions, now);
      AllAddedAppend(messages0, steps, t);
      OutcomesFitAppend(ss, outs, o);
      CopilotTotalsAppend(outs, o);
      CopilotEventsAppend(ss, outs, o);
      next := stats.Merge(Contribution(o));
      ReportSession(ss, idx, o);
      AppendAssociates(events0, CopilotEvents(ss, outs), SessionEvents(ss, idx, o));
    }

    /** The loop of `ingest_copilot`: ingest each discovered session in
        turn; a failure becomes a warning and the loop goes on; progress is
        reported after every fifth session and after the last. */
    method IngestSessions(workspaceId: string, ss: seq<DiscoveredSession>, now: int)
      returns (stats: IngestStats, ghost outs: seq<Result<IngestStats, IngestError>>, ghost steps: seq<SessionTrace>)
      requires Valid()
      modifies this`events, db`sessions, db`messages, uuids
      ensures Valid()
      ensures |outs| == |ss| && stats == CopilotTotals(outs)
      ensures events == old(events) + CopilotEvents(ss, outs)
      ensures OutcomesFit(ss, outs) && StepsFit(workspaceId, ss, outs, steps, db.sessions, now)
      ensures old(uuids.issued) <= uuids.issued && old(db.sessions) <= db.sessions
      ensures db.messages == old(db.messages) + AllAdded(steps)
      ensures |db.messages| == |old(db.messages)| + stats.messagesInserted
    {
      stats := ZeroStats();
      outs, steps := [], [];
      var idx := 0;
      while idx < |ss|
        invariant idx == |outs| &&
          CopilotLoop(workspaceId, ss, outs, steps, stats, old(events), old(uuids.issued), old(db.sessions),
                      old(db.messages), now)
      {
        var o;
        ghost var t;
        o, t, stats := SessionTurn(workspaceId, ss, idx, now, outs, steps, stats, old(events), old(uuids.issued),
                                   old(db.sessions), old(db.messages));
        outs, steps := outs + [o], steps + [t];
        idx := idx + 1;
      }
    }

    /** `ingest_copilot`: create the workspace if needed, discover its
        sessions and ingest them one by one; only the workspace and the
        discovery can fail the whole pass. */
    method IngestCopilot(workspacePath: string, discovered: Result<seq<DiscoveredSession>, string>, now: int)
      returns (r: Result<IngestStats, IngestError>, ghost trace: CopilotTrace)
      requires Valid()
      modifies this`events, db`workspaces, db`sessions, db`messages, uuids
      ensures Valid()
      ensures old(events) <= events && old(uuids.issued) <= uuids.issued && old(db.messages) <= db.messages
      ensures r.Err? ==> NoCompleted(events[|old(events)|..])
      ensures CopilotPassEffect(workspacePath, discovered, old(db.workspaces), db.tablesExist, db.workspaces,
                                old(db.sessions), db.sessions, old(db.messages), db.messages, r, trace, now)
      ensures r.Ok? ==>
        events == old(events) + [Started("copilot", Some(|discovered.value|))] +
          CopilotEvents(discovered.value, trace.outs) + [Completed("copilot", r.value)]
    {
      var ws;
      ghost var drawn;
      ws, drawn := OpenWorkspace(workspacePath, now);
      trace := CopilotTrace("", drawn, [], []);
      if ws.Err? {
        return Err(ws.error), trace;
      }
      ghost var outs, steps;
      r, outs, steps := RecordDiscovered(ws.value, discovered, now);
      trace := CopilotTrace(ws.value, drawn, outs, steps);
    }

    /** The second half of `ingest_copilot`, once the workspace exists: a
        failed discovery fails the pass; otherwise announce the sessions,
        ingest them one by one and report the totals. */
    method RecordDiscovered(workspaceId: string, discovered: Result<seq<DiscoveredSession>, string>, now: int)
      returns (r: Result<IngestStats, IngestError>, ghost outs: seq<Result<IngestStats, IngestError>>,
               ghost steps: seq<SessionTrace>)
      requires Valid()
      modifies this`events, db`sessions, db`messages, uuids
      ensures Valid()
      ensures old(events) <= events && old(uuids.issued) <= uuids.issued
      ensures discovered.Err? ==> r == Err(Copilot(discovered.error))
      ensures r.Err? ==> NoCompleted(events[|old(events)|..]) && db.sessions == old(db.sessions) &&
                         db.messages == old(db.messages)
      ensures r.Ok? ==>
        discovered.Ok? && |outs| == |discovered.value| && r.value == CopilotTotals(outs) &&
        OutcomesFit(discovered.value, outs) && StepsFit(workspaceId, discovered.value, outs, steps, db.sessions, now) &&
        old(db.sessions) <= db.sessions && db.messages == old(db.messages) + AllAdded(steps) &&
        |db.messages| == |old(db.messages)| + r.value.messagesInserted &&
        events == old(events) + [Started("copilot", Some(|discovered.value|))] +
          CopilotEvents(discovered.value, outs) + [Completed("copilot", r.value)]
    {
      outs, steps := [], [];
      if discovered.Err? {
        return Err(Copilot(discovered.error)), outs, steps;
      }
      Report(Started("copilot", Some(|discovered.value|)));
      var stats;
      stats, outs, steps := IngestSessions(workspaceId, discovered.value, now);
      Report(Completed("copilot", stats));
      return Ok(stats), outs, steps;
    }

    /** The two passes of `ingest_all`, git first, the Copilot pass
        whatever the git pass gave: what each returned and what each did,
        with the workspaces table as the git pass left it. */
    method BothPasses(workspacePath: string, options: IngestOptions, repo: Result<GitWalk.GitRepo, GitWalk.GitError>,
                      discovered: Result<seq<DiscoveredSession>, string>, now: int)
      returns (git: Result<IngestStats, IngestError>,
               copilot: Result<IngestStats, IngestError>, ghost gitTrace: GitTrace, ghost copilotTrace: CopilotTrace,
               ghost workspaces1: seq<WorkspaceRecord>)
      requires Valid()
      modifies this`events, db`workspaces, db`commits, db`sessions, db`messages, uuids
      ensures Valid()
      ensures IngestAllEffect(workspacePath, options, repo, discovered, now, old(db.commits), db.commits,
                              old(db.workspaces), db.tablesExist, workspaces1, db.workspaces,
                              old(db.sessions), db.sessions, old(db.messages), db.messages,
                              git, copilot, gitTrace, copilotTrace)
    {
      ghost var w, d, walked, ids;
      git, w, d, walked, ids := IngestGit(workspacePath, options, repo, now);
      gitTrace := GitTrace(w, d, walked, ids);
      workspaces1 := db.workspaces;
      copilot, copilotTrace := IngestCopilot(workspacePath, discovered, now);
      IngestAllEffectOf(workspacePath, options, repo, discovered, now, old(db.commits), db.commits,
                        old(db.workspaces), db.tablesExist, workspaces1, db.workspaces,
                        old(db.sessions), db.sessions, old(db.messages), db.messages,
                        git, copilot, gitTrace, copilotTrace);
    }

    /** `ingest_all`: the git pass, then the copilot pass; a pass that fails
        counts as one warning and the other pass still runs, so the result
        is always a success. Test output is not part of it. */
    method IngestAll(workspacePath: string, options: IngestOptions, repo: Result<GitWalk.GitRepo, GitWalk.GitError>,
                     discovered: Result<seq<DiscoveredSession>, string>, now: int)
      returns (r: Result<IngestStats, IngestError>, git: Result<IngestStats, IngestError>,
               copilot: Result<IngestStats, IngestError>, ghost gitTrace: GitTrace, ghost copilotTrace: CopilotTrace,
               ghost workspaces1: seq<WorkspaceRecord>)
      requires Valid()
      modifies this`events, db`workspaces, db`commits, db`sessions, db`messages, uuids
      ensures Valid()
      ensures r == Ok(ZeroStats().Merge(Contribution(git)).Merge(Contribution(copilot)))
      ensures IngestAllEffect(workspacePath, options, repo, discovered, now, old(db.commits), db.commits,
                              old(db.workspaces), db.tablesExist, workspaces1, db.workspaces,
                              old(db.sessions), db.sessions, old(db.messages), db.messages,
                              git, copilot, gitTrace, copilotTrace)
    {
      git, copilot, gitTrace, copilotTrace, workspaces1 := BothPasses(workspacePath, options, repo, discovered, now);
      var total := ZeroStats();
      total := total.Merge(Contribution(git));
      total := total.Merge(Contribution(copilot));
      return Ok(total), git, copilot, gitTrace, copilotTrace, workspaces1;
    }
  }
}
