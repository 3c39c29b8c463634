/** The tool handlers of `handlers.rs`: argument defaults, input checks,
    the mapping of query results to tool results, and source dispatch for
    ingestion.

    A tool's JSON arguments are a datatype whose fields are `None` when
    the key is absent; an absent argument map reads as one with every key
    absent. */
module Handlers {
  import opened Wrappers
  import opened Ordering
  import opened Db
  import opened Queries
  import Ingest
  import GitWalk
  import Environment
  import Text

  datatype HandlerError =
    | Query(cause: QueryError)
    | IngestFailed(ingestCause: Ingest.IngestError)
    | InvalidInput(message: string)
    | NotFound(what: string)
    | WorkspaceNotFound(path: string)

  /** The message serde gives for a required key that is absent. */
  function MissingField(name: string): HandlerError {
    InvalidInput("missing field `" + name + "`")
  }

  // ------------------------------------------------------------ arguments

  const DefaultTimelineLimit: nat := 50
  const DefaultSearchSource := "all"
  const DefaultSearchLimit: nat := 20
  const DefaultFailingTestsLimit: nat := 50
  const DefaultActivityDays: nat := 7
  const DefaultIngestSource := "all"
  const DefaultIncremental := true

  function OrElse<T>(o: Option<T>, d: T): (r: T)
    ensures o.Some? ==> r == o.value
    ensures o.None? ==> r == d
  {
    if o.Some? then o.value else d
  }

  datatype TimelineArgs = TimelineArgs(limit: Option<nat>, workspace: Option<string>)
  datatype TimelineInput = TimelineInput(limit: nat, workspace: Option<string>)

  function ParseTimeline(args: Option<TimelineArgs>): (r: TimelineInput)
    ensures args.None? ==> r == TimelineInput(DefaultTimelineLimit, None)
    ensures args.Some? ==> r.limit == OrElse(args.value.limit, DefaultTimelineLimit) && r.workspace == args.value.workspace
  {
    var a := OrElse(args, TimelineArgs(None, None));
    TimelineInput(OrElse(a.limit, DefaultTimelineLimit), a.workspace)
  }

  datatype SearchArgs = SearchArgs(query: Option<string>, source: Option<string>, limit: Option<nat>)
  datatype SearchInput = SearchInput(query: string, source: string, limit: nat)

  function ParseSearch(args: Option<SearchArgs>): (r: Result<SearchInput, HandlerError>)
    ensures r.Err? <==> args.None? || args.value.query.None?
    ensures r.Err? ==> r.error == MissingField("query")
    ensures r.Ok? ==> r.value.query == args.value.query.value &&
                      r.value.source == OrElse(args.value.source, DefaultSearchSource) &&
                      r.value.limit == OrElse(args.value.limit, DefaultSearchLimit)
  {
    var a := OrElse(args, SearchArgs(None, None, None));
    if a.query.None? then Err(MissingField("query"))
    else Ok(SearchInput(a.query.value, OrElse(a.source, DefaultSearchSource), OrElse(a.limit, DefaultSearchLimit)))
  }

  datatype FailingTestsArgs = FailingTestsArgs(limit: Option<nat>, workspace: Option<string>, commit: Option<string>)
  datatype FailingTestsInput = FailingTestsInput(limit: nat, workspace: Option<string>, commit: Option<string>)

  function ParseFailingTests(args: Option<FailingTestsArgs>): (r: FailingTestsInput)
    ensures args.None? ==> r == FailingTestsInput(DefaultFailingTestsLimit, None, None)
    ensures args.Some? ==> r.limit == OrElse(args.value.limit, DefaultFailingTestsLimit) &&
                           r.workspace == args.value.workspace && r.commit == args.value.commit
  {
    var a := OrElse(args, FailingTestsArgs(None, None, None));
    FailingTestsInput(OrElse(a.limit, DefaultFailingTestsLimit), a.workspace, a.commit)
  }

  datatype ActivityArgs = ActivityArgs(days: Option<nat>)

  function ParseActivity(args: Option<ActivityArgs>): (days: nat)
    ensures args.None? || args.value.days.None? ==> days == DefaultActivityDays
    ensures args.Some? && args.value.days.Some? ==> days == args.value.days.value
  {
    OrElse(OrElse(args, ActivityArgs(None)).days, DefaultActivityDays)
  }

  datatype CommitDetailsArgs = CommitDetailsArgs(sha: Option<string>)

  function ParseCommitDetails(args: Option<CommitDetailsArgs>): (r: Result<string, HandlerError>)
    ensures r.Err? <==> args.None? || args.value.sha.None?
    ensures r.Err? ==> r.error == MissingField("sha")
    ensures r.Ok? ==> r.value == args.value.sha.value
  {
    var a := OrElse(args, CommitDetailsArgs(None));
    if a.sha.None? then Err(MissingField("sha")) else Ok(a.sha.value)
  }

  datatype IngestArgs = IngestArgs(source: Option<string>, workspace: Option<string>, incremental: Option<bool>,
                                   limit: Option<nat>)
  datatype IngestInput = IngestInput(source: string, workspace: string, incremental: bool, limit: Option<nat>)

  function ParseIngest(args: Option<IngestArgs>): (r: Result<IngestInput, HandlerError>)
    ensures r.Err? <==> args.None? || args.value.workspace.None?
    ensures r.Err? ==> r.error == MissingField("workspace")
    ensures r.Ok? ==> r.value.workspace == args.value.workspace.value &&
                      r.value.source == OrElse(args.value.source, DefaultIngestSource) &&
                      r.value.incremental == OrElse(args.value.incremental, DefaultIncremental) &&
                      r.value.limit == args.value.limit
  {
    var a := OrElse(args, IngestArgs(None, None, None, None));
    if a.workspace.None? then Err(MissingField("workspace"))
    else Ok(IngestInput(OrElse(a.source, DefaultIngestSource), a.workspace.value,
                        OrElse(a.incremental, DefaultIncremental), a.limit))
  }

  /** An absent argument map parses like an empty one, so the optional
      tools run on their defaults and the others report their missing
      key. */
  lemma AbsentArgumentsAreEmptyArguments()
    ensures ParseTimeline(None) == ParseTimeline(Some(TimelineArgs(None, None))) == TimelineInput(50, None)
    ensures ParseSearch(None) == ParseSearch(Some(SearchArgs(None, None, None)))
    ensures ParseSearch(Some(SearchArgs(Some("test"), None, None))) == Ok(SearchInput("test", "all", 20))
    ensures ParseFailingTests(None) == ParseFailingTests(Some(FailingTestsArgs(None, None, None)))
    ensures ParseFailingTests(None).limit == 50
    ensures ParseActivity(None) == ParseActivity(Some(ActivityArgs(None))) == 7
    ensures ParseCommitDetails(None) == ParseCommitDetails(Some(CommitDetailsArgs(None))) == Err(MissingField("sha"))
    ensures ParseIngest(Some(IngestArgs(None, Some("/r"), None, None))) == Ok(IngestInput("all", "/r", true, None))
  {
  }

  /** The workspace filter of `handle_timeline` and `handle_failing_tests`:
      the argument when given, otherwise the server's default workspace. */
  function WorkspaceFilter(argument: Option<string>, defaultWorkspace: Option<string>): (r: Option<string>)
    ensures argument.Some? ==> r == argument
    ensures argument.None? ==> r == defaultWorkspace
  {
    if argument.Some? then argument else defaultWorkspace
  }

  // ------------------------------------------------------------ query tools

  /** `handle_timeline`. */
  method HandleTimeline(db: Database, view: seq<TimelineEvent>, args: Option<TimelineArgs>,
                        defaultWorkspace: Option<string>)
    returns (r: Result<seq<TimelineEvent>, HandlerError>)
    ensures r.Err? <==> !db.tablesExist
    ensures r.Err? ==> r.error.Query?
    ensures r.Ok? ==>
      var input := ParseTimeline(args);
      var filter := WorkspaceFilter(input.workspace, defaultWorkspace);
      ResolveOptionalFilter(db, filter).Ok? &&
      var scope := TimelineScope(view, ResolveOptionalFilter(db, filter).value);
      IsTopK(r.value, scope, RowCap(input.limit, |scope|), NewerEvent)
  {
    var input := ParseTimeline(args);
    var events := GetTimeline(db, view, input.limit, WorkspaceFilter(input.workspace, defaultWorkspace));
    match events {
      case Err(e) => return Err(Query(e));
      case Ok(rows) => return Ok(rows);
    }
  }

  const EmptySearchQuery := "Search query cannot be empty. Provide a search term like 'refactor' or 'fix bug'."

  /** `handle_search`: "commits" and "messages" search one index each, any
      other source searches both. */
  method HandleSearch(db: Database, commitIndex: FullTextIndex<CommitRecord>,
                      messageIndex: FullTextIndex<CopilotMessageRecord>, args: Option<SearchArgs>)
    returns (r: Result<seq<SearchResult>, HandlerError>)
    ensures ParseSearch(args).Err? ==> r == Err(ParseSearch(args).error)
    ensures ParseSearch(args).Ok? && ParseSearch(args).value.query == [] ==> r == Err(InvalidInput(EmptySearchQuery))
    ensures ParseSearch(args).Ok? && ParseSearch(args).value.query != [] ==>
      (r.Err? <==> !db.tablesExist) && (r.Err? ==> r.error.Query?)
    ensures r.Ok? ==>
      var input := ParseSearch(args).value;
      var commitHits := CommitHits(db.commits, commitIndex, input.query);
      var messageHits := MessageHits(db.messages, messageIndex, input.query);
      (input.source == "commits" ==> IsTopK(r.value, commitHits, RowCap(input.limit, |commitHits|), BetterRank)) &&
      (input.source == "messages" ==> IsTopK(r.value, messageHits, RowCap(input.limit, |messageHits|), BetterRank)) &&
      (input.source != "commits" && input.source != "messages" ==>
         |r.value| <= input.limit && Sorted(r.value, BetterRank) &&
         forall k :: 0 <= k < |r.value| ==> r.value[k] in commitHits || r.value[k] in messageHits)
  {
    var parsed := ParseSearch(args);
    if parsed.Err? {
      return Err(parsed.error);
    }
    var input := parsed.value;
    if input.query == [] {
      return Err(InvalidInput(EmptySearchQuery));
    }
    var results;
    if input.source == "commits" {
      results := SearchCommits(db, commitIndex, input.query, input.limit);
    } else if input.source == "messages" {
      results := SearchMessages(db, messageIndex, input.query, input.limit);
    } else {
      ghost var fromCommits, fromMessages;
      results, fromCommits, fromMessages := SearchAll(db, commitIndex, messageIndex, input.query, input.limit);
      if results.Ok? {
        BothSourcesFacts(results.value, fromCommits, fromMessages, db, commitIndex, messageIndex, input.query, input.limit);
      }
    }
    match results {
      case Err(e) => return Err(Query(e));
      case Ok(rows) => return Ok(rows);
    }
  }

  /** Every result of `search_all` is a hit of one of the two indexes. */
  lemma BothSourcesFacts(r: seq<SearchResult>, fromCommits: seq<SearchResult>, fromMessages: seq<SearchResult>,
                         db: Database, commitIndex: FullTextIndex<CommitRecord>,
                         messageIndex: FullTextIndex<CopilotMessageRecord>, query: string, limit: nat)
    requires var commitHits := CommitHits(db.commits, commitIndex, query);
             var messageHits := MessageHits(db.messages, messageIndex, query);
             IsTopK(fromCommits, commitHits, RowCap(limit, |commitHits|), BetterRank) &&
             IsTopK(fromMessages, messageHits, RowCap(limit, |messageHits|), BetterRank)
    requires IsTopK(r, fromCommits + fromMessages, limit, BetterRank)
    ensures forall k :: 0 <= k < |r| ==>
      r[k] in CommitHits(db.commits, commitIndex, query) || r[k] in MessageHits(db.messages, messageIndex, query)
  {
    var commitHits := CommitHits(db.commits, commitIndex, query);
    var messageHits := MessageHits(db.messages, messageIndex, query);
    TopKRowsAreCandidates(r, fromCommits + fromMessages, limit, BetterRank);
    TopKRowsAreCandidates(fromCommits, commitHits, RowCap(limit, |commitHits|), BetterRank);
    TopKRowsAreCandidates(fromMessages, messageHits, RowCap(limit, |messageHits|), BetterRank);
    forall k | 0 <= k < |r|
      ensures r[k] in commitHits || r[k] in messageHits
    {
      assert r[k] in fromCommits + fromMessages;
      if r[k] in fromCommits {
        var i :| 0 <= i < |fromCommits| && fromCommits[i] == r[k];
      } else {
        assert r[k] in fromMessages;
        var i :| 0 <= i < |fromMessages| && fromMessages[i] == r[k];
      }
    }
  }

  /** `handle_failing_tests`; the commit argument is parsed and not used. */
  method HandleFailingTests(db: Database, view: seq<FailingTest>, args: Option<FailingTestsArgs>,
                            defaultWorkspace: Option<string>)
    returns (r: Result<seq<FailingTest>, HandlerError>)
    ensures r.Err? <==> !db.tablesExist
    ensures r.Err? ==> r.error.Query?
    ensures r.Ok? ==>
      var input := ParseFailingTests(args);
      var filter := WorkspaceFilter(input.workspace, defaultWorkspace);
      ResolveOptionalFilter(db, filter).Ok? &&
      var scope := FailureScope(view, db.testRuns, ResolveOptionalFilter(db, filter).value);
      IsTopK(r.value, scope, RowCap(input.limit, |scope|), NewerFailure)
  {
    var input := ParseFailingTests(args);
    var tests := GetFailingTests(db, view, input.limit, WorkspaceFilter(input.workspace, defaultWorkspace));
    match tests {
      case Err(e) => return Err(Query(e));
      case Ok(rows) => return Ok(rows);
    }
  }

  /** `handle_activity_summary`: the summary of the last `days` days, seven
      unless given. */
  function HandleActivitySummary(db: Database, args: Option<ActivityArgs>, now: int): (r: Result<ActivitySummary, HandlerError>)
    reads db
    ensures r.Err? <==> !db.tablesExist
    ensures r.Ok? ==> r.value.days == ParseActivity(args) &&
                      r.value == GetActivitySummary(db, ParseActivity(args), now).value
  {
    match GetActivitySummary(db, ParseActivity(args), now)
    case Err(e) => Err(Query(e))
    case Ok(summary) => Ok(summary)
  }

  /** An empty store summarises to zero of everything. */
  lemma EmptyStoreSummarisesToZero(db: Database, args: Option<ActivityArgs>, now: int)
    requires db.tablesExist && db.commits == [] && db.testRuns == [] && db.sessions == [] && db.testResults == []
    ensures HandleActivitySummary(db, args, now).Ok?
    ensures var s := HandleActivitySummary(db, args, now).value;
            s.commits == 0 && s.testRuns == 0 && s.copilotSessions == 0 && s.failingTests == 0
  {
  }

  const MissingSha := "Commit SHA is required. Provide a full or partial SHA like 'abc123' or 'abc123def456789'."

  /** `handle_commit_details`: a missing or empty sha is invalid input, no
      matching sha is `NotFound`. */
  function HandleCommitDetails(db: Database, args: Option<CommitDetailsArgs>): (r: Result<CommitWithTests, HandlerError>)
    reads db
    ensures ParseCommitDetails(args).Err? ==> r == Err(ParseCommitDetails(args).error)
    ensures ParseCommitDetails(args) == Ok([]) ==> r == Err(InvalidInput(MissingSha))
    ensures ParseCommitDetails(args).Ok? && ParseCommitDetails(args).value != [] ==>
      var sha := ParseCommitDetails(args).value;
      (!db.tablesExist ==> r.Err? && r.error.Query?) &&
      (db.tablesExist ==>
         ((forall k :: 0 <= k < |db.commits| ==> !(sha <= db.commits[k].sha)) <==> r == Err(HandlerError.NotFound("Commit not found: " + sha))) &&
         (r.Ok? ==> sha <= r.value.sha && r.value == GetCommitWithTests(db, sha).value.value))
  {
    match ParseCommitDetails(args)
    case Err(e) => Err(e)
    case Ok(sha) =>
      if sha == [] then Err(InvalidInput(MissingSha))
      else match GetCommitWithTests(db, sha)
        case Err(e) => Err(Query(e))
        case Ok(None) => Err(HandlerError.NotFound("Commit not found: " + sha))
        case Ok(Some(c)) => Ok(c)
  }

  // ------------------------------------------------------------ ingestion

  datatype IngestStatsResponse = IngestStatsResponse(
    commitsInserted: nat,
    commitsSkipped: nat,
    testRunsInserted: nat,
    testResultsInserted: nat,
    sessionsInserted: nat,
    messagesInserted: nat,
    totalItems: nat)

  /** `From<IngestStats>`: the counters, and their total; warnings are not
      reported. */
  function StatsResponse(stats: Ingest.IngestStats): (r: IngestStatsResponse)
    ensures r.totalItems == stats.TotalItems()
    ensures r.totalItems == r.commitsInserted + r.testRunsInserted + r.testResultsInserted + r.sessionsInserted +
                            r.messagesInserted
    ensures r.commitsInserted == stats.commitsInserted && r.commitsSkipped == stats.commitsSkipped &&
            r.testRunsInserted == stats.testRunsInserted && r.testResultsInserted == stats.testResultsInserted &&
            r.sessionsInserted == stats.sessionsInserted && r.messagesInserted == stats.messagesInserted
  {
    IngestStatsResponse(stats.commitsInserted, stats.commitsSkipped, stats.testRunsInserted,
                        stats.testResultsInserted, stats.sessionsInserted, stats.messagesInserted, stats.TotalItems())
  }

  datatype IngestResponse = IngestResponse(source: string, stats: IngestStatsResponse, message: string)

  function IngestMessage(total: nat, source: string): string {
    "Ingested " + Text.NatToString(total) + " items from '" + source + "' source"
  }

  /** The options of `handle_ingest`: incremental or full, with the limit
      when one is given. */
  function OptionsFor(input: IngestInput): (r: Ingest.IngestOptions)
    ensures r.includeDiffs && r.incremental == input.incremental && r.commitLimit == input.limit
  {
    var options := if input.incremental then Ingest.IncrementalOptions() else Ingest.FullOptions();
    if input.limit.Some? then options.WithLimit(input.limit.value) else options
  }

  /** The statistics a pass adds to the running total: nothing when it
      failed. */
  function Gained(run: Option<Result<Ingest.IngestStats, Ingest.IngestError>>): (s: Ingest.IngestStats)
    ensures run.Some? && run.value.Ok? ==> s == run.value.value
    ensures run.None? || run.value.Err? ==> s == Ingest.ZeroStats() && s.TotalItems() == 0
  {
    if run.Some? && run.value.Ok? then run.value.value else Ingest.ZeroStats()
  }

  function NotADirectory(path: string): HandlerError {
    InvalidInput("Workspace path is not a directory: " + path)
  }

  /** What `handle_ingest` answers for parsed arguments. The path is checked
      before any pass runs. The "git" and "copilot" sources run one pass
      and fail with it; any other source runs both, ignores their failures
      and adds up what succeeded. `gitRun` and `copilotRun` are the results
      of the passes that ran. */
  ghost predicate IngestOutcome(input: IngestInput, fs: Environment.FileSystem, r: Result<IngestResponse, HandlerError>,
                                gitRun: Option<Result<Ingest.IngestStats, Ingest.IngestError>>,
                                copilotRun: Option<Result<Ingest.IngestStats, Ingest.IngestError>>)
  {
    var ws := input.workspace;
    var source := input.source;
    (!fs.Exists(ws) ==> r == Err(WorkspaceNotFound(ws)) && gitRun.None? && copilotRun.None?) &&
    (fs.Exists(ws) && !fs.IsDir(ws) ==> r == Err(NotADirectory(ws)) && gitRun.None? && copilotRun.None?) &&
    (fs.IsDir(ws) && source == "git" ==>
       gitRun.Some? && copilotRun.None? && (r.Ok? <==> gitRun.value.Ok?) &&
       (r.Err? ==> r == Err(IngestFailed(gitRun.value.error)))) &&
    (fs.IsDir(ws) && source == "copilot" ==>
       gitRun.None? && copilotRun.Some? && (r.Ok? <==> copilotRun.value.Ok?) &&
       (r.Err? ==> r == Err(IngestFailed(copilotRun.value.error)))) &&
    (fs.IsDir(ws) && source != "git" && source != "copilot" ==> gitRun.Some? && copilotRun.Some? && r.Ok?) &&
    (r.Ok? ==>
       var total := Gained(gitRun).Merge(Gained(copilotRun));
       r.value.source == source && r.value.stats == StatsResponse(total) &&
       r.value.message == IngestMessage(total.TotalItems(), source))
  }

  /** What the passes that ran did to the store: `commits0`,
      `workspaces0`, `sessions0` and `messages0` are the tables before them,
      `commits`, `workspaces`, `sessions` and `messages` the tables after.
      Each pass that ran had the effect its own contract states, with the
      options of the request, the Copilot pass starting from the workspaces
      the git pass left; a table no pass wrote to is unchanged. */
  ghost predicate PassEffects(commits0: seq<CommitRecord>, commits: seq<CommitRecord>,
                              workspaces0: seq<WorkspaceRecord>, tablesExist: bool, workspaces: seq<WorkspaceRecord>,
                              sessions0: seq<CopilotSessionRecord>, sessions: seq<CopilotSessionRecord>,
                              messages0: seq<CopilotMessageRecord>, messages: seq<CopilotMessageRecord>,
                              workspace: string, options: Ingest.IngestOptions,
                              repo: Result<GitWalk.GitRepo, GitWalk.GitError>,
                              discovered: Result<seq<Ingest.DiscoveredSession>, string>, now: int,
                              gitRun: Option<Result<Ingest.IngestStats, Ingest.IngestError>>,
                              copilotRun: Option<Result<Ingest.IngestStats, Ingest.IngestError>>,
                              gitTrace: Ingest.GitTrace, copilotTrace: Ingest.CopilotTrace)
  {
    (gitRun.Some? ==>
       Ingest.GitPassEffect(workspace, options, repo, now, commits0, commits, workspaces0, tablesExist,
                            AfterGit(workspaces0, tablesExist, workspace, gitRun, gitTrace, now), gitRun.value, gitTrace)) &&
    (gitRun.None? ==> commits == commits0) &&
    (copilotRun.Some? ==>
       Ingest.CopilotPassEffect(workspace, discovered, AfterGit(workspaces0, tablesExist, workspace, gitRun, gitTrace, now),
                                tablesExist, workspaces, sessions0, sessions, messages0, messages, copilotRun.value,
                                copilotTrace, now)) &&
    (copilotRun.None? ==>
       sessions == sessions0 && messages == messages0 &&
       workspaces == AfterGit(workspaces0, tablesExist, workspace, gitRun, gitTrace, now))
  }

  /** The workspaces table once the git pass, if it ran, has opened the
      workspace. */
  ghost function AfterGit(workspaces0: seq<WorkspaceRecord>, tablesExist: bool, workspace: string,
                          gitRun: Option<Result<Ingest.IngestStats, Ingest.IngestError>>, gitTrace: Ingest.GitTrace,
                          now: int): seq<WorkspaceRecord>
  {
    if gitRun.Some? then Ingest.OpenedWorkspaces(workspaces0, tablesExist, workspace, gitTrace.drawn, now)
    else workspaces0
  }

  /** `handle_ingest`. */
  method HandleIngest(db: Database, uuids: Ingest.UuidSource, fs: Environment.FileSystem, args: Option<IngestArgs>,
                      repo: Result<GitWalk.GitRepo, GitWalk.GitError>,
                      discovered: Result<seq<Ingest.DiscoveredSession>, string>, now: int)
    returns (r: Result<IngestResponse, HandlerError>,
             ghost gitRun: Option<Result<Ingest.IngestStats, Ingest.IngestError>>,
             ghost copilotRun: Option<Result<Ingest.IngestStats, Ingest.IngestError>>,
             ghost gitTrace: Ingest.GitTrace, ghost copilotTrace: Ingest.CopilotTrace)
    requires db.Valid() && uuids.Valid()
    modifies db`workspaces, db`commits, db`sessions, db`messages, uuids
    ensures db.Valid() && uuids.Valid()
    ensures ParseIngest(args).Err? ==> r == Err(ParseIngest(args).error) && gitRun.None? && copilotRun.None?
    ensures ParseIngest(args).Ok? ==> IngestOutcome(ParseIngest(args).value, fs, r, gitRun, copilotRun)
    ensures ParseIngest(args).Ok? ==>
      PassEffects(old(db.commits), db.commits, old(db.workspaces), db.tablesExist, db.workspaces,
                  old(db.sessions), db.sessions, old(db.messages), db.messages,
                  ParseIngest(args).value.workspace, OptionsFor(ParseIngest(args).value), repo, discovered, now,
                  gitRun, copilotRun, gitTrace, copilotTrace)
    ensures gitRun.None? && copilotRun.None? ==> unchanged(db, uuids)
  {
    var parsed := ParseIngest(args);
    match parsed {
      case Err(e) => return Err(e), None, None, Ingest.GitTrace("", "", [], []), Ingest.CopilotTrace("", "", [], []);
      case Ok(input) =>
        r, gitRun, copilotRun, gitTrace, copilotTrace := IngestWorkspace(db, uuids, fs, input, repo, discovered, now);
    }
  }

  /** `handle_ingest` once its arguments are parsed. */
  method IngestWorkspace(db: Database, uuids: Ingest.UuidSource, fs: Environment.FileSystem, input: IngestInput,
                         repo: Result<GitWalk.GitRepo, GitWalk.GitError>,
                         discovered: Result<seq<Ingest.DiscoveredSession>, string>, now: int)
    returns (r: Result<IngestResponse, HandlerError>,
             ghost gitRun: Option<Result<Ingest.IngestStats, Ingest.IngestError>>,
             ghost copilotRun: Option<Result<Ingest.IngestStats, Ingest.IngestError>>,
             ghost gitTrace: Ingest.GitTrace, ghost copilotTrace: Ingest.CopilotTrace)
    requires db.Valid() && uuids.Valid()
    modifies db`workspaces, db`commits, db`sessions, db`messages, uuids
    ensures db.Valid() && uuids.Valid()
    ensures IngestOutcome(input, fs, r, gitRun, copilotRun)
    ensures PassEffects(old(db.commits), db.commits, old(db.workspaces), db.tablesExist, db.workspaces,
                        old(db.sessions), db.sessions, old(db.messages), db.messages,
                        input.workspace, OptionsFor(input), repo, discovered, now,
                        gitRun, copilotRun, gitTrace, copilotTrace)
    ensures gitRun.None? && copilotRun.None? ==> unchanged(db, uuids)
  {
    gitRun, copilotRun, gitTrace, copilotTrace := None, None, Ingest.GitTrace("", "", [], []), Ingest.CopilotTrace("", "", [], []);
    if !fs.Exists(input.workspace) {
      r := Err(WorkspaceNotFound(input.workspace));
    } else if !fs.IsDir(input.workspace) {
      r := Err(NotADirectory(input.workspace));
    } else {
      r, gitRun, copilotRun, gitTrace, copilotTrace := Dispatch(db, uuids, fs, input, repo, discovered, now);
    }
  }

  /** `handle_ingest` once the workspace is known to be a directory: the
      dispatch on the source, and the response built from its total. */
  method Dispatch(db: Database, uuids: Ingest.UuidSource, fs: Environment.FileSystem, input: IngestInput,
                  repo: Result<GitWalk.GitRepo, GitWalk.GitError>,
                  discovered: Result<seq<Ingest.DiscoveredSession>, string>, now: int)
    returns (r: Result<IngestResponse, HandlerError>,
             ghost gitRun: Option<Result<Ingest.IngestStats, Ingest.IngestError>>,
             ghost copilotRun: Option<Result<Ingest.IngestStats, Ingest.IngestError>>,
             ghost gitTrace: Ingest.GitTrace, ghost copilotTrace: Ingest.CopilotTrace)
    requires db.Valid() && uuids.Valid()
    requires fs.Exists(input.workspace) && fs.IsDir(input.workspace)
    modifies db`workspaces, db`commits, db`sessions, db`messages, uuids
    ensures db.Valid() && uuids.Valid()
    ensures gitRun.Some? || copilotRun.Some?
    ensures IngestOutcome(input, fs, r, gitRun, copilotRun)
    ensures PassEffects(old(db.commits), db.commits, old(db.workspaces), db.tablesExist, db.workspaces,
                        old(db.sessions), db.sessions, old(db.messages), db.messages,
                        input.workspace, OptionsFor(input), repo, discovered, now,
                        gitRun, copilotRun, gitTrace, copilotTrace)
  {
    var total;
    total, gitRun, copilotRun, gitTrace, copilotTrace :=
      RunSources(db, uuids, input.source, input.workspace, OptionsFor(input), repo, discovered, now);
    r := Respond(input.source, total);
    DispatchOutcome(input, fs, total, gitRun, copilotRun);
  }

  /** The response `handle_ingest` builds from the dispatch's total, or the
      dispatch's failure. */
  function Respond(source: string, total: Result<Ingest.IngestStats, HandlerError>): Result<IngestResponse, HandlerError>
  {
    match total
    case Err(e) => Err(e)
    case Ok(t) => Ok(IngestResponse(source, StatsResponse(t), IngestMessage(t.TotalItems(), source)))
  }

  /** The response of `handle_ingest` is the dispatch's total, reported. */
  lemma DispatchOutcome(input: IngestInput, fs: Environment.FileSystem, total: Result<Ingest.IngestStats, HandlerError>,
                        gitRun: Option<Result<Ingest.IngestStats, Ingest.IngestError>>,
                        copilotRun: Option<Result<Ingest.IngestStats, Ingest.IngestError>>)
    requires fs.Exists(input.workspace) && fs.IsDir(input.workspace)
    requires input.source == "git" ==>
               gitRun.Some? && copilotRun.None? && (total.Ok? <==> gitRun.value.Ok?) &&
               (total.Err? ==> total == Err(IngestFailed(gitRun.value.error))) &&
               (total.Ok? ==> total.value == gitRun.value.value)
    requires input.source == "copilot" ==>
               gitRun.None? && copilotRun.Some? && (total.Ok? <==> copilotRun.value.Ok?) &&
               (total.Err? ==> total == Err(IngestFailed(copilotRun.value.error))) &&
               (total.Ok? ==> total.value == copilotRun.value.value)
    requires input.source != "git" && input.source != "copilot" ==>
               gitRun.Some? && copilotRun.Some? && total == Ok(Gained(gitRun).Merge(Gained(copilotRun)))
    ensures IngestOutcome(input, fs, Respond(input.source, total), gitRun, copilotRun)
  {
    if total.Ok? {
      Ingest.MergeIsCommutativeMonoid(total.value, total.value, total.value);
    }
  }

  /** The source dispatch of `handle_ingest`, on a fresh ingestor over the
      store. */
  method RunSources(db: Database, uuids: Ingest.UuidSource, source: string, workspace: string,
                    options: Ingest.IngestOptions, repo: Result<GitWalk.GitRepo, GitWalk.GitError>,
                    discovered: Result<seq<Ingest.DiscoveredSession>, string>, now: int)
    returns (total: Result<Ingest.IngestStats, HandlerError>,
             ghost gitRun: Option<Result<Ingest.IngestStats, Ingest.IngestError>>,
             ghost copilotRun: Option<Result<Ingest.IngestStats, Ingest.IngestError>>,
             ghost gitTrace: Ingest.GitTrace, ghost copilotTrace: Ingest.CopilotTrace)
    requires db.Valid() && uuids.Valid()
    modifies db`workspaces, db`commits, db`sessions, db`messages, uuids
    ensures db.Valid() && uuids.Valid()
    ensures source == "git" ==> gitRun.Some? && copilotRun.None? && (total.Ok? <==> gitRun.value.Ok?) &&
                                (total.Err? ==> total == Err(IngestFailed(gitRun.value.error))) &&
                                (total.Ok? ==> total.value == gitRun.value.value)
    ensures source == "copilot" ==> gitRun.None? && copilotRun.Some? && (total.Ok? <==> copilotRun.value.Ok?) &&
                                    (total.Err? ==> total == Err(IngestFailed(copilotRun.value.error))) &&
                                    (total.Ok? ==> total.value == copilotRun.value.value)
    ensures source != "git" && source != "copilot" ==>
              gitRun.Some? && copilotRun.Some? && total == Ok(Gained(gitRun).Merge(Gained(copilotRun)))
    ensures PassEffects(old(db.commits), db.commits, old(db.workspaces), db.tablesExist, db.workspaces,
                        old(db.sessions), db.sessions, old(db.messages), db.messages,
                        workspace, options, repo, discovered, now, gitRun, copilotRun, gitTrace, copilotTrace)
  {
    ghost var commits0, workspaces0, sessions0, messages0 := db.commits, db.workspaces, db.sessions, db.messages;
    var ingestor := new Ingest.Ingestor(db, uuids);
    assert ingestor.db == db && db.commits == commits0 && db.workspaces == workspaces0 && db.sessions == sessions0 &&
           db.messages == messages0;
    total, gitRun, copilotRun, gitTrace, copilotTrace := RunOn(ingestor, source, workspace, options, repo, discovered, now);
  }

  /** The source dispatch of `handle_ingest` on the ingestor. */
  method RunOn(ingestor: Ingest.Ingestor, source: string, workspace: string, options: Ingest.IngestOptions,
               repo: Result<GitWalk.GitRepo, GitWalk.GitError>,
               discovered: Result<seq<Ingest.DiscoveredSession>, string>, now: int)
    returns (total: Result<Ingest.IngestStats, HandlerError>,
             ghost gitRun: Option<Result<Ingest.IngestStats, Ingest.IngestError>>,
             ghost copilotRun: Option<Result<Ingest.IngestStats, Ingest.IngestError>>,
             ghost gitTrace: Ingest.GitTrace, ghost copilotTrace: Ingest.CopilotTrace)
    requires ingestor.Valid()
    modifies ingestor`events, ingestor.db`workspaces, ingestor.db`commits, ingestor.db`sessions, ingestor.db`messages,
             ingestor.uuids
    ensures ingestor.Valid()
    ensures source == "git" ==> gitRun.Some? && copilotRun.None? && (total.Ok? <==> gitRun.value.Ok?) &&
                                (total.Err? ==> total == Err(IngestFailed(gitRun.value.error))) &&
                                (total.Ok? ==> total.value == gitRun.value.value)
    ensures source == "copilot" ==> gitRun.None? && copilotRun.Some? && (total.Ok? <==> copilotRun.value.Ok?) &&
                                    (total.Err? ==> total == Err(IngestFailed(copilotRun.value.error))) &&
                                    (total.Ok? ==> total.value == copilotRun.value.value)
    ensures source != "git" && source != "copilot" ==>
              gitRun.Some? && copilotRun.Some? && total == Ok(Gained(gitRun).Merge(Gained(copilotRun)))
    ensures PassEffects(old(ingestor.db.commits), ingestor.db.commits, old(ingestor.db.workspaces),
                        ingestor.db.tablesExist, ingestor.db.workspaces,
                        old(ingestor.db.sessions), ingestor.db.sessions, old(ingestor.db.messages), ingestor.db.messages,
                        workspace, options, repo, discovered, now, gitRun, copilotRun, gitTrace, copilotTrace)
  {
    if source == "git" {
      total, gitRun, copilotRun, gitTrace, copilotTrace := GitOnly(ingestor, workspace, options, repo, discovered, now);
    } else if source == "copilot" {
      total, gitRun, copilotRun, gitTrace, copilotTrace := CopilotOnly(ingestor, workspace, options, repo, discovered, now);
    } else {
      total, gitRun, copilotRun, gitTrace, copilotTrace := BothArm(ingestor, workspace, options, repo, discovered, now);
    }
  }

  /** The default arm of the dispatch: both passes, and the total of those
      that succeeded. */
  method BothArm(ingestor: Ingest.Ingestor, workspace: string, options: Ingest.IngestOptions,
                 repo: Result<GitWalk.GitRepo, GitWalk.GitError>,
                 discovered: Result<seq<Ingest.DiscoveredSession>, string>, now: int)
    returns (total: Result<Ingest.IngestStats, HandlerError>,
             ghost gitRun: Option<Result<Ingest.IngestStats, Ingest.IngestError>>,
             ghost copilotRun: Option<Result<Ingest.IngestStats, Ingest.IngestError>>,
             ghost gitTrace: Ingest.GitTrace, ghost copilotTrace: Ingest.CopilotTrace)
    requires ingestor.Valid()
    modifies ingestor`events, ingestor.db`workspaces, ingestor.db`commits, ingestor.db`sessions, ingestor.db`messages,
             ingestor.uuids
    ensures ingestor.Valid()
    ensures gitRun.Some? && copilotRun.Some? && total == Ok(Gained(gitRun).Merge(Gained(copilotRun)))
    ensures PassEffects(old(ingestor.db.commits), ingestor.db.commits, old(ingestor.db.workspaces),
                        ingestor.db.tablesExist, ingestor.db.workspaces,
                        old(ingestor.db.sessions), ingestor.db.sessions, old(ingestor.db.messages), ingestor.db.messages,
                        workspace, options, repo, discovered, now, gitRun, copilotRun, gitTrace, copilotTrace)
  {
    var git, copilot;
    git, copilot, gitTrace, copilotTrace := RunBoth(ingestor, workspace, options, repo, discovered, now);
    gitRun, copilotRun := Some(git), Some(copilot);
    total := BothTotal(git, copilot);
  }

  /** The `"git"` arm of the dispatch. */
  method GitOnly(ingestor: Ingest.Ingestor, workspace: string, options: Ingest.IngestOptions,
                 repo: Result<GitWalk.GitRepo, GitWalk.GitError>,
                 discovered: Result<seq<Ingest.DiscoveredSession>, string>, now: int)
    returns (total: Result<Ingest.IngestStats, HandlerError>,
             ghost gitRun: Option<Result<Ingest.IngestStats, Ingest.IngestError>>,
             ghost copilotRun: Option<Result<Ingest.IngestStats, Ingest.IngestError>>,
             ghost gitTrace: Ingest.GitTrace, ghost copilotTrace: Ingest.CopilotTrace)
    requires ingestor.Valid()
    modifies ingestor`events, ingestor.db`workspaces, ingestor.db`commits, ingestor.db`sessions, ingestor.db`messages,
             ingestor.uuids
    ensures ingestor.Valid()
    ensures gitRun.Some? && copilotRun.None? && (total.Ok? <==> gitRun.value.Ok?) &&
            (total.Err? ==> total == Err(IngestFailed(gitRun.value.error)))
    ensures total.Ok? ==> total.value == gitRun.value.value
    ensures PassEffects(old(ingestor.db.commits), ingestor.db.commits, old(ingestor.db.workspaces),
                        ingestor.db.tablesExist, ingestor.db.workspaces,
                        old(ingestor.db.sessions), ingestor.db.sessions, old(ingestor.db.messages), ingestor.db.messages,
                        workspace, options, repo, discovered, now, gitRun, copilotRun, gitTrace,
                        copilotTrace)
  {
    var stats;
    stats, gitTrace := RunGit(ingestor, workspace, options, repo, now);
    gitRun, copilotRun, copilotTrace := Some(stats), None, Ingest.CopilotTrace("", "", [], []);
    total := SinglePass(stats);
    GitOnlyEffects(old(ingestor.db.commits), ingestor.db.commits, old(ingestor.db.workspaces), ingestor.db.tablesExist,
                   ingestor.db.workspaces, old(ingestor.db.sessions),
                   ingestor.db.sessions, old(ingestor.db.messages), ingestor.db.messages, workspace, options, repo,
                   discovered, now, stats, gitTrace);
  }

  /** The `"copilot"` arm of the dispatch. */
  method CopilotOnly(ingestor: Ingest.Ingestor, workspace: string, options: Ingest.IngestOptions,
                     repo: Result<GitWalk.GitRepo, GitWalk.GitError>,
                     discovered: Result<seq<Ingest.DiscoveredSession>, string>, now: int)
    returns (total: Result<Ingest.IngestStats, HandlerError>,
             ghost gitRun: Option<Result<Ingest.IngestStats, Ingest.IngestError>>,
             ghost copilotRun: Option<Result<Ingest.IngestStats, Ingest.IngestError>>,
             ghost gitTrace: Ingest.GitTrace, ghost copilotTrace: Ingest.CopilotTrace)
    requires ingestor.Valid()
    modifies ingestor`events, ingestor.db`workspaces, ingestor.db`commits, ingestor.db`sessions, ingestor.db`messages,
             ingestor.uuids
    ensures ingestor.Valid()
    ensures gitRun.None? && copilotRun.Some? && (total.Ok? <==> copilotRun.value.Ok?) &&
            (total.Err? ==> total == Err(IngestFailed(copilotRun.value.error)))
    ensures total.Ok? ==> total.value == copilotRun.value.value
    ensures PassEffects(old(ingestor.db.commits), ingestor.db.commits, old(ingestor.db.workspaces),
                        ingestor.db.tablesExist, ingestor.db.workspaces,
                        old(ingestor.db.sessions), ingestor.db.sessions, old(ingestor.db.messages), ingestor.db.messages,
                        workspace, options, repo, discovered, now, gitRun, copilotRun, gitTrace,
                        copilotTrace)
  {
    var stats;
    stats, copilotTrace := RunCopilot(ingestor, workspace, discovered, now);
    gitRun, copilotRun, gitTrace := None, Some(stats), Ingest.GitTrace("", "", [], []);
    total := SinglePass(stats);
    CopilotOnlyEffects(ingestor.db.commits, old(ingestor.db.workspaces), ingestor.db.tablesExist, ingestor.db.workspaces,
                       old(ingestor.db.sessions), ingestor.db.sessions,
                       old(ingestor.db.messages), ingestor.db.messages, workspace, options, repo, discovered, now, stats, copilotTrace);
  }

  /** A git pass alone: the Copilot side of the effect is empty. */
  lemma GitOnlyEffects(commits0: seq<CommitRecord>, commits: seq<CommitRecord>,
                       workspaces0: seq<WorkspaceRecord>, tablesExist: bool, workspaces: seq<WorkspaceRecord>,
                       sessions0: seq<CopilotSessionRecord>, sessions: seq<CopilotSessionRecord>,
                       messages0: seq<CopilotMessageRecord>, messages: seq<CopilotMessageRecord>,
                       workspace: string, options: Ingest.IngestOptions,
                       repo: Result<GitWalk.GitRepo, GitWalk.GitError>,
                       discovered: Result<seq<Ingest.DiscoveredSession>, string>, now: int,
                       git: Result<Ingest.IngestStats, Ingest.IngestError>, gitTrace: Ingest.GitTrace)
    requires Ingest.GitPassEffect(workspace, options, repo, now, commits0, commits, workspaces0, tablesExist, workspaces,
                                  git, gitTrace)
    requires sessions == sessions0 && messages == messages0
    ensures PassEffects(commits0, commits, workspaces0, tablesExist, workspaces, sessions0, sessions, messages0, messages, workspace, options,
                        repo, discovered, now,
                        Some(git), None, gitTrace, Ingest.CopilotTrace("", "", [], []))
  {
  }

  /** A Copilot pass alone: the git side of the effect is empty. */
  lemma CopilotOnlyEffects(commits: seq<CommitRecord>,
                           workspaces0: seq<WorkspaceRecord>, tablesExist: bool, workspaces: seq<WorkspaceRecord>,
                           sessions0: seq<CopilotSessionRecord>, sessions: seq<CopilotSessionRecord>,
                           messages0: seq<CopilotMessageRecord>, messages: seq<CopilotMessageRecord>,
                           workspace: string, options: Ingest.IngestOptions,
                           repo: Result<GitWalk.GitRepo, GitWalk.GitError>,
                           discovered: Result<seq<Ingest.DiscoveredSession>, string>, now: int,
                           copilot: Result<Ingest.IngestStats, Ingest.IngestError>,
                           copilotTrace: Ingest.CopilotTrace)
    requires Ingest.CopilotPassEffect(workspace, discovered, workspaces0, tablesExist, workspaces, sessions0, sessions,
                                      messages0, messages, copilot, copilotTrace, now)
    ensures PassEffects(commits, commits, workspaces0, tablesExist, workspaces, sessions0, sessions, messages0, messages, workspace, options,
                        repo, discovered, now,
                        None, Some(copilot), Ingest.GitTrace("", "", [], []), copilotTrace)
  {
  }

  /** The answer of a dispatch that runs one pass: its failure, or its
      statistics merged into the empty total, which are its statistics. */
  function SinglePass(run: Result<Ingest.IngestStats, Ingest.IngestError>): (t: Result<Ingest.IngestStats, HandlerError>)
    ensures t.Ok? <==> run.Ok?
    ensures t.Err? ==> t == Err(IngestFailed(run.error))
    ensures t.Ok? ==> t.value == run.value
  {
    if run.Err? then Err(IngestFailed(run.error))
    else
      Ingest.MergeIsCommutativeMonoid(run.value, Ingest.ZeroStats(), Ingest.ZeroStats());
      Ok(Ingest.ZeroStats().Merge(run.value))
  }

  /** `if let Ok(stats) = run { total.merge(&stats) }`. */
  function MergeIfOk(total: Ingest.IngestStats, run: Result<Ingest.IngestStats, Ingest.IngestError>)
    : (r: Ingest.IngestStats)
    ensures r == total.Merge(Gained(Some(run)))
  {
    if run.Ok? then total.Merge(run.value)
    else
      Ingest.MergeIsCommutativeMonoid(total, total, total);
      total
  }

  /** The total of the default arm: the empty total, merged with each pass
      that succeeded, git first. */
  function BothTotal(git: Result<Ingest.IngestStats, Ingest.IngestError>,
                     copilot: Result<Ingest.IngestStats, Ingest.IngestError>)
    : (total: Result<Ingest.IngestStats, HandlerError>)
    ensures total == Ok(Gained(Some(git)).Merge(Gained(Some(copilot))))
  {
    Ingest.MergeIsCommutativeMonoid(Gained(Some(git)), Gained(Some(git)), Gained(Some(git)));
    Ok(MergeIfOk(MergeIfOk(Ingest.ZeroStats(), git), copilot))
  }

  /** The passes of the default arm of the dispatch: the git pass, then
      the Copilot pass, whatever the first one gave. */
  method RunBoth(ingestor: Ingest.Ingestor, workspace: string, options: Ingest.IngestOptions,
                 repo: Result<GitWalk.GitRepo, GitWalk.GitError>,
                 discovered: Result<seq<Ingest.DiscoveredSession>, string>, now: int)
    returns (git: Result<Ingest.IngestStats, Ingest.IngestError>, copilot: Result<Ingest.IngestStats, Ingest.IngestError>,
             ghost gitTrace: Ingest.GitTrace, ghost copilotTrace: Ingest.CopilotTrace)
    requires ingestor.Valid()
    modifies ingestor`events, ingestor.db`workspaces, ingestor.db`commits, ingestor.db`sessions, ingestor.db`messages,
             ingestor.uuids
    ensures ingestor.Valid()
    ensures PassEffects(old(ingestor.db.commits), ingestor.db.commits, old(ingestor.db.workspaces),
                        ingestor.db.tablesExist, ingestor.db.workspaces,
                        old(ingestor.db.sessions), ingestor.db.sessions, old(ingestor.db.messages), ingestor.db.messages,
                        workspace, options, repo, discovered, now, Some(git), Some(copilot),
                        gitTrace, copilotTrace)
  {
    git, gitTrace := RunGit(ingestor, workspace, options, repo, now);
    ghost var workspaces1 := ingestor.db.workspaces;
    copilot, copilotTrace := RunCopilot(ingestor, workspace, discovered, now);
    BothPassEffects(old(ingestor.db.commits), ingestor.db.commits, old(ingestor.db.workspaces), ingestor.db.tablesExist,
                    workspaces1, ingestor.db.workspaces,
                    old(ingestor.db.sessions), ingestor.db.sessions, old(ingestor.db.messages), ingestor.db.messages,
                    workspace, options, repo, discovered, now, git, copilot, gitTrace, copilotTrace);
  }

  /** The effects of the two passes of the default arm compose: the Copilot
      pass starts from the workspaces the git pass left. */
  lemma BothPassEffects(commits0: seq<CommitRecord>, commits: seq<CommitRecord>,
                        workspaces0: seq<WorkspaceRecord>, tablesExist: bool,
                        workspaces1: seq<WorkspaceRecord>, workspaces: seq<WorkspaceRecord>,
                        sessions0: seq<CopilotSessionRecord>, sessions: seq<CopilotSessionRecord>,
                        messages0: seq<CopilotMessageRecord>, messages: seq<CopilotMessageRecord>,
                        workspace: string, options: Ingest.IngestOptions,
                        repo: Result<GitWalk.GitRepo, GitWalk.GitError>,
                        discovered: Result<seq<Ingest.DiscoveredSession>, string>, now: int,
                        git: Result<Ingest.IngestStats, Ingest.IngestError>,
                        copilot: Result<Ingest.IngestStats, Ingest.IngestError>,
                        gitTrace: Ingest.GitTrace, copilotTrace: Ingest.CopilotTrace)
    requires Ingest.GitPassEffect(workspace, options, repo, now, commits0, commits, workspaces0, tablesExist, workspaces1,
                                  git, gitTrace)
    requires Ingest.CopilotPassEffect(workspace, discovered, workspaces1, tablesExist, workspaces, sessions0, sessions,
                                      messages0, messages, copilot, copilotTrace, now)
    ensures PassEffects(commits0, commits, workspaces0, tablesExist, workspaces, sessions0, sessions, messages0, messages, workspace, options,
                        repo, discovered, now,
                        Some(git), Some(copilot), gitTrace, copilotTrace)
  {
  }

  /** One git pass of `handle_ingest`. */
  method RunGit(ingestor: Ingest.Ingestor, workspace: string, options: Ingest.IngestOptions,
                repo: Result<GitWalk.GitRepo, GitWalk.GitError>, now: int)
    returns (r: Result<Ingest.IngestStats, Ingest.IngestError>, ghost trace: Ingest.GitTrace)
    requires ingestor.Valid()
    modifies ingestor`events, ingestor.db`workspaces, ingestor.db`commits, ingestor.uuids
    ensures ingestor.Valid()
    ensures Ingest.GitPassEffect(workspace, options, repo, now, old(ingestor.db.commits), ingestor.db.commits,
                                 old(ingestor.db.workspaces), ingestor.db.tablesExist, ingestor.db.workspaces, r, trace)
    ensures ingestor.db.messages == old(ingestor.db.messages)
  {
    ghost var workspaceId, drawn, walked, ids;
    r, workspaceId, drawn, walked, ids := ingestor.IngestGit(workspace, options, repo, now);
    trace := Ingest.GitTrace(workspaceId, drawn, walked, ids);
  }

  /** One Copilot pass of `handle_ingest`. */
  method RunCopilot(ingestor: Ingest.Ingestor, workspace: string,
                    discovered: Result<seq<Ingest.DiscoveredSession>, string>, now: int)
    returns (r: Result<Ingest.IngestStats, Ingest.IngestError>, ghost trace: Ingest.CopilotTrace)
    requires ingestor.Valid()
    modifies ingestor`events, ingestor.db`workspaces, ingestor.db`sessions, ingestor.db`messages, ingestor.uuids
    ensures ingestor.Valid()
    ensures Ingest.CopilotPassEffect(workspace, discovered, old(ingestor.db.workspaces), ingestor.db.tablesExist,
                                     ingestor.db.workspaces, old(ingestor.db.sessions), ingestor.db.sessions,
                                     old(ingestor.db.messages), ingestor.db.messages, r, trace, now)
  {
    r, trace := ingestor.IngestCopilot(workspace, discovered, now);
  }

  /** The reported total of an ingestion is the sum of the items of the
      passes that succeeded. */
  lemma ReportedTotalIsSumOfPasses(git: Option<Result<Ingest.IngestStats, Ingest.IngestError>>,
                                   copilot: Option<Result<Ingest.IngestStats, Ingest.IngestError>>)
    ensures StatsResponse(Gained(git).Merge(Gained(copilot))).totalItems ==
            Gained(git).TotalItems() + Gained(copilot).TotalItems()
    ensures git.Some? && git.value.Err? && (copilot.None? || copilot.value.Err?) ==>
            StatsResponse(Gained(git).Merge(Gained(copilot))).totalItems == 0
  {
    Ingest.MergeAddsTotals(Gained(git), Gained(copilot));
  }
}
