/** The read-only queries of `queries.rs` over the store.

    Each SQL statement becomes a function of the tables: `WHERE` is a
    filter, `ORDER BY … LIMIT ?` is stated with `IsTopK` (SQLite promises
    the order and the row count, not the order among ties), and `COUNT(*)`
    is a count. The rows of the `timeline` and `failing_tests` views, whose
    definitions live in the schema script, are given as parameters; the
    full-text indexes are given as an abstract `FullTextIndex` (whether a
    row matches, its rank and its snippet). */
module Queries {
  import opened Wrappers
  import opened Ordering
  import opened Db
  import Ingest
  import TestResults

  datatype QueryError =
    | Sqlite(cause: SqliteError)
    | InvalidParameter(message: string)

  /** The error a statement on a table the schema has not created fails with. */
  function NoTable(table: string): QueryError {
    QueryError.Sqlite(NoSuchTable(table))
  }

  // ------------------------------------------------------------ LIMIT

  const I64Max: nat := 0x7FFF_FFFF_FFFF_FFFF

  /** The row cap of `LIMIT ?` bound to `limit as i64`: a `usize` above
      `i64::MAX` turns negative, and SQLite reads a negative limit as no
      limit at all. */
  function RowCap(limit: nat, rows: nat): (cap: nat)
    ensures cap <= limit || cap == rows
    ensures limit <= I64Max ==> cap == limit
  {
    if limit <= I64Max then limit else rows
  }

  /** Run an `ORDER BY … LIMIT ?` statement. The engine's ordered answer
      is taken to be `Take(Sort(…))`, a legal top-k by `TakeSortIsTopK`;
      the loop copies it row by row into the result vector. */
  method Collect<T(!new)>(all: seq<T>, le: (T, T) -> bool, limit: nat) returns (rows: seq<T>)
    requires TotalPreorder(le)
    ensures IsTopK(rows, all, RowCap(limit, |all|), le)
  {
    var answer := Take(Sort(all, le), RowCap(limit, |all|));
    TakeSortIsTopK(all, RowCap(limit, |all|), le);
    rows := [];
    var i := 0;
    while i < |answer|
      invariant 0 <= i <= |answer| && rows == answer[..i]
    {
      rows := rows + [answer[i]];
      i := i + 1;
    }
    assert answer[..i] == answer;
  }

  /** A legal answer never holds more rows than the cap. */
  lemma TopKIsCapped<T(!new)>(r: seq<T>, all: seq<T>, limit: nat, le: (T, T) -> bool)
    requires IsTopK(r, all, RowCap(limit, |all|), le)
    ensures |r| <= |all|
    ensures limit <= I64Max ==> |r| <= limit
  {
  }

  /** Every row of a legal answer is one of the candidate rows. */
  lemma TopKRowsAreCandidates<T(!new)>(r: seq<T>, all: seq<T>, k: nat, le: (T, T) -> bool)
    requires IsTopK(r, all, k, le)
    ensures forall i :: 0 <= i < |r| ==> r[i] in all
  {
    forall i | 0 <= i < |r|
      ensures r[i] in all
    {
      assert r[i] in multiset(r);
      assert r[i] in multiset(all);
    }
  }

  // ------------------------------------------------------------ workspace filter

  /** `resolve_workspace_filter`: a stored path gives its workspace id; a
      stored id is returned unchanged; anything else selects nothing. */
  function ResolveWorkspaceFilter(db: Database, filter: string): (r: Result<Option<string>, QueryError>)
    reads db
    ensures r.Err? <==> !db.tablesExist
    ensures r.Ok? && FindWorkspaceByPath(db.workspaces, filter).Some? ==>
      r.value == Some(db.workspaces[FindWorkspaceByPath(db.workspaces, filter).value].id)
    ensures r.Ok? && FindWorkspaceByPath(db.workspaces, filter).None? ==>
      (r.value.Some? <==> HasWorkspaceId(db.workspaces, filter)) && (r.value.Some? ==> r.value.value == filter)
  {
    if !db.tablesExist then Err(NoTable("workspaces"))
    else match FindWorkspaceByPath(db.workspaces, filter)
      case Some(k) => Ok(Some(db.workspaces[k].id))
      case None => if HasWorkspaceId(db.workspaces, filter) then Ok(Some(filter)) else Ok(None)
  }

  /** Whatever the filter resolves to is the id of a stored workspace. */
  lemma ResolvedFilterIsStored(db: Database, filter: string)
    requires ResolveWorkspaceFilter(db, filter).Ok? && ResolveWorkspaceFilter(db, filter).value.Some?
    ensures HasWorkspaceId(db.workspaces, ResolveWorkspaceFilter(db, filter).value.value)
  {
    var w := ResolveWorkspaceFilter(db, filter).value.value;
    match FindWorkspaceByPath(db.workspaces, filter)
    case Some(k) =>
      assert db.workspaces[k].id == w;
    case None =>
  }

  /** Resolving the resolved id again gives the same id, as long as no
      stored path looks like a stored id. */
  lemma ResolveIsIdempotent(db: Database, filter: string)
    requires ResolveWorkspaceFilter(db, filter).Ok? && ResolveWorkspaceFilter(db, filter).value.Some?
    requires forall i, j :: 0 <= i < |db.workspaces| && 0 <= j < |db.workspaces| ==>
               db.workspaces[i].path != db.workspaces[j].id
    ensures ResolveWorkspaceFilter(db, ResolveWorkspaceFilter(db, filter).value.value) ==
            ResolveWorkspaceFilter(db, filter)
  {
    var w := ResolveWorkspaceFilter(db, filter).value.value;
    ResolvedFilterIsStored(db, filter);
    var j :| 0 <= j < |db.workspaces| && db.workspaces[j].id == w;
    assert FindWorkspaceByPath(db.workspaces, w).None?;
  }

  /** The optional filter of `get_timeline` and `get_failing_tests`: no
      filter selects no workspace and reads nothing. */
  function ResolveOptionalFilter(db: Database, filter: Option<string>): (r: Result<Option<string>, QueryError>)
    reads db
    ensures filter.None? ==> r == Ok(None)
    ensures filter.Some? ==> r == ResolveWorkspaceFilter(db, filter.value)
  {
    match filter
    case None => Ok(None)
    case Some(f) => ResolveWorkspaceFilter(db, f)
  }

  // ------------------------------------------------------------ timeline

  datatype TimelineEvent = TimelineEvent(
    eventType: string,
    eventId: string,
    workspaceId: string,
    eventTimestamp: int,
    summary: string,
    detailsJson: Option<string>)

  /** `ORDER BY event_timestamp DESC`. */
  predicate NewerEvent(a: TimelineEvent, b: TimelineEvent) {
    a.eventTimestamp >= b.eventTimestamp
  }

  lemma NewerEventIsTotal()
    ensures TotalPreorder(NewerEvent)
  {
  }

  /** `WHERE workspace_id = ?` on the timeline view. */
  function EventsOf(view: seq<TimelineEvent>, w: string): (r: seq<TimelineEvent>)
    ensures forall k :: 0 <= k < |r| ==> r[k].workspaceId == w
    ensures forall k :: 0 <= k < |view| && view[k].workspaceId == w ==> view[k] in r
    ensures multiset(r) <= multiset(view)
  {
    if view == [] then []
    else
      var init := view[..|view| - 1];
      var last := view[|view| - 1];
      assert view == init + [last];
      EventsOf(init, w) + (if last.workspaceId == w then [last] else [])
  }

  /** The timeline rows a resolved filter selects: all of them when it
      resolved to nothing. */
  function TimelineScope(view: seq<TimelineEvent>, w: Option<string>): seq<TimelineEvent> {
    if w.Some? then EventsOf(view, w.value) else view
  }

  /** `get_timeline`: the newest `limit` events, of the resolved workspace
      when the filter resolves, of every workspace otherwise. */
  method GetTimeline(db: Database, view: seq<TimelineEvent>, limit: nat, filter: Option<string>)
    returns (r: Result<seq<TimelineEvent>, QueryError>)
    ensures r.Err? <==> !db.tablesExist
    ensures r.Ok? ==>
      ResolveOptionalFilter(db, filter).Ok? &&
      var scope := TimelineScope(view, ResolveOptionalFilter(db, filter).value);
      IsTopK(r.value, scope, RowCap(limit, |scope|), NewerEvent)
    ensures r.Ok? && limit <= I64Max ==> |r.value| <= limit
    ensures r.Ok? && ResolveOptionalFilter(db, filter).value.Some? ==>
      forall k :: 0 <= k < |r.value| ==> r.value[k].workspaceId == ResolveOptionalFilter(db, filter).value.value
  {
    var resolved := ResolveOptionalFilter(db, filter);
    if resolved.Err? {
      return Err(resolved.error);
    }
    if !db.tablesExist {
      return Err(NoTable("timeline"));
    }
    NewerEventIsTotal();
    var scope := TimelineScope(view, resolved.value);
    var rows := Collect(scope, NewerEvent, limit);
    TopKIsCapped(rows, scope, limit, NewerEvent);
    TopKRowsAreCandidates(rows, scope, RowCap(limit, |scope|), NewerEvent);
    return Ok(rows);
  }

  // ------------------------------------------------------------ full-text search

  datatype SearchResult = SearchResult(resultType: string, id: string, snippet: string, rank: int, timestamp: int)

  /** A table's FTS5 index as the queries see it: whether a row matches the
      query, its rank (lower is better) and its snippet. */
  datatype FullTextIndex<!T> = FullTextIndex(matches: (string, T) -> bool, rank: (string, T) -> int,
                                            snippet: (string, T) -> string)

  /** `ORDER BY rank`, and the order `search_all` sorts by. */
  predicate BetterRank(a: SearchResult, b: SearchResult) {
    a.rank <= b.rank
  }

  lemma BetterRankIsTotal()
    ensures TotalPreorder(BetterRank)
  {
  }

  function CommitHit(index: FullTextIndex<CommitRecord>, query: string, c: CommitRecord): (h: SearchResult)
    ensures h.resultType == "commit" && h.id == c.id && h.timestamp == c.timestamp
    ensures h.rank == index.rank(query, c)
  {
    SearchResult("commit", c.id, index.snippet(query, c), index.rank(query, c), c.timestamp)
  }

  function MessageHit(index: FullTextIndex<CopilotMessageRecord>, query: string, m: CopilotMessageRecord): (h: SearchResult)
    ensures h.resultType == "copilot_message" && h.id == m.id && h.timestamp == m.timestamp
    ensures h.rank == index.rank(query, m)
  {
    SearchResult("copilot_message", m.id, index.snippet(query, m), index.rank(query, m), m.timestamp)
  }

  /** `commits_fts MATCH ?` joined back to `commits`: one hit per matching
      commit. */
  function CommitHits(commits: seq<CommitRecord>, index: FullTextIndex<CommitRecord>, query: string)
    : (r: seq<SearchResult>)
    ensures |r| <= |commits|
    ensures forall k :: 0 <= k < |r| ==> r[k].resultType == "commit"
    ensures forall k :: 0 <= k < |commits| && index.matches(query, commits[k]) ==>
              CommitHit(index, query, commits[k]) in r
  {
    if commits == [] then []
    else
      var init := commits[..|commits| - 1];
      var last := commits[|commits| - 1];
      assert forall k :: 0 <= k < |init| ==> commits[k] == init[k];
      CommitHits(init, index, query) + (if index.matches(query, last) then [CommitHit(index, query, last)] else [])
  }

  /** `copilot_messages_fts MATCH ?` joined back to `copilot_messages`. */
  function MessageHits(messages: seq<CopilotMessageRecord>, index: FullTextIndex<CopilotMessageRecord>, query: string)
    : (r: seq<SearchResult>)
    ensures |r| <= |messages|
    ensures forall k :: 0 <= k < |r| ==> r[k].resultType == "copilot_message"
    ensures forall k :: 0 <= k < |messages| && index.matches(query, messages[k]) ==>
              MessageHit(index, query, messages[k]) in r
  {
    if messages == [] then []
    else
      var init := messages[..|messages| - 1];
      var last := messages[|messages| - 1];
      assert forall k :: 0 <= k < |init| ==> messages[k] == init[k];
      MessageHits(init, index, query) + (if index.matches(query, last) then [MessageHit(index, query, last)] else [])
  }

  /** Every commit hit comes from a stored commit that matches. */
  lemma {:induction false} CommitHitsMatch(commits: seq<CommitRecord>, index: FullTextIndex<CommitRecord>,
                                           query: string, h: SearchResult)
    requires h in CommitHits(commits, index, query)
    ensures exists k :: 0 <= k < |commits| && index.matches(query, commits[k]) && h == CommitHit(index, query, commits[k])
  {
    var init := commits[..|commits| - 1];
    var last := commits[|commits| - 1];
    if h in CommitHits(init, index, query) {
      CommitHitsMatch(init, index, query, h);
      var k :| 0 <= k < |init| && index.matches(query, init[k]) && h == CommitHit(index, query, init[k]);
      assert commits[k] == init[k];
    } else {
      assert index.matches(query, last) && h == CommitHit(index, query, last);
    }
  }

  /** Every message hit comes from a stored message that matches. */
  lemma {:induction false} MessageHitsMatch(messages: seq<CopilotMessageRecord>, index: FullTextIndex<CopilotMessageRecord>,
                                            query: string, h: SearchResult)
    requires h in MessageHits(messages, index, query)
    ensures exists k :: 0 <= k < |messages| && index.matches(query, messages[k]) && h == MessageHit(index, query, messages[k])
  {
    var init := messages[..|messages| - 1];
    var last := messages[|messages| - 1];
    if h in MessageHits(init, index, query) {
      MessageHitsMatch(init, index, query, h);
      var k :| 0 <= k < |init| && index.matches(query, init[k]) && h == MessageHit(index, query, init[k]);
      assert messages[k] == init[k];
    } else {
      assert index.matches(query, last) && h == MessageHit(index, query, last);
    }
  }

  const EmptyQuery := "Query cannot be empty"

  /** `search_commits`: an empty query is refused before the store is
      touched; otherwise the best-ranked `limit` matching commits. */
  method SearchCommits(db: Database, index: FullTextIndex<CommitRecord>, query: string, limit: nat)
    returns (r: Result<seq<SearchResult>, QueryError>)
    ensures query == [] ==> r == Err(InvalidParameter(EmptyQuery))
    ensures query != [] ==> (r.Err? <==> !db.tablesExist)
    ensures r.Ok? ==>
      var hits := CommitHits(db.commits, index, query);
      IsTopK(r.value, hits, RowCap(limit, |hits|), BetterRank)
  {
    if query == [] {
      return Err(InvalidParameter(EmptyQuery));
    }
    if !db.tablesExist {
      return Err(NoTable("commits_fts"));
    }
    BetterRankIsTotal();
    var rows := Collect(CommitHits(db.commits, index, query), BetterRank, limit);
    return Ok(rows);
  }

  /** `search_messages`: as `search_commits`, over the Copilot messages. */
  method SearchMessages(db: Database, index: FullTextIndex<CopilotMessageRecord>, query: string, limit: nat)
    returns (r: Result<seq<SearchResult>, QueryError>)
    ensures query == [] ==> r == Err(InvalidParameter(EmptyQuery))
    ensures query != [] ==> (r.Err? <==> !db.tablesExist)
    ensures r.Ok? ==>
      var hits := MessageHits(db.messages, index, query);
      IsTopK(r.value, hits, RowCap(limit, |hits|), BetterRank)
  {
    if query == [] {
      return Err(InvalidParameter(EmptyQuery));
    }
    if !db.tablesExist {
      return Err(NoTable("copilot_messages_fts"));
    }
    BetterRankIsTotal();
    var rows := Collect(MessageHits(db.messages, index, query), BetterRank, limit);
    return Ok(rows);
  }

  /** `search_all`: the commit results, then the message results (each
      capped at `limit`), stably sorted by rank and truncated to `limit`. */
  method SearchAll(db: Database, commitIndex: FullTextIndex<CommitRecord>,
                   messageIndex: FullTextIndex<CopilotMessageRecord>, query: string, limit: nat)
    returns (r: Result<seq<SearchResult>, QueryError>, ghost fromCommits: seq<SearchResult>,
             ghost fromMessages: seq<SearchResult>)
    ensures query == [] ==> r == Err(InvalidParameter(EmptyQuery))
    ensures query != [] ==> (r.Err? <==> !db.tablesExist)
    ensures r.Ok? ==>
      var commitHits := CommitHits(db.commits, commitIndex, query);
      var messageHits := MessageHits(db.messages, messageIndex, query);
      IsTopK(fromCommits, commitHits, RowCap(limit, |commitHits|), BetterRank) &&
      IsTopK(fromMessages, messageHits, RowCap(limit, |messageHits|), BetterRank)
    ensures r.Ok? ==> IsTopK(r.value, fromCommits + fromMessages, limit, BetterRank) && |r.value| <= limit
  {
    fromCommits, fromMessages := [], [];
    var results: seq<SearchResult> := [];
    var commits := SearchCommits(db, commitIndex, query, limit);
    if commits.Err? {
      return Err(commits.error), fromCommits, fromMessages;
    }
    fromCommits := commits.value;
    results := results + commits.value;
    var messages := SearchMessages(db, messageIndex, query, limit);
    match messages {
      case Err(e) => return Err(e), fromCommits, fromMessages;
      case Ok(rows) =>
        fromMessages := rows;
        results := results + rows;
    }
    assert results == fromCommits + fromMessages;
    BetterRankIsTotal();
    TakeSortIsTopK(results, limit, BetterRank);
    results := Sort(results, BetterRank);
    results := Take(results, limit);
    return Ok(results), fromCommits, fromMessages;
  }

  // ------------------------------------------------------------ failing tests

  datatype FailingTest = FailingTest(
    testName: string,
    suiteName: string,
    fullName: string,
    durationMs: Option<int>,
    outputJson: Option<TestOutput>,
    runId: string,
    commitSha: Option<string>,
    startedAt: int)

  /** `ORDER BY started_at DESC`. */
  predicate NewerFailure(a: FailingTest, b: FailingTest) {
    a.startedAt >= b.startedAt
  }

  lemma NewerFailureIsTotal()
    ensures TotalPreorder(NewerFailure)
  {
  }

  /** Some stored run with that id belongs to the workspace. */
  predicate RunInWorkspace(runs: seq<TestRunRecord>, runId: string, w: string) {
    exists k :: 0 <= k < |runs| && runs[k].id == runId && runs[k].workspaceId == w
  }

  /** `JOIN test_runs tr ON tr.id = ft.run_id WHERE tr.workspace_id = ?`;
      run ids are unique, so the join keeps each row at most once. */
  function FailuresOf(view: seq<FailingTest>, runs: seq<TestRunRecord>, w: string): (r: seq<FailingTest>)
    ensures forall k :: 0 <= k < |r| ==> RunInWorkspace(runs, r[k].runId, w)
    ensures forall k :: 0 <= k < |view| && RunInWorkspace(runs, view[k].runId, w) ==> view[k] in r
    ensures multiset(r) <= multiset(view)
  {
    if view == [] then []
    else
      var init := view[..|view| - 1];
      var last := view[|view| - 1];
      assert view == init + [last];
      FailuresOf(init, runs, w) + (if RunInWorkspace(runs, last.runId, w) then [last] else [])
  }

  function FailureScope(view: seq<FailingTest>, runs: seq<TestRunRecord>, w: Option<string>): seq<FailingTest> {
    if w.Some? then FailuresOf(view, runs, w.value) else view
  }

  /** `get_failing_tests`: the `limit` most recently started failing
      results, of the resolved workspace's runs when the filter resolves. */
  method GetFailingTests(db: Database, view: seq<FailingTest>, limit: nat, filter: Option<string>)
    returns (r: Result<seq<FailingTest>, QueryError>)
    ensures r.Err? <==> !db.tablesExist
    ensures r.Ok? ==>
      ResolveOptionalFilter(db, filter).Ok? &&
      var scope := FailureScope(view, db.testRuns, ResolveOptionalFilter(db, filter).value);
      IsTopK(r.value, scope, RowCap(limit, |scope|), NewerFailure)
    ensures r.Ok? && limit <= I64Max ==> |r.value| <= limit
    ensures r.Ok? && ResolveOptionalFilter(db, filter).value.Some? ==>
      forall k :: 0 <= k < |r.value| ==>
        RunInWorkspace(db.testRuns, r.value[k].runId, ResolveOptionalFilter(db, filter).value.value)
  {
    var resolved := ResolveOptionalFilter(db, filter);
    if resolved.Err? {
      return Err(resolved.error);
    }
    if !db.tablesExist {
      return Err(NoTable("failing_tests"));
    }
    NewerFailureIsTotal();
    var scope := FailureScope(view, db.testRuns, resolved.value);
    var rows := Collect(scope, NewerFailure, limit);
    TopKIsCapped(rows, scope, limit, NewerFailure);
    TopKRowsAreCandidates(rows, scope, RowCap(limit, |scope|), NewerFailure);
    return Ok(rows);
  }

  // ------------------------------------------------------------ activity summary

  datatype ActivitySummary = ActivitySummary(days: nat, commits: nat, testRuns: nat, copilotSessions: nat,
                                             failingTests: nat)

  const SecondsPerDay: nat := 86400

  /** `datetime('now', '-N days')`, in seconds. */
  function WindowStart(now: int, days: nat): (since: int)
    ensures since <= now
  {
    now - days * SecondsPerDay
  }

  function CommitsSince(t: seq<CommitRecord>, since: int): (n: nat)
    ensures n <= |t|
  {
    if t == [] then 0 else CommitsSince(t[..|t| - 1], since) + (if t[|t| - 1].timestamp >= since then 1 else 0)
  }

  function RunsSince(t: seq<TestRunRecord>, since: int): (n: nat)
    ensures n <= |t|
  {
    if t == [] then 0 else RunsSince(t[..|t| - 1], since) + (if t[|t| - 1].startedAt >= since then 1 else 0)
  }

  function SessionsSince(t: seq<CopilotSessionRecord>, since: int): (n: nat)
    ensures n <= |t|
  {
    if t == [] then 0 else SessionsSince(t[..|t| - 1], since) + (if t[|t| - 1].createdAt >= since then 1 else 0)
  }

  /** `tr.outcome IN ('failed', 'timedout')`. */
  predicate CountedAsFailing(outcome: string) {
    outcome == "failed" || outcome == "timedout"
  }

  /** The runs a result joins with inside the window. */
  function RunsOfResultSince(runs: seq<TestRunRecord>, runId: string, since: int): (n: nat)
    ensures n <= |runs|
  {
    if runs == [] then 0
    else
      var last := runs[|runs| - 1];
      RunsOfResultSince(runs[..|runs| - 1], runId, since) + (if last.id == runId && last.startedAt >= since then 1 else 0)
  }

  /** `COUNT(*)` of `test_results JOIN test_runs` in the window, counting
      only failing outcomes. */
  function FailuresSince(results: seq<TestResultRecord>, runs: seq<TestRunRecord>, since: int): (n: nat)
  {
    if results == [] then 0
    else
      var last := results[|results| - 1];
      FailuresSince(results[..|results| - 1], runs, since) +
        (if CountedAsFailing(last.outcome) then RunsOfResultSince(runs, last.runId, since) else 0)
  }

  /** `get_activity_summary`: how many commits, runs, sessions and failing
      results fall inside the last `days` days before `now`. */
  function GetActivitySummary(db: Database, days: nat, now: int): (r: Result<ActivitySummary, QueryError>)
    reads db
    ensures r.Err? <==> !db.tablesExist
    ensures r.Ok? ==> r.value.days == days
    ensures r.Ok? ==> r.value.commits <= |db.commits| && r.value.testRuns <= |db.testRuns| &&
                      r.value.copilotSessions <= |db.sessions|
  {
    if !db.tablesExist then Err(NoTable("commits"))
    else
      var since := WindowStart(now, days);
      Ok(ActivitySummary(days, CommitsSince(db.commits, since), RunsSince(db.testRuns, since),
                         SessionsSince(db.sessions, since), FailuresSince(db.testResults, db.testRuns, since)))
  }

  lemma {:induction false} CommitsSinceMonotone(t: seq<CommitRecord>, later: int, earlier: int)
    requires earlier <= later
    ensures CommitsSince(t, later) <= CommitsSince(t, earlier)
  {
    if t != [] {
      CommitsSinceMonotone(t[..|t| - 1], later, earlier);
    }
  }

  lemma {:induction false} RunsSinceMonotone(t: seq<TestRunRecord>, later: int, earlier: int)
    requires earlier <= later
    ensures RunsSince(t, later) <= RunsSince(t, earlier)
  {
    if t != [] {
      RunsSinceMonotone(t[..|t| - 1], later, earlier);
    }
  }

  lemma {:induction false} SessionsSinceMonotone(t: seq<CopilotSessionRecord>, later: int, earlier: int)
    requires earlier <= later
    ensures SessionsSince(t, later) <= SessionsSince(t, earlier)
  {
    if t != [] {
      SessionsSinceMonotone(t[..|t| - 1], later, earlier);
    }
  }

  lemma {:induction false} RunsOfResultSinceMonotone(runs: seq<TestRunRecord>, runId: string, later: int, earlier: int)
    requires earlier <= later
    ensures RunsOfResultSince(runs, runId, later) <= RunsOfResultSince(runs, runId, earlier)
  {
    if runs != [] {
      RunsOfResultSinceMonotone(runs[..|runs| - 1], runId, later, earlier);
    }
  }

  lemma {:induction false} FailuresSinceMonotone(results: seq<TestResultRecord>, runs: seq<TestRunRecord>,
                                                 later: int, earlier: int)
    requires earlier <= later
    ensures FailuresSince(results, runs, later) <= FailuresSince(results, runs, earlier)
  {
    if results != [] {
      FailuresSinceMonotone(results[..|results| - 1], runs, later, earlier);
      RunsOfResultSinceMonotone(runs, results[|results| - 1].runId, later, earlier);
    }
  }

  /** A longer window never counts less of anything. */
  lemma ActivityGrowsWithDays(db: Database, fewer: nat, more: nat, now: int)
    requires db.tablesExist && fewer <= more
    ensures var a := GetActivitySummary(db, fewer, now).value;
            var b := GetActivitySummary(db, more, now).value;
            a.commits <= b.commits && a.testRuns <= b.testRuns && a.copilotSessions <= b.copilotSessions &&
            a.failingTests <= b.failingTests
  {
    var later, earlier := WindowStart(now, fewer), WindowStart(now, more);
    assert earlier <= later;
    CommitsSinceMonotone(db.commits, later, earlier);
    RunsSinceMonotone(db.testRuns, later, earlier);
    SessionsSinceMonotone(db.sessions, later, earlier);
    FailuresSinceMonotone(db.testResults, db.testRuns, later, earlier);
  }

  /** The string ingestion writes for a timed-out test is "timed_out",
      which the failing count does not recognise: such results are never
      counted, whatever their run. */
  lemma TimedOutResultsAreNotCounted(results: seq<TestResultRecord>, x: TestResultRecord, runs: seq<TestRunRecord>,
                                     since: int)
    requires x.outcome == Ingest.OutcomeToString(TestResults.TimedOut)
    ensures FailuresSince(results + [x], runs, since) == FailuresSince(results, runs, since)
  {
    assert (results + [x])[..|results|] == results;
    assert !CountedAsFailing(x.outcome);
  }

  /** A failed result of a run started inside the window is counted once
      when run ids are unique. */
  lemma FailedResultIsCounted(results: seq<TestResultRecord>, x: TestResultRecord, runs: seq<TestRunRecord>,
                              since: int, k: nat)
    requires RunsDistinct(runs) && k < |runs| && runs[k].id == x.runId && runs[k].startedAt >= since
    requires x.outcome == Ingest.OutcomeToString(TestResults.Failed)
    ensures FailuresSince(results + [x], runs, since) == FailuresSince(results, runs, since) + 1
  {
    assert (results + [x])[..|results|] == results;
    OnlyRunWithId(runs, k, since);
  }

  /** With unique run ids, exactly one run joins with the id of run `k`
      when that run started inside the window. */
  lemma {:induction false} OnlyRunWithId(runs: seq<TestRunRecord>, k: nat, since: int)
    requires RunsDistinct(runs) && k < |runs| && runs[k].startedAt >= since
    ensures RunsOfResultSince(runs, runs[k].id, since) == 1
  {
    var init := runs[..|runs| - 1];
    var last := runs[|runs| - 1];
    assert RunsDistinct(init);
    if k == |runs| - 1 {
      NoRunWithId(init, last.id, since);
    } else {
      assert init[k] == runs[k];
      OnlyRunWithId(init, k, since);
      assert last.id != runs[k].id;
    }
  }

  lemma {:induction false} NoRunWithId(runs: seq<TestRunRecord>, id: string, since: int)
    requires !HasRunId(runs, id)
    ensures RunsOfResultSince(runs, id, since) == 0
  {
    if runs != [] {
      var init := runs[..|runs| - 1];
      NoRunWithId(init, id, since);
    }
  }

  // ------------------------------------------------------------ commit with tests

  datatype RunSummary = RunSummary(id: string, timestamp: int, passed: int, failed: int, skipped: int)

  datatype CommitWithTests = CommitWithTests(
    id: string,
    sha: string,
    message: string,
    author: string,
    timestamp: int,
    files: seq<string>,
    testRuns: seq<RunSummary>)

  /** `WHERE sha LIKE ? || '%' LIMIT 1` without an order: the first stored
      commit, in table order, whose sha starts with the prefix. */
  function FirstWithPrefix(commits: seq<CommitRecord>, prefix: string): (r: Option<nat>)
    ensures r.None? <==> forall k :: 0 <= k < |commits| ==> !(prefix <= commits[k].sha)
    ensures r.Some? ==> r.value < |commits| && prefix <= commits[r.value].sha
  {
    if commits == [] then None
    else if prefix <= commits[0].sha then Some(0)
    else
      match FirstWithPrefix(commits[1..], prefix)
      case None =>
        assert forall k :: 1 <= k < |commits| ==> commits[k] == commits[1..][k - 1];
        None
      case Some(k) => Some(k + 1)
  }

  /** The file paths of a stored diff; no diff, no files. */
  function FilesOf(diff: Option<GitWalk.DiffSummary>): (files: seq<string>)
    ensures diff.None? ==> files == []
    ensures diff.Some? ==> |files| == |diff.value.files| &&
                           forall k :: 0 <= k < |files| ==> files[k] == diff.value.files[k].path
  {
    if diff.None? then [] else seq(|diff.value.files|, k requires 0 <= k < |diff.value.files| => diff.value.files[k].path)
  }

  /** `WHERE r.commit_sha = ?` with the full sha. */
  function RunsOfCommit(runs: seq<TestRunRecord>, sha: string): (r: seq<TestRunRecord>)
    ensures forall k :: 0 <= k < |r| ==> r[k].commitSha == Some(sha)
    ensures forall k :: 0 <= k < |runs| && runs[k].commitSha == Some(sha) ==> runs[k] in r
    ensures multiset(r) <= multiset(runs)
  {
    if runs == [] then []
    else
      var init := runs[..|runs| - 1];
      var last := runs[|runs| - 1];
      assert runs == init + [last];
      RunsOfCommit(init, sha) + (if last.commitSha == Some(sha) then [last] else [])
  }

  /** `ORDER BY r.started_at DESC`. */
  predicate NewerRun(a: TestRunRecord, b: TestRunRecord) {
    a.startedAt >= b.startedAt
  }

  lemma NewerRunIsTotal()
    ensures TotalPreorder(NewerRun)
  {
  }

  function SummaryOf(run: TestRunRecord): (s: RunSummary)
    ensures s.id == run.id && s.timestamp == run.startedAt
    ensures s.passed == run.passedCount && s.failed == run.failedCount && s.skipped == run.ignoredCount
  {
    RunSummary(run.id, run.startedAt, run.passedCount, run.failedCount, run.ignoredCount)
  }

  function Summaries(runs: seq<TestRunRecord>): (r: seq<RunSummary>)
    ensures |r| == |runs|
  {
    seq(|runs|, k requires 0 <= k < |runs| => SummaryOf(runs[k]))
  }

  /** The summaries of the runs linked to `sha`, newest first. */
  function LinkedRuns(runs: seq<TestRunRecord>, sha: string): (r: seq<RunSummary>)
    ensures |r| == |RunsOfCommit(runs, sha)|
  {
    NewerRunIsTotal();
    Summaries(Sort(RunsOfCommit(runs, sha), NewerRun))
  }

  /** A commit's run list is newest first. */
  lemma LinkedRunsAreNewestFirst(runs: seq<TestRunRecord>, sha: string)
    ensures var r := LinkedRuns(runs, sha);
            forall i, j :: 0 <= i < j < |r| ==> r[i].timestamp >= r[j].timestamp
  {
    var r := LinkedRuns(runs, sha);
    NewerRunIsTotal();
    var sorted := Sort(RunsOfCommit(runs, sha), NewerRun);
    assert r == Summaries(sorted);
    forall i, j | 0 <= i < j < |r|
      ensures r[i].timestamp >= r[j].timestamp
    {
      assert NewerRun(sorted[i], sorted[j]);
    }
  }

  /** A commit's run list holds a summary of every run linked to its full
      sha. */
  lemma LinkedRunsAreComplete(runs: seq<TestRunRecord>, sha: string, k: nat)
    requires k < |runs| && runs[k].commitSha == Some(sha)
    ensures SummaryOf(runs[k]) in LinkedRuns(runs, sha)
  {
    var r := LinkedRuns(runs, sha);
    var linked := RunsOfCommit(runs, sha);
    NewerRunIsTotal();
    var sorted := Sort(linked, NewerRun);
    assert r == Summaries(sorted);
    assert runs[k] in multiset(sorted);
    var j :| 0 <= j < |sorted| && sorted[j] == runs[k];
    assert r[j] == SummaryOf(runs[k]);
  }

  /** Every entry of a commit's run list summarises a run linked to its
      full sha. */
  lemma LinkedRunsAreLinked(runs: seq<TestRunRecord>, sha: string, i: nat)
    requires i < |LinkedRuns(runs, sha)|
    ensures exists k :: 0 <= k < |runs| && runs[k].commitSha == Some(sha) && LinkedRuns(runs, sha)[i] == SummaryOf(runs[k])
  {
    var r := LinkedRuns(runs, sha);
    var linked := RunsOfCommit(runs, sha);
    NewerRunIsTotal();
    var sorted := Sort(linked, NewerRun);
    assert r == Summaries(sorted);
    assert sorted[i] in multiset(linked);
    var m :| 0 <= m < |linked| && linked[m] == sorted[i];
    assert linked[m] in multiset(runs);
    var k :| 0 <= k < |runs| && runs[k] == linked[m];
    assert r[i] == SummaryOf(runs[k]);
  }

  /** `get_commit_with_tests`: the first commit whose sha starts with the
      prefix, with its changed files and the runs linked to its full sha;
      None when no sha has the prefix. */
  function GetCommitWithTests(db: Database, prefix: string): (r: Result<Option<CommitWithTests>, QueryError>)
    reads db
    ensures r.Err? <==> !db.tablesExist
    ensures r.Ok? ==> (r.value.None? <==> forall k :: 0 <= k < |db.commits| ==> !(prefix <= db.commits[k].sha))
    ensures r.Ok? && r.value.Some? ==>
      var c := db.commits[FirstWithPrefix(db.commits, prefix).value];
      var found := r.value.value;
      prefix <= found.sha && found.id == c.id && found.sha == c.sha && found.message == c.message &&
      found.author == c.author && found.timestamp == c.timestamp && found.files == FilesOf(c.diffJson) &&
      found.testRuns == LinkedRuns(db.testRuns, c.sha)
  {
    if !db.tablesExist then Err(NoTable("commits"))
    else match FirstWithPrefix(db.commits, prefix)
      case None => Ok(None)
      case Some(k) =>
        var c := db.commits[k];
        Ok(Some(CommitWithTests(c.id, c.sha, c.message, c.author, c.timestamp, FilesOf(c.diffJson),
                                LinkedRuns(db.testRuns, c.sha))))
  }
}
