/** Walking a repository's history (hindsight-git, parser.rs).

    git2 is not modelled: a repository is given by the revwalk it would
    produce (from HEAD or from a named reference), each entry either
    unreadable (the oid or the commit lookup failed) or a commit together
    with the outcome of extracting its metadata and its diff. */
module GitWalk {
  import opened Wrappers
  import opened GitCommit

  datatype GitError = RepositoryNotFound(path: string) | Git(message: string)
  {
    /** The `Display` text of the error. */
    function Text(): string {
      match this
      case RepositoryNotFound(path) => "Repository not found: " + path
      case Git(message) => "Git error: " + message
    }
  }

  /** Walk configuration; `since`/`until` are seconds since the epoch. */
  datatype WalkOptions = WalkOptions(
    limit: Option<nat>,
    fromRef: Option<string>,
    since: Option<int>,
    until: Option<int>,
    includeDiff: bool)
  {
    /** Turn on diff extraction and nothing else. */
    function WithDiff(): (r: WalkOptions)
      ensures r.includeDiff
      ensures r.limit == limit && r.fromRef == fromRef && r.since == since && r.until == until
    {
      this.(includeDiff := true)
    }

    /** Start from `reference` instead of HEAD; nothing else changes. */
    function From(reference: string): (r: WalkOptions)
      ensures r.fromRef == Some(reference)
      ensures r.limit == limit && r.since == since && r.until == until && r.includeDiff == includeDiff
    {
      this.(fromRef := Some(reference))
    }

    /** Lower time bound; nothing else changes. */
    function Since(date: int): (r: WalkOptions)
      ensures r.since == Some(date)
      ensures r.limit == limit && r.fromRef == fromRef && r.until == until && r.includeDiff == includeDiff
    {
      this.(since := Some(date))
    }

    /** Upper time bound; nothing else changes. */
    function Until(date: int): (r: WalkOptions)
      ensures r.until == Some(date)
      ensures r.limit == limit && r.fromRef == fromRef && r.since == since && r.includeDiff == includeDiff
    {
      this.(until := Some(date))
    }

    /** The commit time passes the date filters that are set. */
    predicate InWindow(timestamp: int) {
      (since.None? || since.value <= timestamp) && (until.None? || timestamp <= until.value)
    }
  }

  /** `WalkOptions::default()`: no limit, HEAD, no filters, no diffs. */
  function DefaultWalkOptions(): WalkOptions {
    WalkOptions(None, None, None, None, false)
  }

  /** `WalkOptions::latest(n)`: the default with only the limit set. */
  function Latest(n: nat): (r: WalkOptions)
    ensures r.limit == Some(n)
    ensures r.fromRef.None? && r.since.None? && r.until.None? && !r.includeDiff
  {
    DefaultWalkOptions().(limit := Some(n))
  }

  datatype FileDiff = FileDiff(path: string, status: string, insertions: nat, deletions: nat)

  datatype DiffSummary = DiffSummary(filesChanged: nat, insertions: nat, deletions: nat, files: seq<FileDiff>)

  /** `DiffSummary::empty`. */
  function EmptyDiff(): DiffSummary {
    DiffSummary(0, 0, 0, [])
  }

  datatype CommitWithDiff = CommitWithDiff(commit: Commit, diff: Option<DiffSummary>)

  /** One step of the revwalk. `extractError` is the failure of reading the
      commit's metadata, `diff` the outcome of computing its diff. */
  datatype RevEntry =
    | Unreadable(error: GitError)
    | Entry(commit: Commit, extractError: Option<GitError>, diff: Result<DiffSummary, GitError>)

  /** A repository as seen through its revwalks: from HEAD (which fails on
      an unborn HEAD) and from each reference that resolves. */
  datatype GitRepo = GitRepo(head: Result<seq<RevEntry>, GitError>, refs: map<string, seq<RevEntry>>)

  /** Prepend `acc` to a successful result; errors pass through. */
  function Prefixed(acc: seq<CommitWithDiff>, r: Result<seq<CommitWithDiff>, GitError>): Result<seq<CommitWithDiff>, GitError> {
    match r
    case Ok(rest) => Ok(acc + rest)
    case Err(e) => Err(e)
  }

  lemma PrefixedAppend(a: seq<CommitWithDiff>, b: seq<CommitWithDiff>, r: Result<seq<CommitWithDiff>, GitError>)
    ensures Prefixed(a, Prefixed(b, r)) == Prefixed(a + b, r)
  {
    if r.Ok? {
      assert a + (b + r.value) == (a + b) + r.value;
    }
  }

  /** Reference definition of the walk: with `budget` commits still wanted,
      skip entries outside the window, fail on the first entry that cannot
      be read, and stop when the budget is used up. */
  function WalkFrom(es: seq<RevEntry>, opts: WalkOptions, budget: Option<nat>): Result<seq<CommitWithDiff>, GitError>
    decreases |es|
  {
    if es == [] || budget == Some(0) then Ok([])
    else
      match es[0]
      case Unreadable(e) => Err(e)
      case Entry(c, extractError, diff) =>
        if !opts.InWindow(c.timestamp) then WalkFrom(es[1..], opts, budget)
        else if extractError.Some? then Err(extractError.value)
        else if opts.includeDiff && diff.Err? then Err(diff.error)
        else
          var cwd := CommitWithDiff(c, if opts.includeDiff then Some(diff.value) else None);
          Prefixed([cwd], WalkFrom(es[1..], opts, if budget.Some? then Some(budget.value - 1) else None))
  }

  /** `walk_commits`: choose the revwalk, then push each commit that passes
      the date filters until `limit` commits are collected. */
  method WalkCommits(repo: GitRepo, opts: WalkOptions) returns (r: Result<seq<CommitWithDiff>, GitError>)
    ensures opts.fromRef.Some? && opts.fromRef.value !in repo.refs ==> r.Err?
    ensures opts.fromRef.None? && repo.head.Err? ==> r == Err(repo.head.error)
    ensures opts.fromRef.Some? && opts.fromRef.value in repo.refs ==>
      r == WalkFrom(repo.refs[opts.fromRef.value], opts, opts.limit)
    ensures opts.fromRef.None? && repo.head.Ok? ==> r == WalkFrom(repo.head.value, opts, opts.limit)
  {
    var entries: seq<RevEntry>;
    if opts.fromRef.Some? {
      if opts.fromRef.value !in repo.refs {
        return Err(Git("revspec '" + opts.fromRef.value + "' not found"));
      }
      entries := repo.refs[opts.fromRef.value];
    } else {
      if repo.head.Err? {
        return Err(repo.head.error);
      }
      entries := repo.head.value;
    }
    var commits: seq<CommitWithDiff> := [];
    var i := 0;
    assert entries[0..] == entries;
    assert Prefixed([], WalkFrom(entries, opts, opts.limit)) == WalkFrom(entries, opts, opts.limit) by {
      var w := WalkFrom(entries, opts, opts.limit);
      if w.Ok? {
        assert [] + w.value == w.value;
      }
    }
    while i < |entries|
      invariant 0 <= i <= |entries|
      invariant opts.limit.Some? ==> |commits| <= opts.limit.value
      invariant WalkFrom(entries, opts, opts.limit) ==
        Prefixed(commits, WalkFrom(entries[i..], opts,
          if opts.limit.Some? then Some(opts.limit.value - |commits|) else None))
    {
      if opts.limit.Some? && |commits| >= opts.limit.value {
        assert commits + [] == commits;
        break;
      }
      assert entries[i..][1..] == entries[i + 1..];
      match entries[i] {
        case Unreadable(e) =>
          return Err(e);
        case Entry(c, extractError, diff) =>
          if opts.InWindow(c.timestamp) {
            if extractError.Some? {
              return Err(extractError.value);
            }
            var d: Option<DiffSummary> := None;
            if opts.includeDiff {
              if diff.Err? {
                return Err(diff.error);
              }
              d := Some(diff.value);
            }
            PrefixedAppend(commits, [CommitWithDiff(c, d)],
              WalkFrom(entries[i + 1..], opts,
                if opts.limit.Some? then Some(opts.limit.value - |commits| - 1) else None));
            commits := commits + [CommitWithDiff(c, d)];
          }
      }
      i := i + 1;
    }
    assert commits + [] == commits;
    return Ok(commits);
  }

  /** `Among(rs, es)`: the commits of `rs` appear in `es`, in the same order. */
  predicate Among(rs: seq<CommitWithDiff>, es: seq<RevEntry>)
    decreases |es|
  {
    rs == [] ||
    (es != [] &&
     ((es[0].Entry? && rs[0].commit == es[0].commit && Among(rs[1..], es[1..])) || Among(rs, es[1..])))
  }

  /** What every successful walk returns: no more than the budget, only
      commits inside the window, diffs exactly when requested, and a
      subsequence of the revwalk in its order. */
  lemma {:induction false} WalkProperties(es: seq<RevEntry>, opts: WalkOptions, budget: Option<nat>)
    requires WalkFrom(es, opts, budget).Ok?
    ensures var rs := WalkFrom(es, opts, budget).value;
      (budget.Some? ==> |rs| <= budget.value) &&
      (forall k :: 0 <= k < |rs| ==> opts.InWindow(rs[k].commit.timestamp)) &&
      (forall k :: 0 <= k < |rs| ==> (rs[k].diff.Some? <==> opts.includeDiff)) &&
      Among(rs, es)
    decreases |es|
  {
    if es == [] || budget == Some(0) {
    } else {
      match es[0]
      case Unreadable(e) =>
      case Entry(c, extractError, diff) =>
        if !opts.InWindow(c.timestamp) {
          WalkProperties(es[1..], opts, budget);
        } else {
          var b := if budget.Some? then Some(budget.value - 1) else None;
          WalkProperties(es[1..], opts, b);
          var rs := WalkFrom(es, opts, budget).value;
          assert rs[1..] == WalkFrom(es[1..], opts, b).value;
        }
    }
  }

  /** A limit of zero yields no commits at all. */
  lemma ZeroLimitWalksNothing(es: seq<RevEntry>, opts: WalkOptions)
    ensures WalkFrom(es, opts, Some(0)) == Ok([])
  {
  }
}
