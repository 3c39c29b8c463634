/** The cargo-nextest output model (hindsight-tests, nextest.rs): the test
    list, the libtest-json event fold, and the streaming parser.

    JSON decoding is not modelled: each output line arrives already
    classified as blank (empty after trimming), undecodable, or a decoded
    event. Execution times arrive already converted to milliseconds. */
module Nextest {
  import opened Wrappers
  import opened Text
  import opened TestResults

  // ---------------------------------------------------------------- test list

  datatype TestCase = TestCase(kind: string, ignored: bool)

  /** A test binary; `testcases` lists the map's entries in iteration order. */
  datatype TestSuite = TestSuite(
    packageName: string,
    binaryId: string,
    binaryName: string,
    kind: string,
    testcases: seq<(string, TestCase)>)

  /** `cargo nextest list` output; `rustSuites` lists the map's entries in
      iteration order. */
  datatype TestList = TestList(testCount: nat, rustSuites: seq<(string, TestSuite)>)

  /** Number of test cases over all suites. */
  function CaseCount(suites: seq<(string, TestSuite)>): nat {
    if suites == [] then 0
    else CaseCount(suites[..|suites| - 1]) + |suites[|suites| - 1].1.testcases|
  }

  /** The names of one suite's cases, each qualified by the suite id. */
  function SuiteNames(id: string, cases: seq<(string, TestCase)>): (r: seq<string>)
    ensures |r| == |cases|
    ensures forall j :: 0 <= j < |cases| ==> r[j] == id + "::" + cases[j].0
  {
    if cases == [] then [] else SuiteNames(id, cases[..|cases| - 1]) + [id + "::" + cases[|cases| - 1].0]
  }

  /** Reference definition: every suite's qualified names, suite after suite. */
  function QualifiedNames(suites: seq<(string, TestSuite)>): seq<string> {
    if suites == [] then []
    else
      var last := suites[|suites| - 1];
      QualifiedNames(suites[..|suites| - 1]) + SuiteNames(last.0, last.1.testcases)
  }

  /** One name per test case. */
  lemma {:induction false} QualifiedNamesCount(suites: seq<(string, TestSuite)>)
    ensures |QualifiedNames(suites)| == CaseCount(suites)
  {
    if suites != [] {
      QualifiedNamesCount(suites[..|suites| - 1]);
    }
  }

  /** `all_test_names`: "suite::test" for every case of every suite. */
  method AllTestNames(list: TestList) returns (names: seq<string>)
    ensures names == QualifiedNames(list.rustSuites)
    ensures |names| == CaseCount(list.rustSuites)
  {
    var suites := list.rustSuites;
    names := [];
    var i := 0;
    while i < |suites|
      invariant 0 <= i <= |suites|
      invariant names == QualifiedNames(suites[..i])
    {
      var (suiteId, suite) := suites[i];
      names := AppendSuiteNames(names, suiteId, suite.testcases);
      assert suites[..i + 1][..i] == suites[..i];
      i := i + 1;
    }
    assert suites[..i] == suites;
    QualifiedNamesCount(suites);
  }

  /** The inner loop of `all_test_names`: one suite's qualified names pushed
      after those collected so far. */
  method AppendSuiteNames(names: seq<string>, suiteId: string, cases: seq<(string, TestCase)>)
    returns (extended: seq<string>)
    ensures extended == names + SuiteNames(suiteId, cases)
  {
    extended := names;
    var j := 0;
    while j < |cases|
      invariant 0 <= j <= |cases|
      invariant extended == names + SuiteNames(suiteId, cases[..j])
    {
      assert cases[..j + 1][..j] == cases[..j];
      extended := extended + [suiteId + "::" + cases[j].0];
      j := j + 1;
    }
    assert cases[..j] == cases;
  }

  /** `tests_in_suite`: the case names of the suite with that id, or none. */
  function TestsInSuite(list: TestList, suiteId: string): (r: seq<string>)
    ensures (forall k :: 0 <= k < |list.rustSuites| ==> list.rustSuites[k].0 != suiteId) ==> r == []
    ensures forall k :: (0 <= k < |list.rustSuites| && list.rustSuites[k].0 == suiteId &&
      (forall m :: 0 <= m < k ==> list.rustSuites[m].0 != suiteId)) ==>
        |r| == |list.rustSuites[k].1.testcases| &&
        forall j :: 0 <= j < |r| ==> r[j] == list.rustSuites[k].1.testcases[j].0
  {
    LookupSuite(list.rustSuites, suiteId, 0)
  }

  function LookupSuite(suites: seq<(string, TestSuite)>, suiteId: string, k: nat): (r: seq<string>)
    requires k <= |suites|
    ensures (forall m :: k <= m < |suites| ==> suites[m].0 != suiteId) ==> r == []
    ensures forall m :: (k <= m < |suites| && suites[m].0 == suiteId &&
      (forall n :: k <= n < m ==> suites[n].0 != suiteId)) ==>
        |r| == |suites[m].1.testcases| &&
        forall j :: 0 <= j < |r| ==> r[j] == suites[m].1.testcases[j].0
    decreases |suites| - k
  {
    if k == |suites| then []
    else if suites[k].0 == suiteId then CaseNames(suites[k].1.testcases)
    else LookupSuite(suites, suiteId, k + 1)
  }

  function CaseNames(cases: seq<(string, TestCase)>): (r: seq<string>)
    ensures |r| == |cases| && forall j :: 0 <= j < |r| ==> r[j] == cases[j].0
  {
    if cases == [] then [] else CaseNames(cases[..|cases| - 1]) + [cases[|cases| - 1].0]
  }

  function IgnoredInSuite(cases: seq<(string, TestCase)>): (r: nat)
    ensures r <= |cases|
    ensures r == 0 <==> forall j :: 0 <= j < |cases| ==> !cases[j].1.ignored
  {
    if cases == [] then 0
    else IgnoredInSuite(cases[..|cases| - 1]) + (if cases[|cases| - 1].1.ignored then 1 else 0)
  }

  function IgnoredIn(suites: seq<(string, TestSuite)>): (r: nat)
    ensures r <= CaseCount(suites)
  {
    if suites == [] then 0
    else IgnoredIn(suites[..|suites| - 1]) + IgnoredInSuite(suites[|suites| - 1].1.testcases)
  }

  /** `ignored_count`: the cases marked ignored, never more than the cases. */
  function IgnoredCount(list: TestList): (r: nat)
    ensures r <= CaseCount(list.rustSuites)
    ensures r == 0 <==> forall k, j :: 0 <= k < |list.rustSuites| && 0 <= j < |list.rustSuites[k].1.testcases| ==>
      !list.rustSuites[k].1.testcases[j].1.ignored
  {
    IgnoredNoneIff(list.rustSuites);
    IgnoredIn(list.rustSuites)
  }

  lemma {:induction false} IgnoredNoneIff(suites: seq<(string, TestSuite)>)
    ensures IgnoredIn(suites) == 0 <==> forall k, j :: 0 <= k < |suites| && 0 <= j < |suites[k].1.testcases| ==>
      !suites[k].1.testcases[j].1.ignored
  {
    if suites != [] {
      var init := suites[..|suites| - 1];
      IgnoredNoneIff(init);
      assert forall k :: 0 <= k < |init| ==> init[k] == suites[k];
    }
  }

  // ---------------------------------------------------------------- run events

  datatype SuiteEvent = SuiteEvent(
    event: string,
    testCount: Option<nat>,
    passed: Option<nat>,
    failed: Option<nat>,
    ignored: Option<nat>)

  datatype TestEvent = TestEvent(
    event: string,
    name: string,
    execTimeMs: Option<nat>,
    stdout: Option<string>)

  datatype LibtestEvent = Suite(suite: SuiteEvent) | Test(test: TestEvent)

  /** One line of `nextest run --message-format libtest-json` output. */
  datatype Line = Blank | Garbled(text: string) | Decoded(event: LibtestEvent)

  datatype TestsError = JsonParse(line: string)
  {
    /** The `Display` text of the error, with the offending line standing
        for the JSON parser's message. */
    function Text(): string {
      "JSON parse error: " + line
    }
  }

  datatype TestRunSummary = TestRunSummary(
    total: nat,
    passed: nat,
    failed: nat,
    ignored: nat,
    results: seq<TestResult>)
  {
    /** All tests passed exactly when the failed count is zero. */
    predicate AllPassed() { failed == 0 }

    /** The results whose outcome is Failed, in their order. */
    function FailingTests(): (r: seq<TestResult>)
      ensures forall x :: x in r <==> x in results && x.HasFailed()
      ensures |r| <= |results|
    {
      FailedOnly(results)
    }
  }

  function FailedOnly(s: seq<TestResult>): (r: seq<TestResult>)
    ensures forall x :: x in r <==> x in s && x.HasFailed()
    ensures |r| <= |s|
  {
    if s == [] then []
    else FailedOnly(s[..|s| - 1]) + (if s[|s| - 1].HasFailed() then [s[|s| - 1]] else [])
  }

  /** The filter keeps order and multiplicity: it splits over
      concatenation. */
  lemma {:induction false} FailedOnlyAppend(a: seq<TestResult>, b: seq<TestResult>)
    ensures FailedOnly(a + b) == FailedOnly(a) + FailedOnly(b)
    decreases |b|
  {
    if b == [] {
      assert a + b == a;
    } else {
      var init := b[..|b| - 1];
      assert (a + b)[..|a + b| - 1] == a + init;
      assert (a + b)[|a + b| - 1] == b[|b| - 1];
      FailedOnlyAppend(a, init);
    }
  }

  /** A single result is kept exactly when it failed. */
  lemma FailedOnlySingle(x: TestResult)
    ensures FailedOnly([x]) == (if x.HasFailed() then [x] else [])
  {
    assert [x][..0] == [];
  }

  /** `TestRunSummary::empty`. */
  function EmptySummary(): TestRunSummary {
    TestRunSummary(0, 0, 0, 0, [])
  }

  /** Name normalisation: the text after the first '$'; failing that, after
      the first "::"; failing that, the name itself. */
  function NormalizeTestName(name: string): (r: string)
    ensures |r| <= |name| && r == name[|name| - |r|..]
    ensures '$' in name ==>
      |r| < |name| && name[|name| - |r| - 1] == '$' && '$' !in name[..|name| - |r| - 1]
    ensures '$' !in name && Find(name, "::").Some? ==>
      |r| + 2 <= |name| && OccursAt(name, "::", |name| - |r| - 2) &&
      forall j :: 0 <= j < |name| - |r| - 2 ==> !OccursAt(name, "::", j)
    ensures '$' !in name && Find(name, "::").None? ==> r == name
  {
    match Find(name, "$")
    case Some(i) =>
      assert name[i] == '$';
      assert '$' !in name[..i] by {
        forall j | 0 <= j < i ensures name[j] != '$' {
          assert !OccursAt(name, "$", j);
          assert name[j..j + 1] == [name[j]];
        }
      }
      name[i + 1..]
    case None =>
      assert '$' !in name by {
        forall j | 0 <= j < |name| ensures name[j] != '$' {
          assert !OccursAt(name, "$", j);
          assert name[j..j + 1] == [name[j]];
        }
      }
      match Find(name, "::")
      case Some(i) => name[i + 2..]
      case None => name
  }

  /** Outcome of a finished test event: "ok", "failed" and "ignored" map to
      their outcome, anything else counts as a failure. */
  function OutcomeOf(event: string): (o: TestOutcome)
    ensures o != TimedOut
    ensures o == Passed <==> event == "ok"
    ensures o == Ignored <==> event == "ignored"
    ensures o == Failed <==> event != "ok" && event != "ignored"
  {
    if event == "ok" then Passed
    else if event == "failed" then Failed
    else if event == "ignored" then Ignored
    else Failed
  }

  /** The result recorded for a finished test event. */
  function ResultOf(e: TestEvent, now: int): TestResult {
    TestResult(NormalizeTestName(e.name), OutcomeOf(e.event), e.execTimeMs.GetOr(0), now, e.stdout)
  }

  predicate IsFinishedTest(l: Line) {
    l.Decoded? && l.event.Test? && l.event.test.event != "started"
  }

  /** Reference definition: one result per finished test event, in order. */
  function FinishedResults(ls: seq<Line>, now: int): seq<TestResult> {
    if ls == [] then []
    else
      var l := ls[|ls| - 1];
      FinishedResults(ls[..|ls| - 1], now) + (if IsFinishedTest(l) then [ResultOf(l.event.test, now)] else [])
  }

  /** The value `pick` finds in the last line that carries one; 0 if none. */
  function LastSet(ls: seq<Line>, pick: LibtestEvent -> Option<nat>): nat {
    if ls == [] then 0
    else
      var l := ls[|ls| - 1];
      if l.Decoded? && pick(l.event).Some? then pick(l.event).value else LastSet(ls[..|ls| - 1], pick)
  }

  /** test_count of a suite "started" event. */
  function TotalOf(e: LibtestEvent): Option<nat> {
    if e.Suite? && e.suite.event == "started" then e.suite.testCount else None
  }

  function PassedOf(e: LibtestEvent): Option<nat> {
    if e.Suite? && e.suite.event != "started" then e.suite.passed else None
  }

  function FailedOf(e: LibtestEvent): Option<nat> {
    if e.Suite? && e.suite.event != "started" then e.suite.failed else None
  }

  function IgnoredOf(e: LibtestEvent): Option<nat> {
    if e.Suite? && e.suite.event != "started" then e.suite.ignored else None
  }

  /** Reference summary of a sequence of decodable lines: total from the
      last suite start, counts from the last suite finish that carries them,
      results from the finished test events. */
  function SummaryOf(ls: seq<Line>, now: int): TestRunSummary {
    TestRunSummary(LastSet(ls, TotalOf), LastSet(ls, PassedOf), LastSet(ls, FailedOf),
      LastSet(ls, IgnoredOf), FinishedResults(ls, now))
  }

  /** `parse_run_output`: fold the lines into a summary; one undecodable
      line fails the whole parse. */
  method ParseRunOutput(lines: seq<Line>, now: int) returns (r: Result<TestRunSummary, TestsError>)
    ensures r.Err? <==> exists i :: 0 <= i < |lines| && lines[i].Garbled?
    ensures r.Ok? ==> r.value == SummaryOf(lines, now)
  {
    var summary := EmptySummary();
    var pending: map<string, int> := map[];
    var i := 0;
    while i < |lines|
      invariant 0 <= i <= |lines|
      invariant forall j :: 0 <= j < i ==> !lines[j].Garbled?
      invariant summary == SummaryOf(lines[..i], now)
    {
      assert lines[..i + 1][..i] == lines[..i];
      match lines[i] {
      case Blank =>
      case Garbled(text) =>
        return Err(JsonParse(text));
      case Decoded(Suite(suite)) =>
        if suite.event == "started" {
          if suite.testCount.Some? {
            summary := summary.(total := suite.testCount.value);
          }
        } else {
          if suite.passed.Some? {
            summary := summary.(passed := suite.passed.value);
          }
          if suite.failed.Some? {
            summary := summary.(failed := suite.failed.value);
          }
          if suite.ignored.Some? {
            summary := summary.(ignored := suite.ignored.value);
          }
        }
      case Decoded(Test(test)) =>
        if test.event == "started" {
          pending := pending[test.name := now];
        } else {
          var result := ResultOf(test, now);
          summary := summary.(results := summary.results + [result]);
          pending := pending - {test.name};
        }
      }
      i := i + 1;
    }
    assert lines[..i] == lines;
    return Ok(summary);
  }

  /** Input with nothing but blank lines gives the empty summary. */
  lemma {:induction false} BlankInputGivesEmptySummary(ls: seq<Line>, now: int)
    requires forall i :: 0 <= i < |ls| ==> ls[i].Blank?
    ensures SummaryOf(ls, now) == EmptySummary()
  {
    if ls != [] {
      BlankInputGivesEmptySummary(ls[..|ls| - 1], now);
    }
  }

  /** The parser never produces a TimedOut result. */
  lemma {:induction false} FinishedResultsNeverTimedOut(ls: seq<Line>, now: int)
    ensures forall k :: 0 <= k < |FinishedResults(ls, now)| ==> FinishedResults(ls, now)[k].outcome != TimedOut
  {
    if ls != [] {
      FinishedResultsNeverTimedOut(ls[..|ls| - 1], now);
    }
  }

  // ---------------------------------------------------------------- streaming

  function CountOutcome(s: seq<TestResult>, o: TestOutcome): (n: nat)
    ensures n <= |s|
  {
    if s == [] then 0 else CountOutcome(s[..|s| - 1], o) + (if s[|s| - 1].outcome == o then 1 else 0)
  }

  /** Every result has exactly one of the four outcomes. */
  lemma {:induction false} OutcomeCountsPartition(s: seq<TestResult>)
    ensures CountOutcome(s, Passed) + CountOutcome(s, Failed) + CountOutcome(s, Ignored)
      + CountOutcome(s, TimedOut) == |s|
  {
    if s != [] {
      OutcomeCountsPartition(s[..|s| - 1]);
    }
  }

  lemma {:induction false} NoTimedOutCountsZero(s: seq<TestResult>)
    requires forall k :: 0 <= k < |s| ==> s[k].outcome != TimedOut
    ensures CountOutcome(s, TimedOut) == 0
  {
    if s != [] {
      NoTimedOutCountsZero(s[..|s| - 1]);
    }
  }

  /** The incremental parser: results so far, pending test names with their
      start time, and the announced total. */
  class StreamingParser {
    var pending: map<string, int>
    var results: seq<TestResult>
    var total: nat

    /** Only finished test events add results, and none is TimedOut. */
    ghost predicate Valid()
      reads this
    {
      forall k :: 0 <= k < |results| ==> results[k].outcome != TimedOut
    }

    constructor ()
      ensures Valid() && pending == map[] && results == [] && total == 0
    {
      pending := map[];
      results := [];
      total := 0;
    }

    /** `process_line`: a blank line or a suite event yields nothing; a test
        start is remembered; a finished test yields its result and appends it. */
    method ProcessLine(line: Line, now: int) returns (r: Result<Option<TestResult>, TestsError>)
      requires Valid()
      modifies this
      ensures Valid()
      ensures r.Err? <==> line.Garbled?
      ensures r.Ok? && r.value.Some? <==> IsFinishedTest(line)
      ensures IsFinishedTest(line) ==>
        r == Ok(Some(ResultOf(line.event.test, now))) && results == old(results) + [r.value.value] &&
        pending == old(pending) - {line.event.test.name}
      ensures !IsFinishedTest(line) ==> results == old(results)
      ensures line.Decoded? && line.event.Test? && line.event.test.event == "started" ==>
        pending == old(pending)[line.event.test.name := now]
      ensures !(line.Decoded? && line.event.Test?) ==> pending == old(pending)
      ensures total == if line.Decoded? && TotalOf(line.event).Some? then TotalOf(line.event).value else old(total)
    {
      match line
      case Blank =>
        return Ok(None);
      case Garbled(text) =>
        return Err(JsonParse(text));
      case Decoded(Suite(suite)) =>
        if suite.event == "started" && suite.testCount.Some? {
          total := suite.testCount.value;
        }
        return Ok(None);
      case Decoded(Test(test)) =>
        if test.event == "started" {
          pending := pending[test.name := now];
          return Ok(None);
        }
        var result := ResultOf(test, now);
        results := results + [result];
        pending := pending - {test.name};
        return Ok(Some(result));
    }

    function Results(): seq<TestResult>
      reads this
    {
      results
    }

    /** `into_summary`: counts taken from the results; since no result is
        TimedOut, passed + failed + ignored is the number of results. */
    function IntoSummary(): (s: TestRunSummary)
      reads this
      requires Valid()
      ensures s.total == total && s.results == results
      ensures s.passed + s.failed + s.ignored == |results|
      ensures s.passed == CountOutcome(results, Passed) && s.failed == CountOutcome(results, Failed)
    {
      OutcomeCountsPartition(results);
      NoTimedOutCountsZero(results);
      TestRunSummary(total, CountOutcome(results, Passed), CountOutcome(results, Failed),
        CountOutcome(results, Ignored), results)
    }
  }
}
