/** Test results as the nextest parser produces them (hindsight-tests, result.rs). */
module TestResults {
  import opened Wrappers
  import opened Text

  datatype TestOutcome = Passed | Failed | Ignored | TimedOut
  {
    /** Passed and ignored tests count as successes. */
    predicate IsSuccess() {
      this == Passed || this == Ignored
    }
  }

  /** One test execution; `timestamp` is seconds since the epoch. */
  datatype TestResult = TestResult(
    name: string,
    outcome: TestOutcome,
    durationMs: nat,
    timestamp: int,
    output: Option<string>)
  {
    predicate HasPassed() { outcome == Passed }

    predicate HasFailed() { outcome == Failed }

    /** Everything before the last "::", if there is one. */
    function ModulePath(): (r: Option<string>)
      ensures r.None? <==> forall j :: !OccursAt(name, "::", j)
      ensures r.Some? ==> r.value <= name && OccursAt(name, "::", |r.value|)
      ensures r.Some? ==> forall j :: |r.value| < j ==> !OccursAt(name, "::", j)
    {
      match FindLast(name, "::")
      case None => None
      case Some(i) => Some(name[..i])
    }

    /** Everything after the last "::", or the whole name. */
    function TestFnName(): (r: string)
      ensures (forall j :: !OccursAt(name, "::", j)) ==> r == name
      ensures |r| <= |name| && r == name[|name| - |r|..]
    {
      match FindLast(name, "::")
      case None => name
      case Some(i) => name[i + 2..]
    }

    /** `duration_display` for durations under a second. */
    function DurationDisplayMs(): (r: string)
      requires durationMs < 1000
      ensures |r| >= 3 && r[|r| - 2..] == "ms"
      ensures IsDecimal(r[..|r| - 2]) && DecimalValue(r[..|r| - 2]) == durationMs
    {
      NatToStringRoundTrip(durationMs);
      var digits := NatToString(durationMs);
      assert (digits + "ms")[..|digits|] == digits;
      digits + "ms"
    }
  }

  /** `passed` and `failed` are never both true, and each holds exactly
      for its outcome. */
  lemma PassedFailedExclusive(r: TestResult)
    ensures r.HasPassed() <==> r.outcome == Passed
    ensures r.HasFailed() <==> r.outcome == Failed
    ensures !(r.HasPassed() && r.HasFailed())
  {
  }

  /** `is_success` holds for Passed and Ignored and for nothing else. */
  lemma IsSuccessExactly(o: TestOutcome)
    ensures o.IsSuccess() <==> (o == Passed || o == Ignored)
    ensures !Failed.IsSuccess() && !TimedOut.IsSuccess()
  {
  }

  /** Module path, "::" and function name put back together give the name. */
  lemma {:induction false} ModulePathRoundTrip(r: TestResult)
    requires r.ModulePath().Some?
    ensures r.ModulePath().value + "::" + r.TestFnName() == r.name
  {
    var i := FindLast(r.name, "::").value;
    SplitAtOccurrence(r.name, "::", i);
  }
}
