/** The result gate: given a finished run's results and two minimum pass
    rates, decides pass or fail and reports the failing test cases. */
module ResultGate {
  import opened Wrappers
  import opened Payload

  /** Run statuses the gate accepts as a completed run. */
  predicate AcceptedStatus(status: string) {
    status == Completed || status == Finished
  }

  // ----- counting, as specification -----

  /** `sum(1 for r in results if r.status == "PASSED")`. */
  function PassedTests(rs: seq<TestCaseResult>): (n: nat)
    ensures n <= |rs|
  {
    if rs == [] then 0
    else PassedTests(rs[..|rs| - 1]) + (if rs[|rs| - 1].status == Passed then 1 else 0)
  }

  /** Every test case passed exactly when the passed count reaches the number of results. */
  lemma {:induction false} PassedTestsAllIff(rs: seq<TestCaseResult>)
    ensures PassedTests(rs) == |rs| <==> forall i :: 0 <= i < |rs| ==> rs[i].status == Passed
  {
    if rs != [] {
      var init := rs[..|rs| - 1];
      PassedTestsAllIff(init);
      assert forall i :: 0 <= i < |init| ==> init[i] == rs[i];
    }
  }

  /** The number of assertions whose status is exactly "PASSED". The same
      count as `PassedTests`, over assertion records instead of test-case
      records: the two record types share no type, so each has its own. */
  function PassedIn(assertions: seq<AssertionResult>): (n: nat)
    ensures n <= |assertions|
  {
    if assertions == [] then 0
    else PassedIn(assertions[..|assertions| - 1]) + (if assertions[|assertions| - 1].status == Passed then 1 else 0)
  }

  /** Every assertion of a list passed exactly when the passed count reaches its length. */
  lemma {:induction false} PassedInAllIff(assertions: seq<AssertionResult>)
    ensures PassedIn(assertions) == |assertions| <==> forall j :: 0 <= j < |assertions| ==> assertions[j].status == Passed
  {
    if assertions != [] {
      var init := assertions[..|assertions| - 1];
      PassedInAllIff(init);
      assert forall j :: 0 <= j < |init| ==> init[j] == assertions[j];
    }
  }

  /** Every assertion of every result passed (a missing list has none). */
  predicate AllAssertionsPassed(rs: seq<TestCaseResult>) {
    forall i, j :: 0 <= i < |rs| && 0 <= j < |Assertions(rs[i])| ==> Assertions(rs[i])[j].status == Passed
  }

  /** The number of assertions across all results. */
  function TotalAssertions(rs: seq<TestCaseResult>): (n: nat) {
    if rs == [] then 0
    else TotalAssertions(rs[..|rs| - 1]) + |Assertions(rs[|rs| - 1])|
  }

  /** The total is zero exactly when every assertion list is empty or missing. */
  lemma {:induction false} NoAssertionsIff(rs: seq<TestCaseResult>)
    ensures TotalAssertions(rs) == 0 <==> forall i :: 0 <= i < |rs| ==> Assertions(rs[i]) == []
  {
    if rs != [] {
      var init := rs[..|rs| - 1];
      NoAssertionsIff(init);
      assert forall i :: 0 <= i < |init| ==> init[i] == rs[i];
    }
  }

  /** The number of passed assertions across all results. */
  function PassedAssertions(rs: seq<TestCaseResult>): (n: nat)
    ensures n <= TotalAssertions(rs)
  {
    if rs == [] then 0
    else PassedAssertions(rs[..|rs| - 1]) + PassedIn(Assertions(rs[|rs| - 1]))
  }

  /** Every assertion passed exactly when the passed count reaches the total. */
  lemma {:induction false} AllAssertionsPassedIff(rs: seq<TestCaseResult>)
    ensures PassedAssertions(rs) == TotalAssertions(rs) <==> AllAssertionsPassed(rs)
  {
    if rs != [] {
      var init := rs[..|rs| - 1];
      var last := rs[|rs| - 1];
      AllAssertionsPassedIff(init);
      PassedInAllIff(Assertions(last));
      assert forall i :: 0 <= i < |init| ==> init[i] == rs[i];
      if AllAssertionsPassed(init) && PassedIn(Assertions(last)) == |Assertions(last)| {
        forall i, j | 0 <= i < |rs| && 0 <= j < |Assertions(rs[i])|
          ensures Assertions(rs[i])[j].status == Passed
        {
          if i < |init| { assert rs[i] == init[i]; }
        }
      }
    }
  }

  /** `passed / total >= threshold`, for a positive total, written without division. */
  predicate MeetsThreshold(passed: nat, total: nat, threshold: real) {
    passed as real >= threshold * total as real
  }

  /** The division-free comparison is the rate comparison the source makes. */
  lemma MeetsThresholdIsRate(passed: nat, total: nat, threshold: real)
    requires total > 0
    ensures MeetsThreshold(passed, total, threshold) <==> (passed as real) / (total as real) >= threshold
  {
    var t := total as real;
    assert (passed as real) / t * t == passed as real;
    if (passed as real) / t >= threshold {
      assert (passed as real) / t * t >= threshold * t;
    } else {
      assert (passed as real) / t * t < threshold * t;
    }
  }

  /** When the gate passes: accepted status, at least one test case, the test
      pass rate met, and the assertion pass rate met or no assertions at all. */
  predicate GatePasses(p: TestRunResults, minTestPassRate: real, minAssertionPassRate: real) {
    && AcceptedStatus(p.summary.status)
    && |p.results| > 0
    && MeetsThreshold(PassedTests(p.results), |p.results|, minTestPassRate)
    && (TotalAssertions(p.results) == 0
        || MeetsThreshold(PassedAssertions(p.results), TotalAssertions(p.results), minAssertionPassRate))
  }

  // ----- report -----

  /** One threshold check: the counts, the threshold and whether it was met. */
  datatype RateLine = RateLine(passed: nat, total: nat, threshold: real, meets: bool)

  datatype FailedAssertion = FailedAssertion(name: string, reason: string)

  /** A test case whose status is not "PASSED", with its failed assertions. */
  datatype FailedCase = FailedCase(id: string, testCaseId: string, status: string, failedAssertions: seq<FailedAssertion>)

  /** What the gate reports: why it stopped early, or the two rate checks
      (the assertion check absent when skipped) and the failing test cases. */
  datatype Report =
    | Unparseable
    | StatusRejected(status: string)
    | NoTestCases
    | Detailed(tests: RateLine, assertions: Option<RateLine>, failures: seq<FailedCase>)

  function TestRateLine(rs: seq<TestCaseResult>, threshold: real): RateLine {
    RateLine(PassedTests(rs), |rs|, threshold, MeetsThreshold(PassedTests(rs), |rs|, threshold))
  }

  function AssertionRateLine(rs: seq<TestCaseResult>, threshold: real): Option<RateLine> {
    if TotalAssertions(rs) == 0 then None
    else Some(RateLine(PassedAssertions(rs), TotalAssertions(rs), threshold,
                       MeetsThreshold(PassedAssertions(rs), TotalAssertions(rs), threshold)))
  }

  function Describe(a: AssertionResult): FailedAssertion {
    FailedAssertion(a.assertionName, a.reason)
  }

  /** The assertions whose status is exactly "FAILED", in order. */
  function FailedAssertionsOf(assertions: seq<AssertionResult>): seq<FailedAssertion> {
    if assertions == [] then []
    else
      var last := assertions[|assertions| - 1];
      FailedAssertionsOf(assertions[..|assertions| - 1]) + (if last.status == Failed then [Describe(last)] else [])
  }

  /** Every assertion whose status is exactly "FAILED" is described, and
      nothing else is. */
  lemma {:induction false} FailedAssertionsOfLists(assertions: seq<AssertionResult>)
    ensures var r := FailedAssertionsOf(assertions);
      && |r| <= |assertions|
      && (forall j :: 0 <= j < |assertions| && assertions[j].status == Failed ==> Describe(assertions[j]) in r)
      && (forall f :: f in r ==> exists j :: 0 <= j < |assertions| && assertions[j].status == Failed && f == Describe(assertions[j]))
  {
    if assertions != [] {
      var init := assertions[..|assertions| - 1];
      FailedAssertionsOfLists(init);
      assert forall j :: 0 <= j < |init| ==> init[j] == assertions[j];
    }
  }

  function DescribeCase(r: TestCaseResult): FailedCase {
    FailedCase(r.id, r.testCaseId, r.status, FailedAssertionsOf(Assertions(r)))
  }

  /** One entry per result whose status is not "PASSED", in order. */
  function FailureReport(rs: seq<TestCaseResult>): seq<FailedCase> {
    if rs == [] then []
    else
      var last := rs[|rs| - 1];
      FailureReport(rs[..|rs| - 1]) + (if last.status != Passed then [DescribeCase(last)] else [])
  }

  /** The report has one entry per result that did not pass: every such
      result is described, and every entry is one that did not pass. */
  lemma {:induction false} FailureReportLists(rs: seq<TestCaseResult>)
    ensures var r := FailureReport(rs);
      && |r| == |rs| - PassedTests(rs)
      && (forall i :: 0 <= i < |rs| && rs[i].status != Passed ==> DescribeCase(rs[i]) in r)
      && (forall k :: 0 <= k < |r| ==> r[k].status != Passed)
  {
    if rs != [] {
      var init, last := rs[..|rs| - 1], rs[|rs| - 1];
      FailureReportLists(init);
      var before := FailureReport(init);
      var r := before + (if last.status != Passed then [DescribeCase(last)] else []);
      assert FailureReport(rs) == r;
      forall i | 0 <= i < |rs| && rs[i].status != Passed ensures DescribeCase(rs[i]) in r {
        if i < |init| {
          assert rs[i] == init[i];
          assert DescribeCase(init[i]) in before;
        }
      }
      forall k | 0 <= k < |r| ensures r[k].status != Passed {
        if k < |before| {
          assert r[k] == before[k];
        }
      }
    }
  }

  /** The nested loops of `check_results` that count assertions across all
      results, a missing list counting as empty. */
  method CountAssertions(results: seq<TestCaseResult>) returns (total: nat, passed: nat)
    ensures total == TotalAssertions(results) && passed == PassedAssertions(results)
  {
    total, passed := 0, 0;
    var i := 0;
    while i < |results|
      invariant 0 <= i <= |results|
      invariant total == TotalAssertions(results[..i])
      invariant passed == PassedAssertions(results[..i])
    {
      var assertions := Assertions(results[i]);
      var j := 0;
      while j < |assertions|
        invariant 0 <= j <= |assertions|
        invariant total == TotalAssertions(results[..i]) + j
        invariant passed == PassedAssertions(results[..i]) + PassedIn(assertions[..j])
      {
        total := total + 1;
        if assertions[j].status == Passed {
          passed := passed + 1;
        }
        assert assertions[..j + 1][..j] == assertions[..j];
        j := j + 1;
      }
      assert assertions[..j] == assertions;
      assert results[..i + 1][..i] == results[..i];
      i := i + 1;
    }
    assert results[..i] == results;
  }

  /** The inner loop of the detailed listing: the assertions of one test case
      whose status is exactly "FAILED". */
  method ListFailedAssertions(assertions: seq<AssertionResult>) returns (failed: seq<FailedAssertion>)
    ensures failed == FailedAssertionsOf(assertions)
  {
    failed := [];
    var j := 0;
    while j < |assertions|
      invariant 0 <= j <= |assertions|
      invariant failed == FailedAssertionsOf(assertions[..j])
    {
      if assertions[j].status == Failed {
        failed := failed + [FailedAssertion(assertions[j].assertionName, assertions[j].reason)];
      }
      assert assertions[..j + 1][..j] == assertions[..j];
      j := j + 1;
    }
    assert assertions[..j] == assertions;
  }

  /** The detailed listing of `check_results`: every test case whose status
      is not "PASSED", with its failed assertions. */
  method ListFailures(results: seq<TestCaseResult>) returns (failures: seq<FailedCase>)
    ensures failures == FailureReport(results)
  {
    failures := [];
    var i := 0;
    while i < |results|
      invariant 0 <= i <= |results|
      invariant failures == FailureReport(results[..i])
    {
      var result := results[i];
      if result.status != Passed {
        var failed := ListFailedAssertions(Assertions(result));
        failures := failures + [FailedCase(result.id, result.testCaseId, result.status, failed)];
      }
      assert results[..i + 1][..i] == results[..i];
      i := i + 1;
    }
    assert results[..i] == results;
  }

  // ----- the gate -----

  /** `check_results`: rejects an unparseable payload, a status other than
      COMPLETED or FINISHED and an empty result list outright; otherwise runs
      both rate checks (skipping the assertion check when there are no
      assertions) and lists the failing test cases. */
  method CheckResults(payload: Option<TestRunResults>, minTestPassRate: real, minAssertionPassRate: real)
    returns (passed: bool, report: Report)
    ensures passed <==> payload.Some? && GatePasses(payload.value, minTestPassRate, minAssertionPassRate)
    ensures payload.None? ==> report == Unparseable
    ensures payload.Some? && !AcceptedStatus(payload.value.summary.status) ==>
      report == StatusRejected(payload.value.summary.status)
    ensures payload.Some? && AcceptedStatus(payload.value.summary.status) && payload.value.results == [] ==>
      report == NoTestCases
    ensures payload.Some? && AcceptedStatus(payload.value.summary.status) && payload.value.results != [] ==>
      var rs := payload.value.results;
      report == Detailed(TestRateLine(rs, minTestPassRate), AssertionRateLine(rs, minAssertionPassRate), FailureReport(rs))
  {
    if payload.None? {
      return false, Unparseable;
    }
    var summary, results := payload.value.summary, payload.value.results;
    var allChecksPassed := true;

    if summary.status != Completed && summary.status != Finished {
      return false, StatusRejected(summary.status);
    }
    var totalTests := |results|;
    if totalTests == 0 {
      return false, NoTestCases;
    }

    var passedTests := PassedTests(results);
    var testsMeet := MeetsThreshold(passedTests, totalTests, minTestPassRate);
    if !testsMeet {
      allChecksPassed := false;
    }

    var totalAssertions, passedAssertions := CountAssertions(results);

    var assertionLine: Option<RateLine> := None;
    if totalAssertions > 0 {
      var assertionsMeet := MeetsThreshold(passedAssertions, totalAssertions, minAssertionPassRate);
      assertionLine := Some(RateLine(passedAssertions, totalAssertions, minAssertionPassRate, assertionsMeet));
      if !assertionsMeet {
        allChecksPassed := false;
      }
    }

    var failures := ListFailures(results);

    return allChecksPassed, Detailed(RateLine(passedTests, totalTests, minTestPassRate, testsMeet), assertionLine, failures);
  }

  // ----- properties of the gate -----

  /** An empty run never passes, whatever the thresholds. */
  lemma EmptyRunFails(p: TestRunResults, minTestPassRate: real, minAssertionPassRate: real)
    requires p.results == []
    ensures !GatePasses(p, minTestPassRate, minAssertionPassRate)
  {
  }

  /** With no assertions, the assertion threshold has no effect. */
  lemma NoAssertionsSkipsCheck(p: TestRunResults, minTestPassRate: real, a1: real, a2: real)
    requires forall i :: 0 <= i < |p.results| ==> Assertions(p.results[i]) == []
    ensures GatePasses(p, minTestPassRate, a1) == GatePasses(p, minTestPassRate, a2)
  {
    NoAssertionsIff(p.results);
  }

  lemma ScaleMonotone(x: real, y: real, n: nat)
    requires x <= y
    ensures x * n as real <= y * n as real
  {
    assert (y - x) * n as real >= 0.0;
  }

  /** A count that meets a threshold meets every lower one. */
  lemma MeetsThresholdMonotone(passed: nat, total: nat, t1: real, t2: real)
    requires t2 <= t1 && MeetsThreshold(passed, total, t1)
    ensures MeetsThreshold(passed, total, t2)
  {
    ScaleMonotone(t2, t1, total);
  }

  /** Lowering either threshold never turns a pass into a failure. */
  lemma GateMonotone(p: TestRunResults, t1: real, a1: real, t2: real, a2: real)
    requires t2 <= t1 && a2 <= a1
    requires GatePasses(p, t1, a1)
    ensures GatePasses(p, t2, a2)
  {
    MeetsThresholdMonotone(PassedTests(p.results), |p.results|, t1, t2);
    if TotalAssertions(p.results) > 0 {
      MeetsThresholdMonotone(PassedAssertions(p.results), TotalAssertions(p.results), a1, a2);
    }
  }

  /** A completed run in which every test case and every assertion passed
      passes the default thresholds of 100%. */
  lemma AllPassedMeetsDefaults(p: TestRunResults)
    requires AcceptedStatus(p.summary.status) && p.results != []
    requires forall i :: 0 <= i < |p.results| ==> p.results[i].status == Passed
    requires AllAssertionsPassed(p.results)
    ensures GatePasses(p, 1.0, 1.0)
  {
    PassedTestsAllIff(p.results);
    AllAssertionsPassedIff(p.results);
  }

  /** A single assertion that did not pass fails the gate at an assertion
      threshold of 100%, whatever the test threshold. */
  lemma UnpassedAssertionFailsStrictGate(p: TestRunResults, minTestPassRate: real, i: nat, j: nat)
    requires i < |p.results| && j < |Assertions(p.results[i])|
    requires Assertions(p.results[i])[j].status != Passed
    ensures !GatePasses(p, minTestPassRate, 1.0)
  {
    assert !AllAssertionsPassed(p.results);
    AllAssertionsPassedIff(p.results);
    assert TotalAssertions(p.results) > 0 by {
      NoAssertionsIff(p.results);
      assert Assertions(p.results[i]) != [];
    }
  }

  /** Only test cases whose own status is not "PASSED" are listed: a FAILED
      assertion inside a PASSED test case fails the strict gate yet appears
      nowhere in the report. */
  lemma FailedAssertionOfPassedCaseUnlisted(summary: Summary, r: TestCaseResult, j: nat)
    requires AcceptedStatus(summary.status)
    requires r.status == Passed
    requires j < |Assertions(r)| && Assertions(r)[j].status == Failed
    ensures !GatePasses(TestRunResults(summary, [r]), 1.0, 1.0)
    ensures FailureReport([r]) == []
  {
    UnpassedAssertionFailsStrictGate(TestRunResults(summary, [r]), 1.0, 0, j);
  }

  /** With both thresholds at or below zero only the status and a non-empty
      run matter. */
  lemma ZeroThresholdsCheckOnlyStatus(p: TestRunResults, minTestPassRate: real, minAssertionPassRate: real)
    requires minTestPassRate <= 0.0 && minAssertionPassRate <= 0.0
    ensures GatePasses(p, minTestPassRate, minAssertionPassRate) <==> AcceptedStatus(p.summary.status) && p.results != []
  {
    GateMonotoneFromZero(p, minTestPassRate, minAssertionPassRate);
  }

  lemma GateMonotoneFromZero(p: TestRunResults, t: real, a: real)
    requires t <= 0.0 && a <= 0.0
    ensures MeetsThreshold(PassedTests(p.results), |p.results|, t)
    ensures MeetsThreshold(PassedAssertions(p.results), TotalAssertions(p.results), a)
  {
    assert t * (|p.results| as real) <= 0.0 by {
      assert (-t) * (|p.results| as real) >= 0.0;
    }
    assert a * (TotalAssertions(p.results) as real) <= 0.0 by {
      assert (-a) * (TotalAssertions(p.results) as real) >= 0.0;
    }
  }

  // ----- the command -----

  /** What arrives on standard input: not JSON at all, or JSON that does or
      does not have the shape of a results payload. */
  datatype Input = NotJson | Json(payload: Option<TestRunResults>)

  /** `main`: exits 1 when given an argument or unreadable input, otherwise
      0 exactly when the gate passes. */
  method CheckMain(argv: seq<string>, stdin: Input, minTestPassRate: real, minAssertionPassRate: real)
    returns (exitCode: int)
    ensures exitCode == 0 || exitCode == 1
    ensures exitCode == 0 <==>
      |argv| <= 1 && stdin.Json? && stdin.payload.Some? && GatePasses(stdin.payload.value, minTestPassRate, minAssertionPassRate)
  {
    if |argv| > 1 {
      return 1;
    }
    if stdin.NotJson? {
      return 1;
    }
    var passed, _ := CheckResults(stdin.payload, minTestPassRate, minAssertionPassRate);
    exitCode := if passed then 0 else 1;
  }
}
