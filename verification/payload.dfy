/** The shape of a test-run results payload, limited to the fields the
    workflow reads, and the status words it compares against. */
module Payload {
  import opened Wrappers

  // Run-level statuses (the TestStatus enumeration of the workflow package).
  const Created := "CREATED"
  const Running := "RUNNING"
  const Scoring := "SCORING"
  const ScoringFailed := "SCORING_FAILED"
  const Finished := "FINISHED"
  const Completed := "COMPLETED"
  const Failed := "FAILED"
  const Canceled := "CANCELED"

  // Statuses the poller makes up itself.
  const Timeout := "TIMEOUT"
  const NotFound := "NOT_FOUND"
  const Unknown := "UNKNOWN"

  // Per test case and per assertion.
  const Passed := "PASSED"

  /** One assertion outcome inside a test-case result. */
  datatype AssertionResult = AssertionResult(status: string, assertionName: string, reason: string)

  /** One test-case run; `assertionResults` may be missing. */
  datatype TestCaseResult = TestCaseResult(
    id: string,
    testCaseId: string,
    status: string,
    assertionResults: Option<seq<AssertionResult>>)

  /** The run summary. */
  datatype Summary = Summary(id: string, status: string, error: Option<string>)

  datatype TestRunResults = TestRunResults(summary: Summary, results: seq<TestCaseResult>)

  /** `result.assertionResults or []`. */
  function Assertions(r: TestCaseResult): seq<AssertionResult> {
    r.assertionResults.GetOr([])
  }
}
