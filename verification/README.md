# Hamming CI workflow v2, modelled in Dafny

This project models the decision logic of a small CI workflow that runs voice-agent tests on a vendor test API. The workflow has three commands:

- **Launcher** (`scripts/hamming_run_test.py`). It checks the configuration and parses the comma-separated selectors and phone numbers. It enforces the exactly-one selection rule and the `+` prefix on phone numbers. Then it builds one test configuration per selected tag or test case and asks the vendor SDK to create a run.
- **Poller** (`scripts/hamming_wait_test_run.py`). It polls the run's status endpoint until the run reaches a terminal status, is not found, or the timeout passes. It logs status changes and, while the run is RUNNING, a per-status progress tally. It returns the results payload or a synthetic TIMEOUT or NOT_FOUND payload, and exits by the returned status.
- **Result gate** (`scripts/hamming_check_results.py`). It reads a results payload and two minimum pass rates: one for test cases and one for assertions. It decides pass or fail and reports the failing test cases with their failed assertions.

Shared helpers live in `hamming_workflow_v2/utils.py`: comma lists, the selection rule, phone formatting and UI links. Settings, the required-settings check and request headers live in `hamming_workflow_v2/config.py`.

Files, one module each:

| file | module | models |
|---|---|---|
| `wrappers.dfy` | `Wrappers` | `Option`, `Result`, and `Outcome` (pass, or fail with an error) |
| `text.dfy` | `Text` | Python's `str.strip()`, `str.split(sep)`, `sep.join(...)` and `int(text)` |
| `payload.dfy` | `Payload` | the fields of a results payload the workflow reads, and the status words |
| `utils.dfy` | `Utils` | `hamming_workflow_v2/utils.py` |
| `config.dfy` | `Configuration` | `hamming_workflow_v2/config.py` |
| `check_results.dfy` | `ResultGate` | `scripts/hamming_check_results.py` |
| `wait_test_run.dfy` | `TestRunWait` | `scripts/hamming_wait_test_run.py` |
| `run_test.dfy` | `TestRunLaunch` | `scripts/hamming_run_test.py` |

Each file takes the form of the code it models:

- Code that builds values (comprehensions, string building, the selection rule, headers, the request) becomes functions and lemmas.
- Code that updates local state in loops becomes methods with loop invariants. Each such method is proved equal to a specification function, and the properties are proved about that function. These are:
  - `format_phone_numbers`;
  - `validate_required`;
  - the nested counting loops, the detailed listing and the `all_checks_passed` flag of `check_results`;
  - the polling loop with its `last_status` and its `status_counts` dictionary.

The outside world becomes inputs:

- **Environment.** The environment is a map, and the configuration is a value read from it once.
- **Poller trace.** The poller gets a finite trace of observations. Each observation holds the elapsed seconds at the top of one loop iteration, the reply of the status request, and the reply of the results request of that iteration.
- **Replies.** A reply is either "the request raised" or a status code with a body.
- **Vendor SDK.** The SDK call is a function parameter.
- **Stdin.** The gate's standard input is "not JSON" or a JSON value that does or does not have the payload's shape.
- **Exit codes and stdout.** These are return values.

Pass rates are exact reals. The comparison `passed / total >= threshold` is written `passed >= threshold * total`, and `ResultGate.MeetsThresholdIsRate` proves the two the same for a positive total.

Behaviour of the code worth noting:

- **Poller terminal statuses.** The poller stops only on COMPLETED, FAILED and CANCELED (scripts/hamming_wait_test_run.py:77). Any other status keeps it polling. That includes FINISHED, which both exit rules accept as success (scripts/hamming_wait_test_run.py:141 and scripts/hamming_check_results.py:46). `TestRunWait.FinishedRunTimesOut` shows the consequence: a run that stays FINISHED ends in TIMEOUT and exit code 1.
- **Timeout comparison.** The timeout comparison is strict (scripts/hamming_wait_test_run.py:50): at exactly the timeout the poller still polls.
- **Assertions in the gate's report.** The report lists only assertions whose status is exactly `FAILED` (scripts/hamming_check_results.py:116), not other non-passed ones. It lists them only under test cases whose own status is not `PASSED` (scripts/hamming_check_results.py:105-117). `ResultGate.FailedAssertionOfPassedCaseUnlisted` shows a failed assertion that fails the gate yet appears nowhere in the report.
- **Assertion rate.** The assertion rate is computed from the per-case assertion lists (scripts/hamming_check_results.py:71-79).
- **Both selectors set.** When `TAG_IDS` and `TEST_CASE_IDS` both parse to non-empty lists, the configuration check passes them (hamming_workflow_v2/config.py:43). They are rejected only later, by the selection rule (hamming_workflow_v2/utils.py:26-27); see `TestRunLaunch.BothSelectorsRejectedLater`. A selector made only of commas and spaces, such as `TAG_IDS=","`, passes the configuration check but parses to an empty list, so it counts as absent (`TestRunLaunch.SeparatorOnlySelectorSelectsNothing`).

## Model

| member | source | states |
|---|---|---|
| Text.StripLeftShape | hamming_workflow_v2/utils.py:21 | the leading part `lstrip(chars)` removes is all in `chars`, and what it keeps does not begin with one of them; `strip()` uses the `isspace` characters |
| Text.StripRightShape | hamming_workflow_v2/utils.py:21 | the trailing part `rstrip(chars)` removes is all in `chars`, and what it keeps does not end with one of them |
| Text.StripResult | hamming_workflow_v2/utils.py:21 | `strip()` leaves no whitespace at either end; the result is empty exactly when the input is all whitespace |
| Text.StripBothIsSlice | hamming_workflow_v2/utils.py:21 | `lstrip(chars)` followed by `rstrip(chars)` keeps a slice of the input with characters of `chars` on both sides of it |
| Text.StripIsSlice | hamming_workflow_v2/utils.py:37 | `strip()` removes only whitespace, and only from the two ends: the result is a slice of the input |
| Text.StripIdempotent | hamming_workflow_v2/utils.py:37 | stripping twice is stripping once |
| Text.StripLeftPadding | hamming_workflow_v2/utils.py:21 | `lstrip(chars)` of a run of characters in `chars` followed by a text not beginning with one gives that text |
| Text.StripRightPadding | hamming_workflow_v2/utils.py:21 | `rstrip(chars)` of a text not ending with a character in `chars` followed by a run of them gives that text |
| Text.StripPadded | hamming_workflow_v2/utils.py:21 | `strip()` of a stripped text with whitespace on both sides gives that text back, or the empty string when the text is empty |
| Text.SplitPieces | hamming_workflow_v2/utils.py:21 | no piece of `split(',')` holds the separator, and every character of a piece comes from the input |
| Text.SplitJoinsBack | hamming_workflow_v2/utils.py:21 | joining the pieces of `split(',')` back with the separator gives the input |
| Text.SplitJoin | hamming_workflow_v2/utils.py:21 | splitting the join of separator-free items gives the items back |
| Text.ParseIntDigits | hamming_workflow_v2/config.py:26-27 | a string of decimal digits is read as its value when it has at most 4300 digits, and rejected when it has more |
| Text.ParseIntNegativeDigits | scripts/hamming_wait_test_run.py:123-126 | a minus sign followed by decimal digits is read as the negated value within the same 4300-digit limit, and rejected beyond it |
| Text.ParseIntToString | hamming_workflow_v2/config.py:26-27 | `int(str(i)) == i` for every integer whose decimal form has at most 4300 digits; beyond that `int` raises |
| Text.ParseIntBlank | scripts/hamming_wait_test_run.py:123-126 | whitespace-only text is not an integer (`int` raises) |
| Text.ParseIntSeparatorRejected | scripts/hamming_wait_test_run.py:123-126 | a U+001C..U+001F character at the start of the text is never skipped, whatever follows it (non-ASCII characters included), so `int` raises, although `strip()` removes such characters |
| Utils.TestRunUrl | hamming_workflow_v2/utils.py:5-8 | the link is the UI base (HAMMING_UI_BASE_URL when set, else https://app.hamming.ai), then "/test-runs/", then the id |
| Utils.TestCaseUrl | hamming_workflow_v2/utils.py:11-14 | the link is the UI base, then "/test-cases/", then the id |
| Utils.UrlsDetermineIds | hamming_workflow_v2/utils.py:5-14 | distinct ids get distinct links, for runs and for test cases |
| Utils.RunUrlIsNotCaseUrl | hamming_workflow_v2/utils.py:5-14 | a run link is never a test-case link |
| Utils.ParseCommaSeparated | hamming_workflow_v2/utils.py:17-21 | `None` exactly for a missing or empty value; otherwise every item is non-empty, stripped and comma-free |
| Utils.NonBlankItemsPadded | hamming_workflow_v2/utils.py:21 | for pieces that are stripped cores padded with whitespace, the kept items are exactly the non-empty cores, in order |
| Utils.PaddedWithoutComma | hamming_workflow_v2/utils.py:21 | padding a core with whitespace adds no comma |
| Utils.ParseCommaSeparatedJoin | hamming_workflow_v2/utils.py:17-21 | parsing the comma-join of whitespace-padded pieces, blank pieces included, gives the non-empty stripped items in order: nothing lost, nothing reordered, blanks dropped; the result is `None` only when the join is the empty string |
| Utils.ParseCommaSeparatedOnlySeparators | hamming_workflow_v2/utils.py:19-21 | a non-empty value made only of commas and whitespace gives an empty list, not `None` |
| Utils.ValidateSelectionMethod | hamming_workflow_v2/utils.py:24-29 | passes exactly when exactly one list is non-empty; fails with "both" exactly when both are non-empty and with "neither" exactly when neither is; an empty list counts as absent |
| Utils.FormatPhones | hamming_workflow_v2/utils.py:32-41 | succeeds exactly when every stripped number starts with '+', and then element i is input i stripped, with the same length |
| Utils.FormatPhonesNamesFirstBad | hamming_workflow_v2/utils.py:37-40 | the error carries the first number that, stripped, lacks the '+' |
| Utils.FormatPhonesIdempotent | hamming_workflow_v2/utils.py:32-41 | formatting a formatted list returns it unchanged |
| Utils.FormatPhoneNumbers | hamming_workflow_v2/utils.py:32-41 | the append loop computes `FormatPhones`: it raises on the first bad number, else returns every number stripped |
| Configuration.FromEnvironment | hamming_workflow_v2/config.py:12-27 | each setting is its environment variable; the base URL, poll interval and timeout fall back to their defaults, the two numbers parsed with `int`; loading fails exactly when a numeric setting is not an integer, and the error identifies the first such setting |
| Configuration.FromEnvironmentDefaults | hamming_workflow_v2/config.py:12-27 | with nothing set, the base URL is https://app.hamming.ai/api/rest, the poll interval 10 and the timeout 600 |
| Configuration.ConfigErrors | hamming_workflow_v2/config.py:32-44 | holds exactly the violated conditions, each once, in the order key, agent, phones, selection; setting both selectors violates none |
| Configuration.ValidateRequired | hamming_workflow_v2/config.py:30-47 | passes exactly when key, agent and phones are non-empty and one selector is non-empty; otherwise raises once with "Configuration errors: " and every message joined by "; " |
| Configuration.EmptyCountsAsUnset | hamming_workflow_v2/config.py:34-43 | an empty value and a missing one give the same errors, for every checked setting |
| Configuration.GetHeaders | hamming_workflow_v2/config.py:50-55 | exactly the keys Content-Type and Authorization; Content-Type is application/json; Authorization is "Bearer " then the key, or "None" when no key is set |
| ResultGate.PassedTestsAllIff | scripts/hamming_check_results.py:56 | the passed count equals the number of results exactly when every status is "PASSED" |
| ResultGate.PassedInAllIff | scripts/hamming_check_results.py:76-78 | within one test case, the passed count equals the number of assertions exactly when every one is "PASSED" |
| ResultGate.NoAssertionsIff | scripts/hamming_check_results.py:71-79 | the assertion total is zero exactly when every assertion list is empty or missing |
| ResultGate.PassedAssertions | scripts/hamming_check_results.py:71-79 | never more than the total |
| ResultGate.AllAssertionsPassedIff | scripts/hamming_check_results.py:71-79 | the passed count reaches the total exactly when every assertion's status is "PASSED" |
| ResultGate.MeetsThresholdIsRate | scripts/hamming_check_results.py:57-64 | the division-free comparison is `passed / total >= threshold` |
| ResultGate.CountAssertions | scripts/hamming_check_results.py:71-79 | the nested loops count all assertions and the passed ones, a missing list counting as empty |
| ResultGate.FailedAssertionsOfLists | scripts/hamming_check_results.py:114-117 | lists every assertion whose status is exactly "FAILED", and nothing else |
| ResultGate.FailureReportLists | scripts/hamming_check_results.py:103-117 | one entry per result whose status is not "PASSED": every such result is listed and no other |
| ResultGate.ListFailedAssertions | scripts/hamming_check_results.py:114-117 | the inner listing loop computes `FailedAssertionsOf` |
| ResultGate.ListFailures | scripts/hamming_check_results.py:103-117 | the listing loop computes `FailureReport` |
| ResultGate.CheckResults | scripts/hamming_check_results.py:34-127 | true exactly when the payload parsed, its status is COMPLETED or FINISHED, results are non-empty, the test rate meets its threshold and there are no assertions or the assertion rate meets its threshold; the report says which early exit was taken, or gives both rate checks (none for assertions when there are none) and the failures |
| ResultGate.EmptyRunFails | scripts/hamming_check_results.py:50-53 | an empty result list fails whatever the thresholds |
| ResultGate.NoAssertionsSkipsCheck | scripts/hamming_check_results.py:81-98 | with no assertions the assertion threshold has no effect |
| ResultGate.GateMonotone | scripts/hamming_check_results.py:64-93 | lowering either threshold never turns a pass into a fail |
| ResultGate.AllPassedMeetsDefaults | scripts/hamming_check_results.py:19-20 | a completed run where everything passed meets the default thresholds of 100% |
| ResultGate.UnpassedAssertionFailsStrictGate | scripts/hamming_check_results.py:78-93 | one assertion that did not pass fails an assertion threshold of 100% |
| ResultGate.FailedAssertionOfPassedCaseUnlisted | scripts/hamming_check_results.py:106-117 | a FAILED assertion inside a PASSED test case fails the strict gate but is not in the report |
| ResultGate.ZeroThresholdsCheckOnlyStatus | scripts/hamming_check_results.py:46-93 | with both thresholds at or below zero, only the status and a non-empty result list decide |
| ResultGate.CheckMain | scripts/hamming_check_results.py:130-152 | exit 0 exactly when there is no argument, stdin is JSON, it parses as a payload and the gate passes; exit 1 otherwise |
| TestRunWait.WaitFirstEnd | scripts/hamming_wait_test_run.py:47-109 | the first iteration that ends the wait decides the payload; no iteration ending it means the loop is still polling |
| TestRunWait.WaitEndsAt | scripts/hamming_wait_test_run.py:47-109 | an iteration that ends the wait, with none ending it before, decides the outcome |
| TestRunWait.WaitDependsOnlyOnSteps | scripts/hamming_wait_test_run.py:47-109 | traces whose iterations end the wait in the same way give the same outcome |
| TestRunWait.TimeoutIsStrict | scripts/hamming_wait_test_run.py:49-55 | the wait times out exactly when elapsed is strictly greater than the timeout; at equality it still polls |
| TestRunWait.NotFoundEndsAtOnce | scripts/hamming_wait_test_run.py:60-65 | a 404 returns NOT_FOUND with no results in that iteration, with no further polls |
| TestRunWait.TerminalReturnsFetched | scripts/hamming_wait_test_run.py:77-86 | a COMPLETED, FAILED or CANCELED status with a successful results fetch returns the fetched payload unchanged |
| TestRunWait.ErrorsRetry | scripts/hamming_wait_test_run.py:57-109 | a failed status request, an HTTP error other than 404 and a failed results fetch after a terminal status all poll again |
| TestRunWait.NonTerminalKeepsPolling | scripts/hamming_wait_test_run.py:69-77 | every other status keeps polling, and a missing status reads as UNKNOWN |
| TestRunWait.ProgressFetchIrrelevant | scripts/hamming_wait_test_run.py:89-103 | what the progress fetch of a non-terminal iteration returns, or whether it fails, never changes the outcome |
| TestRunWait.StatusLogShape | scripts/hamming_wait_test_run.py:72-74 | the log is no longer than the statuses read and ends with the last one read |
| TestRunWait.StatusLogNoRepeats | scripts/hamming_wait_test_run.py:45-74 | the logged statuses never hold two equal neighbours |
| TestRunWait.StatusLogSameStatuses | scripts/hamming_wait_test_run.py:72-74 | every status read is logged at least once, and nothing else is |
| TestRunWait.CountsOfStep | scripts/hamming_wait_test_run.py:99-100 | one more run increments its status's count, or starts it at one, and the counts stay exact |
| TestRunWait.BumpKeys | scripts/hamming_wait_test_run.py:100 | after one dict update the key list still names exactly the dict's keys, each once |
| TestRunWait.BumpSum | scripts/hamming_wait_test_run.py:100 | one dict update adds one to the sum of the counts |
| TestRunWait.TallyFirstSeen | scripts/hamming_wait_test_run.py:97-100 | the dict's keys come in order of the first run with each status |
| TestRunWait.CountedUnique | scripts/hamming_wait_test_run.py:97-100 | two exact tallies of the same runs agree on key order and on every count, so exactness fixes the tally |
| TestRunWait.TallyCounted | scripts/hamming_wait_test_run.py:97-100 | the tally has a key for exactly the statuses present, each counting its runs, with keys in first-seen order and counts that sum to the number of runs |
| TestRunWait.CountByStatus | scripts/hamming_wait_test_run.py:97-100 | the dict the loop fills is the tally of the runs, so it has every property `TallyCounted` proves |
| TestRunWait.PollOnce | scripts/hamming_wait_test_run.py:57-106 | one pass of the `try` block reads the status `ReadStatus` reads and ends the wait exactly as `Step` does; it yields a progress line exactly when the status read is RUNNING and the results fetch answered 200 with a non-empty list, and that line is the tally of those runs |
| TestRunWait.ProgressAfterShape | scripts/hamming_wait_test_run.py:89-103 | at most one progress line per iteration, each about at least one run |
| TestRunWait.LogAfterIsStatusLog | scripts/hamming_wait_test_run.py:45-74 | the log built iteration by iteration through `last_status` is the status-change log of the statuses read so far |
| TestRunWait.WaitForTestRun | scripts/hamming_wait_test_run.py:20-109 | the loop's outcome is `Wait` with the given or configured timeout; its log is the log built over the iterations it ran; its progress lines are exactly those of the iterations it ran, in order |
| TestRunWait.WaitExitCode | scripts/hamming_wait_test_run.py:140-145 | exit 0 exactly for COMPLETED or FINISHED, the same success set as the result gate |
| TestRunWait.FinishedRunTimesOut | scripts/hamming_wait_test_run.py:77-142 | a run that stays FINISHED, which both exit rules count as success, is polled until it times out and then exits 1 |
| TestRunWait.TimeoutArgument | scripts/hamming_wait_test_run.py:121-126 | the second argument when `int` accepts it, otherwise the configured timeout |
| TestRunWait.TimeoutArgumentRoundTrip | scripts/hamming_wait_test_run.py:123-126 | an integer argument is used as written when it has at most 4300 digits; a longer one falls back to the configured timeout |
| TestRunWait.WaitMain | scripts/hamming_wait_test_run.py:112-145 | exit 1 without a run id or an API key; otherwise the exit code of the payload the wait returns |
| TestRunLaunch.TestConfigurations | scripts/hamming_run_test.py:49-55 | one configuration per tag when tags are given, else one per test case when those are given, else none |
| TestRunLaunch.ConfigurationsSelectIds | scripts/hamming_run_test.py:50-54 | the configurations select exactly the given ids, in order, and only of one kind |
| TestRunLaunch.RunTest | scripts/hamming_run_test.py:24-91 | a selection failure is reported first; with a valid selection, a phone failure is reported next; success needs both checks passed |
| TestRunLaunch.InvalidInputNeverReachesSdk | scripts/hamming_run_test.py:43-72 | with a bad selection or a bad phone number the outcome does not depend on the SDK at all |
| TestRunLaunch.ValidInputSendsRequest | scripts/hamming_run_test.py:46-87 | the request carries the stripped phone numbers and one configuration per selected id; an SDK error becomes the error; a response with a queued-run list returns its run id |
| TestRunLaunch.NoQueuedRunsOnlyWarns | scripts/hamming_run_test.py:75-87 | zero queued runs only warns: the run id is still returned |
| TestRunLaunch.RunMain | scripts/hamming_run_test.py:94-125 | exit 1 when the configuration check fails, and then when the parsed phone list is missing or empty; otherwise exit 0 exactly when `run_test` succeeds, with the run id as the only output. An error is logged exactly when the exit code is 1: the configuration report, or "No phone numbers provided", or the `run_test` error line. That line is logged once for a bad selection or phone number, which is raised before `run_test`'s `try`, and twice for an SDK failure, which `run_test` logs before re-raising |
| TestRunLaunch.BothSelectorsRejectedLater | scripts/hamming_run_test.py:98-118 | both selectors set passes the configuration check but fails the selection rule |
| TestRunLaunch.SeparatorOnlySelectorSelectsNothing | hamming_workflow_v2/utils.py:19-29 | a non-empty selector of only commas and whitespace passes the configuration check but selects nothing; with the other selector unset or of that form too, the selection rule fails |
| TestRunLaunch.SelectionLinesDiffer | hamming_workflow_v2/utils.py:26-29 | the error lines of the two selection failures differ |
| TestRunLaunch.PhoneLinesDistinct | scripts/hamming_run_test.py:123-125 | two malformed numbers give the same error line only when they are the same number |
| TestRunLaunch.ErrorLineNamesNumber | hamming_workflow_v2/utils.py:40 | the error line for a malformed number ends with the stripped number |

## Left out

- HTTP requests and the vendor SDK are not modelled as code. Their replies are inputs: the trace of observations, and the `createRun` function parameter.
- Reading the clock and `time.sleep` are left out. Elapsed time is part of each observation. The poll interval is never used, because the trace already fixes when each iteration starts.
- The `while True` loop is not proved to terminate, since the code does not guarantee it (the interval may be 0 and the clock is outside). The model runs over a finite trace. `StillWaiting` means the trace ended before the loop did.
- Loading `.env` files, and reading `MIN_TEST_PASS_RATE` and `MIN_ASSERTION_PASS_RATE` with `float(...)`, are left out. The thresholds are exact reals passed in, and floating-point rounding is left out.
- JSON decoding and encoding, and the validation of the results model, are left out. That model is imported but not part of this model. A payload is either parsed or not.
  - A body that is not JSON counts as a failed request. `requests` reports that as a `RequestException`, which the poller catches.
  - A status field holding JSON `null`, and a results body without a `summary`, are not represented.
  - A progress result without a `status` (read there as "UNKNOWN") is not represented either.
- Log messages, the report's text and `:.1%` formatting are not modelled as text. The exceptions are the error lines `main` logs (`TestRunLaunch.RunMain`, with `TestRunLaunch.ErrorLine` for a failed `run_test`) and the poller's status log and progress tallies, which are data. The report is structured data: rate lines, and failed cases with their failed assertions. The test-case links in the report are built by `Utils.TestCaseUrl` but are not part of it.
- `print` of the results JSON by the poller is left out.
- Text.ParseInt: accepts ASCII digits with one optional sign only. Python's `int` also accepts underscores between digits and non-ASCII decimal digits. The characters skipped around the number follow CPython: every `isspace` character except U+001C..U+001F. CPython turns the `isspace` characters at or above U+0080 into spaces and then skips only space, `\t`, `\n`, `\v`, `\f` and `\r`. The digit limit is CPython's default of 4300 (`sys.get_int_max_str_digits()`, from Python 3.11 and the security releases of 3.7-3.10). Older interpreters have no limit, and a raised limit through `PYTHONINTMAXSTRDIGITS` or `sys.set_int_max_str_digits` is not modelled.
- Exceptions other than `requests` exceptions inside the poll loop are left out. An example is a status body that is JSON but not an object. Such exceptions propagate to `main`, which exits 1.
- TestRunLaunch.RunTest: a response without a queued-run list is modelled as the `TypeError` that the later `len(...)` raises. Its text is the usual CPython message. The warning logged just before that error is not recorded.
