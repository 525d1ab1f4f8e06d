/** The launcher: checks the selection and the phone numbers, builds the
    create-run request with one test configuration per selected id and
    hands it to the vendor SDK, whose call is a parameter here. */
module TestRunLaunch {
  import opened Wrappers
  import opened Text
  import opened Utils
  import opened Configuration

  /** One entry of `test_configurations`: `{"tagId": ...}` or `{"testCaseId": ...}`. */
  datatype TestConfiguration = ByTag(tagId: string) | ByTestCase(testCaseId: string)

  /** The request object handed to the SDK. */
  datatype CreateRequest = CreateRequest(agentId: string, phoneNumbers: seq<string>, testConfigurations: seq<TestConfiguration>)

  /** The SDK's answer; `testCaseRuns` may be missing. */
  datatype SdkResponse = SdkResponse(testRunId: string, resultsUrl: string, testCaseRuns: Option<seq<string>>)

  /** Why `run_test` raised. */
  datatype RunError =
    | InvalidSelection(selection: SelectionError)
    | InvalidPhone(number: string)
    | CreationFailed(reason: string)

  /** A created run: its id, and whether the "no test cases" warning was logged. */
  datatype Launched = Launched(testRunId: string, warnedNoTestCases: bool)

  /** The configurations for the selected ids: one per tag when tags are
      given, else one per test case when those are given, else none. */
  function TestConfigurations(tagIds: Option<seq<string>>, testCaseIds: Option<seq<string>>): (cs: seq<TestConfiguration>)
    ensures Given(tagIds) ==> |cs| == |tagIds.value|
    ensures !Given(tagIds) && Given(testCaseIds) ==> |cs| == |testCaseIds.value|
    ensures !Given(tagIds) && !Given(testCaseIds) ==> cs == []
  {
    if Given(tagIds) then seq(|tagIds.value|, i requires 0 <= i < |tagIds.value| => ByTag(tagIds.value[i]))
    else if Given(testCaseIds) then seq(|testCaseIds.value|, i requires 0 <= i < |testCaseIds.value| => ByTestCase(testCaseIds.value[i]))
    else []
  }

  /** The tag ids a list of configurations selects, in order. */
  function TagIdsOf(cs: seq<TestConfiguration>): seq<string> {
    if cs == [] then []
    else (if cs[0].ByTag? then [cs[0].tagId] else []) + TagIdsOf(cs[1..])
  }

  /** The test-case ids a list of configurations selects, in order. */
  function TestCaseIdsOf(cs: seq<TestConfiguration>): seq<string> {
    if cs == [] then []
    else (if cs[0].ByTestCase? then [cs[0].testCaseId] else []) + TestCaseIdsOf(cs[1..])
  }

  lemma {:induction false} TagConfigurationsRoundTrip(cs: seq<TestConfiguration>, ids: seq<string>)
    requires |cs| == |ids| && forall i :: 0 <= i < |cs| ==> cs[i] == ByTag(ids[i])
    ensures TagIdsOf(cs) == ids && TestCaseIdsOf(cs) == []
  {
    if cs != [] {
      TagConfigurationsRoundTrip(cs[1..], ids[1..]);
    }
  }

  lemma {:induction false} TestCaseConfigurationsRoundTrip(cs: seq<TestConfiguration>, ids: seq<string>)
    requires |cs| == |ids| && forall i :: 0 <= i < |cs| ==> cs[i] == ByTestCase(ids[i])
    ensures TestCaseIdsOf(cs) == ids && TagIdsOf(cs) == []
  {
    if cs != [] {
      TestCaseConfigurationsRoundTrip(cs[1..], ids[1..]);
    }
  }

  /** The configurations select exactly the given ids, in order and of one
      kind only: tags win over test cases. */
  lemma ConfigurationsSelectIds(tagIds: Option<seq<string>>, testCaseIds: Option<seq<string>>)
    ensures Given(tagIds) ==>
      TagIdsOf(TestConfigurations(tagIds, testCaseIds)) == tagIds.value
      && TestCaseIdsOf(TestConfigurations(tagIds, testCaseIds)) == []
    ensures !Given(tagIds) && Given(testCaseIds) ==>
      TestCaseIdsOf(TestConfigurations(tagIds, testCaseIds)) == testCaseIds.value
      && TagIdsOf(TestConfigurations(tagIds, testCaseIds)) == []
  {
    var cs := TestConfigurations(tagIds, testCaseIds);
    if Given(tagIds) {
      TagConfigurationsRoundTrip(cs, tagIds.value);
    } else if Given(testCaseIds) {
      TestCaseConfigurationsRoundTrip(cs, testCaseIds.value);
    }
  }

  /** What `len(None)` raises when the SDK leaves out the queued runs. */
  const NoRunsListError := "object of type 'NoneType' has no len()"

  /** `run_test`: the selection is checked first, then the phone numbers;
      only then is the request built and sent. An empty list of queued runs
      is only a warning; a missing one makes the later `len` raise. */
  function RunTest(
    agentId: string,
    phoneNumbers: seq<string>,
    tagIds: Option<seq<string>>,
    testCaseIds: Option<seq<string>>,
    createRun: CreateRequest -> Result<SdkResponse, string>): (r: Result<Launched, RunError>)
    ensures ValidateSelectionMethod(tagIds, testCaseIds).Fail? ==>
      r == Err(InvalidSelection(ValidateSelectionMethod(tagIds, testCaseIds).error))
    ensures ValidateSelectionMethod(tagIds, testCaseIds).Pass? && FormatPhones(phoneNumbers).Err? ==>
      r == Err(InvalidPhone(FormatPhones(phoneNumbers).error))
    ensures r.Ok? ==> ValidateSelectionMethod(tagIds, testCaseIds).Pass? && FormatPhones(phoneNumbers).Ok?
  {
    match ValidateSelectionMethod(tagIds, testCaseIds)
    case Fail(e) => Err(InvalidSelection(e))
    case Pass =>
      match FormatPhones(phoneNumbers)
      case Err(number) => Err(InvalidPhone(number))
      case Ok(phones) =>
        match createRun(CreateRequest(agentId, phones, TestConfigurations(tagIds, testCaseIds)))
        case Err(reason) => Err(CreationFailed(reason))
        case Ok(response) =>
          if response.testCaseRuns.None? then Err(CreationFailed(NoRunsListError))
          else Ok(Launched(response.testRunId, response.testCaseRuns.value == []))
  }

  const CreateFailurePrefix := "Failed to create test run: "

  /** The text of the exception `run_test` raises. */
  function ErrorText(e: RunError): string {
    match e
    case InvalidSelection(selection) => SelectionMessage(selection)
    case InvalidPhone(number) => PhoneMessage(number)
    case CreationFailed(reason) => reason
  }

  /** The error line `main` logs when `run_test` raises. `run_test` logs
      the same line itself, before re-raising, only for a failure inside its
      `try` block: an SDK error or the missing queued-run list. */
  function ErrorLine(e: RunError): string {
    CreateFailurePrefix + ErrorText(e)
  }

  lemma PrefixCancels(p: string, a: string, b: string)
    requires p + a == p + b
    ensures a == b
  {
    assert a == (p + a)[|p|..];
    assert b == (p + b)[|p|..];
  }

  /** The two selection failures log different lines. */
  lemma SelectionLinesDiffer()
    ensures ErrorLine(InvalidSelection(BothSelectionMethods)) != ErrorLine(InvalidSelection(NoSelectionMethod))
  {
    assert |SelectionMessage(BothSelectionMethods)| != |SelectionMessage(NoSelectionMethod)|;
  }

  /** Two malformed numbers log the same line only when they are the same
      number. */
  lemma PhoneLinesDistinct(a: string, b: string)
    ensures ErrorLine(InvalidPhone(a)) == ErrorLine(InvalidPhone(b)) <==> a == b
  {
    if ErrorLine(InvalidPhone(a)) == ErrorLine(InvalidPhone(b)) {
      PrefixCancels(CreateFailurePrefix, PhoneMessage(a), PhoneMessage(b));
      PrefixCancels(PhoneErrorPrefix, a, b);
    }
  }

  /** The line logged for a malformed number ends with that number. */
  lemma ErrorLineNamesNumber(number: string)
    ensures var line := ErrorLine(InvalidPhone(number));
      |line| >= |number| && line[|line| - |number|..] == number
  {
    var line := ErrorLine(InvalidPhone(number));
    assert line == (CreateFailurePrefix + PhoneErrorPrefix) + number;
  }

  /** The request `run_test` sends, once both checks have passed. */
  function BuiltRequest(agentId: string, phoneNumbers: seq<string>, tagIds: Option<seq<string>>, testCaseIds: Option<seq<string>>): CreateRequest
    requires FormatPhones(phoneNumbers).Ok?
  {
    CreateRequest(agentId, FormatPhones(phoneNumbers).value, TestConfigurations(tagIds, testCaseIds))
  }

  /** A bad selection or a bad phone number is reported before the SDK is
      reached: the outcome is the same whatever the SDK would do. */
  lemma InvalidInputNeverReachesSdk(
    agentId: string, phoneNumbers: seq<string>, tagIds: Option<seq<string>>, testCaseIds: Option<seq<string>>,
    f: CreateRequest -> Result<SdkResponse, string>, g: CreateRequest -> Result<SdkResponse, string>)
    requires ValidateSelectionMethod(tagIds, testCaseIds).Fail? || FormatPhones(phoneNumbers).Err?
    ensures RunTest(agentId, phoneNumbers, tagIds, testCaseIds, f) == RunTest(agentId, phoneNumbers, tagIds, testCaseIds, g)
    ensures RunTest(agentId, phoneNumbers, tagIds, testCaseIds, f).Err?
    ensures !RunTest(agentId, phoneNumbers, tagIds, testCaseIds, f).error.CreationFailed?
  {
  }

  /** Once both checks pass, the SDK receives the stripped phone numbers and
      one configuration per selected id, and its outcome decides the result:
      a run with a list of queued runs, even an empty one, is returned by
      its id. */
  lemma ValidInputSendsRequest(
    agentId: string, phoneNumbers: seq<string>, tagIds: Option<seq<string>>, testCaseIds: Option<seq<string>>,
    createRun: CreateRequest -> Result<SdkResponse, string>)
    requires ValidateSelectionMethod(tagIds, testCaseIds).Pass? && FormatPhones(phoneNumbers).Ok?
    ensures var request := BuiltRequest(agentId, phoneNumbers, tagIds, testCaseIds);
      && (forall i :: 0 <= i < |phoneNumbers| ==> request.phoneNumbers[i] == Strip(phoneNumbers[i]))
      && |request.phoneNumbers| == |phoneNumbers|
      && (Given(tagIds) ==> TagIdsOf(request.testConfigurations) == tagIds.value)
      && (Given(testCaseIds) ==> TestCaseIdsOf(request.testConfigurations) == testCaseIds.value)
    ensures var response := createRun(BuiltRequest(agentId, phoneNumbers, tagIds, testCaseIds));
      var r := RunTest(agentId, phoneNumbers, tagIds, testCaseIds, createRun);
      && (response.Err? ==> r == Err(CreationFailed(response.error)))
      && (response.Ok? && response.value.testCaseRuns.Some? ==>
            r == Ok(Launched(response.value.testRunId, response.value.testCaseRuns.value == [])))
  {
    ConfigurationsSelectIds(tagIds, testCaseIds);
  }

  /** Zero queued runs is only a warning: the run id is still returned. */
  lemma NoQueuedRunsOnlyWarns(
    agentId: string, phoneNumbers: seq<string>, tagIds: Option<seq<string>>, testCaseIds: Option<seq<string>>,
    createRun: CreateRequest -> Result<SdkResponse, string>)
    requires ValidateSelectionMethod(tagIds, testCaseIds).Pass? && FormatPhones(phoneNumbers).Ok?
    requires var response := createRun(BuiltRequest(agentId, phoneNumbers, tagIds, testCaseIds));
      response.Ok? && response.value.testCaseRuns == Some([])
    ensures RunTest(agentId, phoneNumbers, tagIds, testCaseIds, createRun)
      == Ok(Launched(createRun(BuiltRequest(agentId, phoneNumbers, tagIds, testCaseIds)).value.testRunId, true))
  {
  }

  // ----- the command -----

  const NoPhoneNumbersMessage := "No phone numbers provided"

  /** `main`: the configuration check, then the three comma lists, then the
      phone list must be non-empty, then `run_test`. Exit 1 at the first
      failure; on success the run id is the only output. */
  method RunMain(c: Config, createRun: CreateRequest -> Result<SdkResponse, string>)
    returns (exitCode: int, stdout: Option<string>, errors: seq<string>)
    ensures exitCode == 0 || exitCode == 1
    ensures exitCode == 0 <==> stdout.Some?
    ensures exitCode == 0 <==> errors == []
    ensures !AllRequiredSet(c) ==> exitCode == 1 && errors == [ErrorReport(ConfigErrors(c))]
    ensures AllRequiredSet(c) && !Given(ParseCommaSeparated(c.phoneNumbers)) ==>
      exitCode == 1 && errors == [NoPhoneNumbersMessage]
    ensures AllRequiredSet(c) && Given(ParseCommaSeparated(c.phoneNumbers)) ==>
      var r := RunTest(c.agentId.value, ParseCommaSeparated(c.phoneNumbers).value,
                       ParseCommaSeparated(c.tagIds), ParseCommaSeparated(c.testCaseIds), createRun);
      && (exitCode == 0 <==> r.Ok?)
      && (r.Ok? ==> stdout == Some(r.value.testRunId))
      && (r.Err? && r.error.CreationFailed? ==> errors == [ErrorLine(r.error), ErrorLine(r.error)])
      && (r.Err? && !r.error.CreationFailed? ==> errors == [ErrorLine(r.error)])
  {
    var validation := ValidateRequired(c);
    if validation.Fail? {
      return 1, None, [validation.error];
    }
    var phoneNumbers := ParseCommaSeparated(c.phoneNumbers);
    var tagIds := ParseCommaSeparated(c.tagIds);
    var testCaseIds := ParseCommaSeparated(c.testCaseIds);
    if !Given(phoneNumbers) {
      return 1, None, [NoPhoneNumbersMessage];
    }
    var r := RunTest(c.agentId.value, phoneNumbers.value, tagIds, testCaseIds, createRun);
    if r.Err? {
      errors := if r.error.CreationFailed? then [ErrorLine(r.error)] else [];
      return 1, None, errors + [ErrorLine(r.error)];
    }
    return 0, Some(r.value.testRunId), [];
  }

  /** Setting both selectors passes the configuration check but fails the
      selection rule, so the command exits 1 without reaching the SDK. */
  lemma BothSelectorsRejectedLater(c: Config, createRun: CreateRequest -> Result<SdkResponse, string>)
    requires IsSet(c.apiKey) && IsSet(c.agentId) && IsSet(c.phoneNumbers)
    requires Given(ParseCommaSeparated(c.tagIds)) && Given(ParseCommaSeparated(c.testCaseIds))
    ensures ConfigErrors(c) == []
    ensures RunTest(c.agentId.value, ParseCommaSeparated(c.phoneNumbers).GetOr([]),
                    ParseCommaSeparated(c.tagIds), ParseCommaSeparated(c.testCaseIds), createRun)
      == Err(InvalidSelection(BothSelectionMethods))
  {
    assert !Violates(c, SelectionNotSet);
    assert forall e :: !Violates(c, e);
  }

  /** A selector value that is non-empty but made only of commas and
      whitespace. */
  predicate OnlySeparators(value: Option<string>) {
    && value.Some? && value.value != ""
    && forall i :: 0 <= i < |value.value| ==> value.value[i] == ',' || IsWhitespace(value.value[i])
  }

  /** A selector made only of commas and whitespace is set as far as the
      configuration check goes, yet selects nothing: with the other selector
      unset or made of separators too, the selection rule fails. */
  lemma SeparatorOnlySelectorSelectsNothing(c: Config)
    requires OnlySeparators(c.tagIds) || OnlySeparators(c.testCaseIds)
    requires OnlySeparators(c.tagIds) || !IsSet(c.tagIds)
    requires OnlySeparators(c.testCaseIds) || !IsSet(c.testCaseIds)
    ensures !Violates(c, SelectionNotSet)
    ensures ValidateSelectionMethod(ParseCommaSeparated(c.tagIds), ParseCommaSeparated(c.testCaseIds)) == Fail(NoSelectionMethod)
  {
    if OnlySeparators(c.tagIds) {
      ParseCommaSeparatedOnlySeparators(c.tagIds.value);
    }
    if OnlySeparators(c.testCaseIds) {
      ParseCommaSeparatedOnlySeparators(c.testCaseIds.value);
    }
  }
}
