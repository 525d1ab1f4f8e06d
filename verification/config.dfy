/** Process-wide settings of the workflow: values read from the environment
    once, the required-settings check and the API request headers. */
module Configuration {
  import opened Wrappers
  import opened Text

  const DefaultApiBaseUrl := "https://app.hamming.ai/api/rest"
  const DefaultPollIntervalSeconds := 10
  const DefaultTimeoutSeconds := 600

  /** The settings, as read from the environment. */
  datatype Config = Config(
    apiKey: Option<string>,
    apiBaseUrl: string,
    agentId: Option<string>,
    tagIds: Option<string>,
    testCaseIds: Option<string>,
    phoneNumbers: Option<string>,
    pollIntervalSeconds: int,
    timeoutSeconds: int)

  /** `os.environ.get(name)`. */
  function Lookup(env: map<string, string>, name: string): Option<string> {
    if name in env then Some(env[name]) else None
  }

  /** `int(os.environ.get(name, default))`; a value `int` rejects is an error naming the variable. */
  function IntSetting(env: map<string, string>, name: string, default: string): Result<int, string> {
    match ParseInt(Lookup(env, name).GetOr(default))
    case Some(n) => Ok(n)
    case None => Err(name)
  }

  /** The class attributes of `Config`, read from `env`. Loading fails (the
      import raises) when a numeric setting is not an integer. */
  function FromEnvironment(env: map<string, string>): (r: Result<Config, string>)
    ensures r.Ok? ==>
      && r.value.apiKey == Lookup(env, "HAMMING_API_KEY")
      && r.value.agentId == Lookup(env, "AGENT_ID")
      && r.value.tagIds == Lookup(env, "TAG_IDS")
      && r.value.testCaseIds == Lookup(env, "TEST_CASE_IDS")
      && r.value.phoneNumbers == Lookup(env, "PHONE_NUMBERS")
      && r.value.apiBaseUrl == Lookup(env, "HAMMING_API_BASE_URL").GetOr(DefaultApiBaseUrl)
      && IntSetting(env, "POLL_INTERVAL_SECONDS", "10") == Ok(r.value.pollIntervalSeconds)
      && IntSetting(env, "TIMEOUT_SECONDS", "600") == Ok(r.value.timeoutSeconds)
    ensures r.Err? <==> IntSetting(env, "POLL_INTERVAL_SECONDS", "10").Err? || IntSetting(env, "TIMEOUT_SECONDS", "600").Err?
    ensures r.Err? ==> r.error == if IntSetting(env, "POLL_INTERVAL_SECONDS", "10").Err? then "POLL_INTERVAL_SECONDS" else "TIMEOUT_SECONDS"
  {
    match IntSetting(env, "POLL_INTERVAL_SECONDS", "10")
    case Err(e) => Err(e)
    case Ok(poll) =>
      match IntSetting(env, "TIMEOUT_SECONDS", "600")
      case Err(e) => Err(e)
      case Ok(timeout) =>
        Ok(Config(
          Lookup(env, "HAMMING_API_KEY"),
          Lookup(env, "HAMMING_API_BASE_URL").GetOr(DefaultApiBaseUrl),
          Lookup(env, "AGENT_ID"),
          Lookup(env, "TAG_IDS"),
          Lookup(env, "TEST_CASE_IDS"),
          Lookup(env, "PHONE_NUMBERS"),
          poll,
          timeout))
  }

  /** With none of the three variables set, the base URL, poll interval and
      timeout take their defaults. */
  lemma FromEnvironmentDefaults(env: map<string, string>)
    requires "HAMMING_API_BASE_URL" !in env && "POLL_INTERVAL_SECONDS" !in env && "TIMEOUT_SECONDS" !in env
    ensures FromEnvironment(env).Ok?
    ensures FromEnvironment(env).value.apiBaseUrl == "https://app.hamming.ai/api/rest"
    ensures FromEnvironment(env).value.pollIntervalSeconds == 10
    ensures FromEnvironment(env).value.timeoutSeconds == 600
  {
    assert NatToString(10) == "10";
    assert NatToString(600) == "600" by {
      assert NatToString(60) == "60";
    }
    ParseIntToString(10);
    ParseIntToString(600);
  }

  /** Python truthiness of a setting: set and not the empty string. */
  predicate IsSet(value: Option<string>) {
    value.Some? && value.value != ""
  }

  /** Every required setting is present: the key, the agent, the phone
      numbers and at least one of the two selectors. */
  predicate AllRequiredSet(c: Config) {
    IsSet(c.apiKey) && IsSet(c.agentId) && IsSet(c.phoneNumbers) && (IsSet(c.tagIds) || IsSet(c.testCaseIds))
  }

  /** The conditions `validate_required` reports, in the order it checks them. */
  datatype ConfigError = ApiKeyNotSet | AgentIdNotSet | PhoneNumbersNotSet | SelectionNotSet

  function Rank(e: ConfigError): nat {
    match e
    case ApiKeyNotSet => 0
    case AgentIdNotSet => 1
    case PhoneNumbersNotSet => 2
    case SelectionNotSet => 3
  }

  function Message(e: ConfigError): string {
    match e
    case ApiKeyNotSet => "HAMMING_API_KEY is not set"
    case AgentIdNotSet => "AGENT_ID is not set"
    case PhoneNumbersNotSet => "PHONE_NUMBERS is not set"
    case SelectionNotSet => "Either TAG_IDS or TEST_CASE_IDS must be set"
  }

  /** Whether `c` fails the condition `e` stands for. Setting both selectors
      is not one of them. */
  predicate Violates(c: Config, e: ConfigError) {
    match e
    case ApiKeyNotSet => !IsSet(c.apiKey)
    case AgentIdNotSet => !IsSet(c.agentId)
    case PhoneNumbersNotSet => !IsSet(c.phoneNumbers)
    case SelectionNotSet => !IsSet(c.tagIds) && !IsSet(c.testCaseIds)
  }

  /** Every condition `c` violates, each once, in the fixed order key, agent,
      phones, selection. */
  function ConfigErrors(c: Config): (errors: seq<ConfigError>)
    ensures forall e :: e in errors <==> Violates(c, e)
    ensures forall i, j :: 0 <= i < j < |errors| ==> Rank(errors[i]) < Rank(errors[j])
  {
    (if !IsSet(c.apiKey) then [ApiKeyNotSet] else [])
    + (if !IsSet(c.agentId) then [AgentIdNotSet] else [])
    + (if !IsSet(c.phoneNumbers) then [PhoneNumbersNotSet] else [])
    + (if !IsSet(c.tagIds) && !IsSet(c.testCaseIds) then [SelectionNotSet] else [])
  }

  function Messages(errors: seq<ConfigError>): (r: seq<string>)
    ensures |r| == |errors| && forall i :: 0 <= i < |errors| ==> r[i] == Message(errors[i])
  {
    if errors == [] then [] else [Message(errors[0])] + Messages(errors[1..])
  }

  /** The single error raised for all violated conditions. */
  function ErrorReport(errors: seq<ConfigError>): string {
    "Configuration errors: " + Join(Messages(errors), "; ")
  }

  /** `Config.validate_required`: collects a message per violated condition
      and raises once, with all of them, if there is any. */
  method ValidateRequired(c: Config) returns (r: Outcome<string>)
    ensures r.Pass? <==> AllRequiredSet(c)
    ensures r.Fail? ==> r.error == ErrorReport(ConfigErrors(c))
  {
    var errors: seq<ConfigError> := [];
    if !IsSet(c.apiKey) {
      errors := errors + [ApiKeyNotSet];
    }
    if !IsSet(c.agentId) {
      errors := errors + [AgentIdNotSet];
    }
    if !IsSet(c.phoneNumbers) {
      errors := errors + [PhoneNumbersNotSet];
    }
    if !IsSet(c.tagIds) && !IsSet(c.testCaseIds) {
      errors := errors + [SelectionNotSet];
    }
    assert errors == ConfigErrors(c);
    if errors != [] {
      return Fail(ErrorReport(errors));
    }
    assert !Violates(c, ApiKeyNotSet) && !Violates(c, AgentIdNotSet);
    assert !Violates(c, PhoneNumbersNotSet) && !Violates(c, SelectionNotSet);
    return Pass;
  }

  /** An empty value and a missing one are the same to the check. */
  lemma EmptyCountsAsUnset(c: Config)
    ensures ConfigErrors(c.(apiKey := Some(""))) == ConfigErrors(c.(apiKey := None))
    ensures ConfigErrors(c.(agentId := Some(""))) == ConfigErrors(c.(agentId := None))
    ensures ConfigErrors(c.(phoneNumbers := Some(""))) == ConfigErrors(c.(phoneNumbers := None))
    ensures ConfigErrors(c.(tagIds := Some(""))) == ConfigErrors(c.(tagIds := None))
    ensures ConfigErrors(c.(testCaseIds := Some(""))) == ConfigErrors(c.(testCaseIds := None))
  {
  }

  /** `Config.get_headers`: a JSON content type and a bearer token built from
      the key; an unset key is rendered as Python renders `None`. */
  function GetHeaders(c: Config): (headers: map<string, string>)
    ensures headers.Keys == {"Content-Type", "Authorization"}
    ensures headers["Content-Type"] == "application/json"
    ensures |headers["Authorization"]| >= 7 && headers["Authorization"][..7] == "Bearer "
    ensures c.apiKey.Some? ==> headers["Authorization"][7..] == c.apiKey.value
    ensures c.apiKey.None? ==> headers["Authorization"][7..] == "None"
  {
    map["Content-Type" := "application/json", "Authorization" := "Bearer " + c.apiKey.GetOr("None")]
  }
}
