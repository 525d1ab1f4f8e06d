/** Input parsing and validation helpers of the workflow package: comma
    lists, the exactly-one selection rule, phone-number formatting and the
    web-UI links. */
module Utils {
  import opened Wrappers
  import opened Text

  // ----- UI links -----

  /** Used when HAMMING_UI_BASE_URL is not in the environment. */
  const DefaultUiBaseUrl := "https://app.hamming.ai"

  /** `os.environ.get("HAMMING_UI_BASE_URL", default)`: a variable that is set,
      even to the empty string, wins over the default. */
  function UiBaseUrl(configured: Option<string>): string {
    configured.GetOr(DefaultUiBaseUrl)
  }

  /** The page of a test run: the base, then "/test-runs/", then the id. */
  function TestRunUrl(configured: Option<string>, testRunId: string): (url: string)
    ensures var base := UiBaseUrl(configured);
      && |url| == |base| + 11 + |testRunId|
      && url[..|base|] == base
      && url[|base|..|base| + 11] == "/test-runs/"
      && url[|base| + 11..] == testRunId
  {
    UiBaseUrl(configured) + "/test-runs/" + testRunId
  }

  /** The page of a test case: the base, then "/test-cases/", then the id. */
  function TestCaseUrl(configured: Option<string>, testCaseId: string): (url: string)
    ensures var base := UiBaseUrl(configured);
      && |url| == |base| + 12 + |testCaseId|
      && url[..|base|] == base
      && url[|base|..|base| + 12] == "/test-cases/"
      && url[|base| + 12..] == testCaseId
  {
    UiBaseUrl(configured) + "/test-cases/" + testCaseId
  }

  /** Distinct runs have distinct pages, and so do distinct test cases. */
  lemma UrlsDetermineIds(configured: Option<string>, a: string, b: string)
    ensures TestRunUrl(configured, a) == TestRunUrl(configured, b) ==> a == b
    ensures TestCaseUrl(configured, a) == TestCaseUrl(configured, b) ==> a == b
  {
  }

  /** A run page is never a test-case page. */
  lemma RunUrlIsNotCaseUrl(configured: Option<string>, runId: string, caseId: string)
    ensures TestRunUrl(configured, runId) != TestCaseUrl(configured, caseId)
  {
    var k := |UiBaseUrl(configured)| + 6;
    assert TestRunUrl(configured, runId)[k] == 'r';
    assert TestCaseUrl(configured, caseId)[k] == 'c';
  }

  // ----- comma-separated lists -----

  /** The stripped pieces that are not blank, in their original order. */
  function NonBlankItems(pieces: seq<string>): (items: seq<string>)
    ensures |items| <= |pieces|
    ensures forall i :: 0 <= i < |items| ==> items[i] != "" && IsStripped(items[i])
  {
    if pieces == [] then []
    else
      var t := Strip(pieces[0]);
      StripResult(pieces[0]);
      if t == "" then NonBlankItems(pieces[1..]) else [t] + NonBlankItems(pieces[1..])
  }

  /** A character absent from every piece is absent from every item. */
  lemma {:induction false} NonBlankItemsAvoid(pieces: seq<string>, c: char)
    requires forall p :: p in pieces ==> c !in p
    ensures forall x :: x in NonBlankItems(pieces) ==> c !in x
  {
    if pieces != [] {
      NonBlankItemsAvoid(pieces[1..], c);
      if c in Strip(pieces[0]) {
        StripKeepsCharacters(pieces[0], c);
      }
    }
  }

  /** Blank pieces contribute nothing. */
  lemma {:induction false} NonBlankItemsOfBlank(pieces: seq<string>)
    requires forall p :: p in pieces ==> AllWhitespace(p)
    ensures NonBlankItems(pieces) == []
  {
    if pieces != [] {
      StripResult(pieces[0]);
      NonBlankItemsOfBlank(pieces[1..]);
    }
  }

  /** The non-empty strings of `xs`, in their original order. */
  function NonEmpty(xs: seq<string>): seq<string> {
    if xs == [] then []
    else (if xs[0] == "" then [] else [xs[0]]) + NonEmpty(xs[1..])
  }

  /** A piece is a stripped core, possibly empty, with whitespace on either
      side of it. */
  predicate Padded(piece: string, lead: string, core: string, trail: string) {
    piece == lead + core + trail && AllWhitespace(lead) && AllWhitespace(trail) && IsStripped(core)
  }

  /** Whitespace padding around a stripped core is all that is removed, and
      pieces whose core is empty are dropped. */
  lemma {:induction false} NonBlankItemsPadded(pieces: seq<string>, leads: seq<string>, cores: seq<string>, trails: seq<string>)
    requires |leads| == |pieces| && |cores| == |pieces| && |trails| == |pieces|
    requires forall i :: 0 <= i < |pieces| ==> Padded(pieces[i], leads[i], cores[i], trails[i])
    ensures NonBlankItems(pieces) == NonEmpty(cores)
  {
    if pieces != [] {
      assert Padded(pieces[0], leads[0], cores[0], trails[0]);
      StripPadded(leads[0], cores[0], trails[0]);
      NonBlankItemsPadded(pieces[1..], leads[1..], cores[1..], trails[1..]);
    }
  }

  /** A padded piece holds a comma only if its core does. */
  lemma PaddedWithoutComma(piece: string, lead: string, core: string, trail: string)
    requires Padded(piece, lead, core, trail) && ',' !in core
    ensures ',' !in piece
  {
    assert !IsWhitespace(',');
    forall j | 0 <= j < |piece| ensures piece[j] != ',' {
      if j < |lead| {
        assert piece[j] == lead[j];
      } else if j < |lead| + |core| {
        assert piece[j] == core[j - |lead|];
      } else {
        assert piece[j] == trail[j - |lead| - |core|];
      }
    }
  }

  /** `parse_comma_separated`: `None` for a missing or empty value, otherwise
      the comma-separated items, each stripped, with blank items dropped. */
  function ParseCommaSeparated(value: Option<string>): (r: Option<seq<string>>)
    ensures r.None? <==> value.None? || value.value == ""
    ensures r.Some? ==> forall i :: 0 <= i < |r.value| ==> r.value[i] != "" && IsStripped(r.value[i]) && ',' !in r.value[i]
  {
    if value.None? || value.value == "" then None
    else
      var pieces := Split(value.value, ',');
      SplitPieces(value.value, ',');
      NonBlankItemsAvoid(pieces, ',');
      Some(NonBlankItems(pieces))
  }

  /** Joining pieces with commas and parsing gives back the pieces' cores,
      in order, whatever whitespace surrounds them, with the blank pieces
      dropped: the parser keeps the input order and loses no item. Only a
      value that joins to the empty string is `None`. */
  lemma ParseCommaSeparatedJoin(pieces: seq<string>, leads: seq<string>, cores: seq<string>, trails: seq<string>)
    requires pieces != []
    requires |leads| == |pieces| && |cores| == |pieces| && |trails| == |pieces|
    requires forall i :: 0 <= i < |pieces| ==> Padded(pieces[i], leads[i], cores[i], trails[i]) && ',' !in cores[i]
    ensures ParseCommaSeparated(Some(Join(pieces, ","))) ==
      if Join(pieces, ",") == "" then None else Some(NonEmpty(cores))
  {
    forall p | p in pieces ensures ',' !in p {
      var i :| 0 <= i < |pieces| && pieces[i] == p;
      PaddedWithoutComma(p, leads[i], cores[i], trails[i]);
    }
    SplitJoin(pieces, ',');
    NonBlankItemsPadded(pieces, leads, cores, trails);
  }

  /** A non-empty value made only of commas and whitespace gives an empty
      list, not `None`. */
  lemma ParseCommaSeparatedOnlySeparators(s: string)
    requires s != ""
    requires forall i :: 0 <= i < |s| ==> s[i] == ',' || IsWhitespace(s[i])
    ensures ParseCommaSeparated(Some(s)) == Some([])
  {
    var pieces := Split(s, ',');
    SplitPieces(s, ',');
    forall p | p in pieces ensures AllWhitespace(p) {
      forall i | 0 <= i < |p| ensures IsWhitespace(p[i]) {
        assert p[i] in p && p[i] in s;
      }
    }
    NonBlankItemsOfBlank(pieces);
  }

  // ----- selection method -----

  datatype SelectionError = BothSelectionMethods | NoSelectionMethod

  function SelectionMessage(e: SelectionError): string {
    match e
    case BothSelectionMethods => "Cannot specify both tag_ids and test_case_ids. Choose one selection method."
    case NoSelectionMethod => "Must specify either tag_ids or test_case_ids for test selection."
  }

  /** Python truthiness of an optional list: present and non-empty. */
  predicate Given(ids: Option<seq<string>>) {
    ids.Some? && ids.value != []
  }

  /** `validate_selection_method`: passes exactly when one of the two lists
      is given; an empty list counts as absent. */
  function ValidateSelectionMethod(tagIds: Option<seq<string>>, testCaseIds: Option<seq<string>>): (r: Outcome<SelectionError>)
    ensures r.Pass? <==> Given(tagIds) != Given(testCaseIds)
    ensures r == Fail(BothSelectionMethods) <==> Given(tagIds) && Given(testCaseIds)
    ensures r == Fail(NoSelectionMethod) <==> !Given(tagIds) && !Given(testCaseIds)
  {
    if Given(tagIds) && Given(testCaseIds) then Fail(BothSelectionMethods)
    else if !Given(tagIds) && !Given(testCaseIds) then Fail(NoSelectionMethod)
    else Pass
  }

  // ----- phone numbers -----

  predicate StartsWithPlus(s: string) {
    |s| > 0 && s[0] == '+'
  }

  /** The index of the first number that is not '+'-prefixed once stripped. */
  predicate FirstBadPhone(numbers: seq<string>, k: int) {
    && 0 <= k < |numbers|
    && !StartsWithPlus(Strip(numbers[k]))
    && forall j :: 0 <= j < k ==> StartsWithPlus(Strip(numbers[j]))
  }

  /** What `format_phone_numbers` computes: every number stripped when all
      of them start with '+' once stripped, an error otherwise. */
  function FormatPhones(numbers: seq<string>): (r: Result<seq<string>, string>)
    ensures r.Ok? <==> forall i :: 0 <= i < |numbers| ==> StartsWithPlus(Strip(numbers[i]))
    ensures r.Ok? ==> |r.value| == |numbers| && forall i :: 0 <= i < |numbers| ==> r.value[i] == Strip(numbers[i])
  {
    if numbers == [] then Ok([])
    else
      var n := Strip(numbers[0]);
      if !StartsWithPlus(n) then Err(n)
      else
        match FormatPhones(numbers[1..])
        case Ok(rest) => Ok([n] + rest)
        case Err(e) => Err(e)
  }

  /** The error names the first number that, stripped, lacks the '+'. */
  lemma {:induction false} FormatPhonesNamesFirstBad(numbers: seq<string>, k: int)
    requires FirstBadPhone(numbers, k)
    ensures FormatPhones(numbers) == Err(Strip(numbers[k]))
  {
    if k > 0 {
      assert StartsWithPlus(Strip(numbers[0]));
      FormatPhonesNamesFirstBad(numbers[1..], k - 1);
    }
  }

  const PhoneErrorPrefix := "Phone number must start with '+': "

  /** The error message a malformed number raises. */
  function PhoneMessage(number: string): string {
    PhoneErrorPrefix + number
  }

  /** Formatting a formatted list changes nothing. */
  lemma FormatPhonesIdempotent(numbers: seq<string>)
    requires FormatPhones(numbers).Ok?
    ensures FormatPhones(FormatPhones(numbers).value) == FormatPhones(numbers)
  {
    var out := FormatPhones(numbers).value;
    forall i | 0 <= i < |out| ensures Strip(out[i]) == out[i] {
      StripIdempotent(numbers[i]);
    }
  }

  /** `format_phone_numbers`: strips each number in turn, appending it to the
      output, and raises on the first one that does not start with '+'. */
  method FormatPhoneNumbers(numbers: seq<string>) returns (r: Result<seq<string>, string>)
    ensures r == FormatPhones(numbers)
  {
    var formatted: seq<string> := [];
    var i := 0;
    while i < |numbers|
      invariant 0 <= i <= |numbers| && |formatted| == i
      invariant forall j :: 0 <= j < i ==> formatted[j] == Strip(numbers[j]) && StartsWithPlus(formatted[j])
    {
      var number := Strip(numbers[i]);
      if !StartsWithPlus(number) {
        FormatPhonesNamesFirstBad(numbers, i);
        return Err(number);
      }
      formatted := formatted + [number];
      i := i + 1;
    }
    assert FormatPhones(numbers).Ok?;
    assert FormatPhones(numbers).value == formatted;
    return Ok(formatted);
  }
}
