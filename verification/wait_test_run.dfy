/** The poller: waits for a test run to reach a terminal status, polling the
    status endpoint once per loop iteration, and hands back the run's results
    or a made-up payload saying why it stopped. The clock and the HTTP
    replies of each iteration arrive as a finite trace of observations. */
module TestRunWait {
  import opened Wrappers
  import opened Text
  import opened Payload
  import opened Configuration
  import opened ResultGate

  // ----- one loop iteration, as observed -----

  /** The outcome of one HTTP request: it raised, or it came back with a
      status code and a body. */
  datatype Reply<T> = RequestFailed | Response(code: int, body: T)

  /** What one iteration of the loop sees: the seconds elapsed when it starts,
      the reply of the status endpoint (its body is the `status` field, if
      any) and the reply of the results endpoint, used only when that
      iteration fetches results. */
  datatype Observation = Observation(elapsed: real, status: Reply<Option<string>>, results: Reply<TestRunResults>)

  /** The codes `raise_for_status` raises for. */
  predicate IsHttpError(code: int) {
    400 <= code < 600
  }

  /** The statuses that end the loop. */
  const TerminalStatuses: set<string> := {Completed, Failed, Canceled}

  /** The status read in an iteration, if it gets that far: not past the
      timeout, the request answered, neither 404 nor an HTTP error. A missing
      field reads as "UNKNOWN". */
  function ReadStatus(timeout: int, o: Observation): Option<string> {
    if o.elapsed > timeout as real then None
    else match o.status
      case RequestFailed => None
      case Response(code, field) =>
        if code == 404 || IsHttpError(code) then None else Some(field.GetOr(Unknown))
  }

  /** Why an iteration ends the wait. */
  datatype StepEnd = TimedOut | RunNotFound | Fetched(payload: TestRunResults)

  /** The effect of one iteration: `None` when the loop sleeps and polls again. */
  function Step(timeout: int, o: Observation): Option<StepEnd> {
    if o.elapsed > timeout as real then Some(TimedOut)
    else if o.status.Response? && o.status.code == 404 then Some(RunNotFound)
    else match ReadStatus(timeout, o)
      case None => None
      case Some(s) =>
        if s in TerminalStatuses && o.results.Response? && !IsHttpError(o.results.code)
        then Some(Fetched(o.results.body))
        else None
  }

  function TimeoutPayload(testRunId: string): TestRunResults {
    TestRunResults(Summary(testRunId, Timeout, Some("Timeout waiting for test completion")), [])
  }

  function NotFoundPayload(testRunId: string): TestRunResults {
    TestRunResults(Summary(testRunId, NotFound, Some("Test run not found")), [])
  }

  /** The payload `wait_for_test_run` returns for each way of ending. */
  function EndPayload(testRunId: string, e: StepEnd): TestRunResults {
    match e
    case TimedOut => TimeoutPayload(testRunId)
    case RunNotFound => NotFoundPayload(testRunId)
    case Fetched(p) => p
  }

  // ----- the whole wait, as specification -----

  /** The loop either returned a payload in iteration `at`, or was still
      polling when the trace ran out. */
  datatype WaitOutcome = StillWaiting | Returned(payload: TestRunResults, at: nat)

  /** The loop over a trace: the first iteration that ends the wait decides
      the payload; the trace ending first leaves it still waiting. */
  function Wait(testRunId: string, timeout: int, trace: seq<Observation>): (r: WaitOutcome)
    ensures r.Returned? ==> r.at < |trace|
  {
    if trace == [] then StillWaiting
    else match Step(timeout, trace[0])
      case Some(e) => Returned(EndPayload(testRunId, e), 0)
      case None =>
        match Wait(testRunId, timeout, trace[1..])
        case StillWaiting => StillWaiting
        case Returned(p, at) => Returned(p, at + 1)
  }

  /** The wait is still going exactly when no iteration ends it; otherwise it
      returned in the first iteration that ends it, with that iteration's
      payload. */
  lemma {:induction false} WaitFirstEnd(testRunId: string, timeout: int, trace: seq<Observation>)
    ensures var r := Wait(testRunId, timeout, trace);
      && (r.StillWaiting? <==> forall k :: 0 <= k < |trace| ==> Step(timeout, trace[k]).None?)
      && (r.Returned? ==>
           && r.at < |trace|
           && Step(timeout, trace[r.at]).Some?
           && r.payload == EndPayload(testRunId, Step(timeout, trace[r.at]).value)
           && forall k :: 0 <= k < r.at ==> Step(timeout, trace[k]).None?)
  {
    if trace != [] && Step(timeout, trace[0]).None? {
      WaitFirstEnd(testRunId, timeout, trace[1..]);
      assert forall k :: 1 <= k < |trace| ==> trace[k] == trace[1..][k - 1];
    }
  }

  /** Traces whose iterations end (or do not end) the wait the same way give
      the same outcome. */
  lemma {:induction false} WaitDependsOnlyOnSteps(testRunId: string, timeout: int, t1: seq<Observation>, t2: seq<Observation>)
    requires |t1| == |t2|
    requires forall k :: 0 <= k < |t1| ==> Step(timeout, t1[k]) == Step(timeout, t2[k])
    ensures Wait(testRunId, timeout, t1) == Wait(testRunId, timeout, t2)
  {
    if t1 != [] {
      assert Step(timeout, t1[0]) == Step(timeout, t2[0]);
      WaitDependsOnlyOnSteps(testRunId, timeout, t1[1..], t2[1..]);
    }
  }

  /** The first iteration that ends the wait decides the outcome. */
  lemma WaitEndsAt(testRunId: string, timeout: int, trace: seq<Observation>, i: nat)
    requires i < |trace| && Step(timeout, trace[i]).Some?
    requires forall k :: 0 <= k < i ==> Step(timeout, trace[k]).None?
    ensures Wait(testRunId, timeout, trace) == Returned(EndPayload(testRunId, Step(timeout, trace[i]).value), i)
  {
    WaitFirstEnd(testRunId, timeout, trace);
    var r := Wait(testRunId, timeout, trace);
    assert r.Returned?;
  }

  /** One more iteration adds the status it read, if any, to those read. */
  lemma ObservedStep(timeout: int, trace: seq<Observation>, i: nat)
    requires i < |trace|
    ensures ReadStatus(timeout, trace[i]).None? ==> ObservedStatuses(timeout, trace[..i + 1]) == ObservedStatuses(timeout, trace[..i])
    ensures ReadStatus(timeout, trace[i]).Some? ==>
      ObservedStatuses(timeout, trace[..i + 1]) == ObservedStatuses(timeout, trace[..i]) + [ReadStatus(timeout, trace[i]).value]
  {
    assert trace[..i + 1][..i] == trace[..i];
  }

  /** The log after the first `n` iterations, built iteration by iteration
      as the loop builds it. */
  function LogAfter(timeout: int, trace: seq<Observation>, n: nat): seq<string>
    requires n <= |trace|
  {
    if n == 0 then []
    else match ReadStatus(timeout, trace[n - 1])
      case None => LogAfter(timeout, trace, n - 1)
      case Some(s) => NextLog(LogAfter(timeout, trace, n - 1), s)
  }

  /** Built iteration by iteration, the log is the status-change log of the
      statuses read so far. */
  lemma {:induction false} LogAfterIsStatusLog(timeout: int, trace: seq<Observation>, n: nat)
    requires n <= |trace|
    ensures LogAfter(timeout, trace, n) == StatusLog(ObservedStatuses(timeout, trace[..n]))
  {
    if n > 0 {
      var before := ObservedStatuses(timeout, trace[..n - 1]);
      LogAfterIsStatusLog(timeout, trace, n - 1);
      ObservedStep(timeout, trace, n - 1);
      match ReadStatus(timeout, trace[n - 1])
      case None =>
      case Some(s) => StatusLogStep(before, s);
    }
  }

  /** The number of iterations the loop runs on `trace`. */
  function Iterations(outcome: WaitOutcome, traceLength: nat): nat {
    if outcome.Returned? then outcome.at + 1 else traceLength
  }

  /** The statuses read, iteration by iteration. */
  function ObservedStatuses(timeout: int, trace: seq<Observation>): seq<string>
  {
    if trace == [] then []
    else
      ObservedStatuses(timeout, trace[..|trace| - 1])
      + match ReadStatus(timeout, trace[|trace| - 1]) case Some(s) => [s] case None => []
  }

  /** The status logged last, if any: what `last_status` holds. */
  function LastLogged(log: seq<string>): Option<string> {
    if log == [] then None else Some(log[|log| - 1])
  }

  /** The log after reading `s`: `s` is appended when it differs from the
      status logged last. */
  function NextLog(log: seq<string>, s: string): seq<string> {
    if LastLogged(log) == Some(s) then log else log + [s]
  }

  /** The status changes logged: a status is logged when it differs from the
      previous one logged, starting from none. */
  function StatusLog(ss: seq<string>): seq<string>
  {
    if ss == [] then [] else NextLog(StatusLog(ss[..|ss| - 1]), ss[|ss| - 1])
  }

  /** The log is no longer than the statuses read, and ends with the last
      status read. */
  lemma {:induction false} StatusLogShape(ss: seq<string>)
    ensures |StatusLog(ss)| <= |ss|
    ensures ss != [] ==> LastLogged(StatusLog(ss)) == Some(ss[|ss| - 1])
  {
    if ss != [] {
      StatusLogShape(ss[..|ss| - 1]);
    }
  }

  lemma StatusLogStep(ss: seq<string>, s: string)
    ensures StatusLog(ss + [s]) == NextLog(StatusLog(ss), s)
  {
    assert (ss + [s])[..|ss|] == ss;
  }

  /** The log never holds the same status twice in a row. */
  lemma {:induction false} StatusLogNoRepeats(ss: seq<string>)
    ensures forall k :: 0 < k < |StatusLog(ss)| ==> StatusLog(ss)[k - 1] != StatusLog(ss)[k]
  {
    if ss != [] {
      StatusLogNoRepeats(ss[..|ss| - 1]);
    }
  }

  /** The log holds exactly the statuses read: none invented, none missed. */
  lemma {:induction false} StatusLogSameStatuses(ss: seq<string>, s: string)
    ensures s in StatusLog(ss) <==> s in ss
  {
    if ss != [] {
      var init := ss[..|ss| - 1];
      StatusLogSameStatuses(init, s);
      assert ss == init + [ss[|ss| - 1]];
    }
  }

  // ----- progress -----

  /** The number of runs with status `s`. */
  function Occurrences(runs: seq<TestCaseResult>, s: string): (n: nat)
    ensures n <= |runs|
  {
    if runs == [] then 0
    else Occurrences(runs[..|runs| - 1], s) + (if runs[|runs| - 1].status == s then 1 else 0)
  }

  predicate Distinct(keys: seq<string>) {
    forall i, j :: 0 <= i < j < |keys| ==> keys[i] != keys[j]
  }

  /** The counts of `keys`, added up. */
  function SumOver(keys: seq<string>, counts: map<string, nat>): nat
    requires forall k :: k in keys ==> k in counts
  {
    if keys == [] then 0
    else SumOver(keys[..|keys| - 1], counts) + counts[keys[|keys| - 1]]
  }

  lemma {:induction false} SumOverOtherKey(keys: seq<string>, counts: map<string, nat>, s: string, n: nat)
    requires forall k :: k in keys ==> k in counts
    requires s !in keys
    ensures SumOver(keys, counts[s := n]) == SumOver(keys, counts)
  {
    if keys != [] {
      assert forall k :: k in keys[..|keys| - 1] ==> k in keys;
      SumOverOtherKey(keys[..|keys| - 1], counts, s, n);
    }
  }

  lemma {:induction false} SumOverIncrement(keys: seq<string>, counts: map<string, nat>, s: string)
    requires forall k :: k in keys ==> k in counts
    requires Distinct(keys) && s in keys
    ensures SumOver(keys, counts[s := counts[s] + 1]) == SumOver(keys, counts) + 1
  {
    var init, last := keys[..|keys| - 1], keys[|keys| - 1];
    assert forall k :: k in init ==> k in keys;
    if last == s {
      assert s !in init;
      SumOverOtherKey(init, counts, s, counts[s] + 1);
    } else {
      assert s in init by {
        var i :| 0 <= i < |keys| && keys[i] == s;
        assert init[i] == s;
      }
      SumOverIncrement(init, counts, s);
    }
  }

  /** The statuses of `runs`, each once, in order of first appearance: the
      insertion order of a Python dict filled in that order. */
  function FirstSeen(runs: seq<TestCaseResult>): seq<string> {
    if runs == [] then []
    else
      var seen, s := FirstSeen(runs[..|runs| - 1]), runs[|runs| - 1].status;
      if s in seen then seen else seen + [s]
  }

  /** `counts` has a key for exactly the statuses that occur in `runs`, each
      mapped to its number of runs. */
  ghost predicate CountsOf(runs: seq<TestCaseResult>, counts: map<string, nat>) {
    && (forall s :: s in counts <==> Occurrences(runs, s) > 0)
    && (forall s :: s in counts ==> counts[s] == Occurrences(runs, s))
  }

  /** `order` and `counts` tally `runs`: exact counts, keys listed once each
      in `order` in order of first appearance, the counts adding up to the
      number of runs. */
  ghost predicate Counted(runs: seq<TestCaseResult>, order: seq<string>, counts: map<string, nat>) {
    && CountsOf(runs, counts)
    && order == FirstSeen(runs)
    && Distinct(order)
    && (forall s :: s in order <==> s in counts)
    && SumOver(order, counts) == |runs|
  }

  /** A tally is determined by its runs: two tallies of the same runs agree
      on the key order and on every count. */
  lemma CountedUnique(runs: seq<TestCaseResult>, o1: seq<string>, c1: map<string, nat>, o2: seq<string>, c2: map<string, nat>)
    requires Counted(runs, o1, c1) && Counted(runs, o2, c2)
    ensures o1 == o2 && c1 == c2
  {
    assert c1.Keys == c2.Keys;
  }

  /** One more run: its status's count goes up by one, or starts at one. */
  lemma CountsOfStep(runs: seq<TestCaseResult>, counts: map<string, nat>)
    requires runs != [] && CountsOf(runs[..|runs| - 1], counts)
    ensures var s := runs[|runs| - 1].status;
      CountsOf(runs, counts[s := if s in counts then counts[s] + 1 else 1])
  {
    var r := runs[|runs| - 1];
    var counts' := counts[r.status := if r.status in counts then counts[r.status] + 1 else 1];
    forall s ensures s in counts' <==> Occurrences(runs, s) > 0 {
      assert Occurrences(runs, s) == Occurrences(runs[..|runs| - 1], s) + (if r.status == s then 1 else 0);
    }
    forall s | s in counts' ensures counts'[s] == Occurrences(runs, s) {
      assert Occurrences(runs, s) == Occurrences(runs[..|runs| - 1], s) + (if r.status == s then 1 else 0);
    }
  }

  /** A logged progress line: the number of runs and their tally. */
  datatype Progress = Progress(total: nat, order: seq<string>, counts: map<string, nat>)

  /** `status_counts[s] = status_counts.get(s, 0) + 1` on a progress line:
      a status seen before has its count incremented, a new one is added
      last with a count of one. */
  function Bump(p: Progress, s: string): Progress {
    if s in p.counts then Progress(p.total + 1, p.order, p.counts[s := p.counts[s] + 1])
    else Progress(p.total + 1, p.order + [s], p.counts[s := 1])
  }

  /** The progress line of `runs`, built one run at a time. */
  function Tally(runs: seq<TestCaseResult>): Progress {
    if runs == [] then Progress(0, [], map[])
    else Bump(Tally(runs[..|runs| - 1]), runs[|runs| - 1].status)
  }

  /** A key list that names each key once keeps doing so after a bump. */
  lemma BumpKeys(p: Progress, s: string)
    requires Distinct(p.order) && forall k :: k in p.order <==> k in p.counts
    ensures Distinct(Bump(p, s).order)
    ensures forall k :: k in Bump(p, s).order <==> k in Bump(p, s).counts
  {
    if s in p.counts {
      assert Bump(p, s).counts.Keys == p.counts.Keys;
    } else {
      assert Bump(p, s).counts.Keys == p.counts.Keys + {s};
    }
  }

  /** A bump adds one to the sum of the counts. */
  lemma BumpSum(p: Progress, s: string, n: nat)
    requires Distinct(p.order) && (forall k :: k in p.order <==> k in p.counts) && SumOver(p.order, p.counts) == n
    ensures forall k :: k in Bump(p, s).order ==> k in Bump(p, s).counts
    ensures SumOver(Bump(p, s).order, Bump(p, s).counts) == n + 1
  {
    if s in p.counts {
      SumOverIncrement(p.order, p.counts, s);
    } else {
      SumOverAppend(p.order, p.counts, s);
    }
  }

  /** A new key with a count of one, listed last, adds one to the sum. */
  lemma SumOverAppend(order: seq<string>, counts: map<string, nat>, s: string)
    requires (forall k :: k in order <==> k in counts) && s !in counts
    ensures SumOver(order + [s], counts[s := 1]) == SumOver(order, counts) + 1
  {
    SumOverOtherKey(order, counts, s, 1);
    assert (order + [s])[..|order|] == order;
  }

  /** The tally's counts are exact. */
  lemma {:induction false} TallyCountsOf(runs: seq<TestCaseResult>)
    ensures Tally(runs).total == |runs|
    ensures CountsOf(runs, Tally(runs).counts)
  {
    if runs != [] {
      TallyCountsOf(runs[..|runs| - 1]);
      CountsOfStep(runs, Tally(runs[..|runs| - 1]).counts);
    }
  }

  /** The tally lists each of its keys exactly once. */
  lemma {:induction false} TallyKeys(runs: seq<TestCaseResult>)
    ensures Distinct(Tally(runs).order)
    ensures forall k :: k in Tally(runs).order <==> k in Tally(runs).counts
  {
    if runs != [] {
      TallyKeys(runs[..|runs| - 1]);
      BumpKeys(Tally(runs[..|runs| - 1]), runs[|runs| - 1].status);
    }
  }

  /** The tally's keys come in order of first appearance. */
  lemma {:induction false} TallyFirstSeen(runs: seq<TestCaseResult>)
    ensures Tally(runs).order == FirstSeen(runs)
  {
    if runs != [] {
      TallyFirstSeen(runs[..|runs| - 1]);
      TallyKeys(runs[..|runs| - 1]);
    }
  }

  /** The tally's counts add up to the number of runs. */
  lemma {:induction false} TallySum(runs: seq<TestCaseResult>)
    ensures forall k :: k in Tally(runs).order ==> k in Tally(runs).counts
    ensures SumOver(Tally(runs).order, Tally(runs).counts) == |runs|
  {
    if runs != [] {
      TallySum(runs[..|runs| - 1]);
      TallyKeys(runs[..|runs| - 1]);
      BumpSum(Tally(runs[..|runs| - 1]), runs[|runs| - 1].status, |runs| - 1);
    }
  }

  /** The tally is exact: it counts every run, has a key for exactly the
      statuses present, each with its number of runs, and lists the keys in
      order of first appearance. */
  lemma TallyCounted(runs: seq<TestCaseResult>)
    ensures Tally(runs).total == |runs|
    ensures Counted(runs, Tally(runs).order, Tally(runs).counts)
  {
    TallyCountsOf(runs);
    TallyKeys(runs);
    TallyFirstSeen(runs);
    TallySum(runs);
  }

  /** The per-status tally of a progress line: how many runs have each
      status, keys in order of first appearance. */
  method CountByStatus(runs: seq<TestCaseResult>) returns (order: seq<string>, counts: map<string, nat>)
    ensures Progress(|runs|, order, counts) == Tally(runs)
  {
    order, counts := [], map[];
    var i := 0;
    while i < |runs|
      invariant 0 <= i <= |runs|
      invariant Progress(i, order, counts) == Tally(runs[..i])
    {
      var status := runs[i].status;
      assert runs[..i + 1][..i] == runs[..i];
      if status in counts {
        counts := counts[status := counts[status] + 1];
      } else {
        counts := counts[status := 1];
        order := order + [status];
      }
      i := i + 1;
    }
    assert runs[..i] == runs;
  }

  /** The runs an iteration logs progress for: those of a RUNNING run whose
      results fetch answered 200 with a non-empty list. */
  function ProgressRuns(timeout: int, o: Observation): Option<seq<TestCaseResult>> {
    if ReadStatus(timeout, o) == Some(Running) && o.results.Response? && o.results.code == 200 && o.results.body.results != []
    then Some(o.results.body.results)
    else None
  }

  /** The progress lines of the first `n` iterations, in order. */
  function ProgressAfter(timeout: int, trace: seq<Observation>, n: nat): seq<Progress>
    requires n <= |trace|
  {
    if n == 0 then []
    else match ProgressRuns(timeout, trace[n - 1])
      case None => ProgressAfter(timeout, trace, n - 1)
      case Some(runs) => ProgressAfter(timeout, trace, n - 1) + [Tally(runs)]
  }

  /** At most one progress line per iteration, each of at least one run. */
  lemma {:induction false} ProgressAfterShape(timeout: int, trace: seq<Observation>, n: nat)
    requires n <= |trace|
    ensures |ProgressAfter(timeout, trace, n)| <= n
    ensures forall k :: 0 <= k < |ProgressAfter(timeout, trace, n)| ==> ProgressAfter(timeout, trace, n)[k].total > 0
  {
    if n > 0 {
      ProgressAfterShape(timeout, trace, n - 1);
      match ProgressRuns(timeout, trace[n - 1])
      case None =>
      case Some(runs) => TallyCounted(runs);
    }
  }

  /** An iteration that ends the wait logs no progress. */
  lemma EndingStepLogsNoProgress(timeout: int, trace: seq<Observation>, i: nat)
    requires i < |trace| && Step(timeout, trace[i]).Some?
    ensures ProgressAfter(timeout, trace, i + 1) == ProgressAfter(timeout, trace, i)
  {
  }

  // ----- the loop -----

  /** One pass through the `try` block of the loop, once the timeout check
      has passed: the status request and what follows from its reply. It
      gives the payload to return when the pass ends the wait, the status
      read (which the loop logs when it changed) and the progress line of a
      RUNNING run, if one was logged. */
  method PollOnce(testRunId: string, timeout: int, o: Observation)
    returns (ended: Option<TestRunResults>, read: Option<string>, line: Option<Progress>)
    requires o.elapsed <= timeout as real
    ensures ended.Some? <==> Step(timeout, o).Some?
    ensures ended.Some? ==> ended.value == EndPayload(testRunId, Step(timeout, o).value)
    ensures read == ReadStatus(timeout, o)
    ensures line.Some? <==> read == Some(Running) && o.results.Response? && o.results.code == 200 && o.results.body.results != []
    ensures line.Some? ==> line.value == Tally(o.results.body.results)
  {
    ended, read, line := None, None, None;
    if o.status.RequestFailed? {
      return;
    }
    if o.status.code == 404 {
      return Some(NotFoundPayload(testRunId)), None, None;
    }
    if IsHttpError(o.status.code) {
      return;
    }
    var current := o.status.body.GetOr(Unknown);
    read := Some(current);
    if current in TerminalStatuses {
      if o.results.Response? && !IsHttpError(o.results.code) {
        ended := Some(o.results.body);
      }
      return;
    }
    if current == Running && o.results.Response? && o.results.code == 200 && o.results.body.results != [] {
      var runs := o.results.body.results;
      var order, counts := CountByStatus(runs);
      line := Some(Progress(|runs|, order, counts));
    }
  }

  /** `wait_for_test_run`: the explicit timeout, or the configured one when
      none is given, then one iteration per observation until one ends the
      wait. Alongside the outcome come the statuses it logged and the
      progress lines of RUNNING iterations whose progress fetch answered 200
      with a non-empty list. */
  method WaitForTestRun(testRunId: string, timeoutSeconds: Option<int>, configuredTimeout: int, trace: seq<Observation>)
    returns (outcome: WaitOutcome, log: seq<string>, progress: seq<Progress>)
    ensures outcome == Wait(testRunId, timeoutSeconds.GetOr(configuredTimeout), trace)
    ensures log == LogAfter(timeoutSeconds.GetOr(configuredTimeout), trace, Iterations(outcome, |trace|))
    ensures progress == ProgressAfter(timeoutSeconds.GetOr(configuredTimeout), trace, Iterations(outcome, |trace|))
  {
    var timeout := if timeoutSeconds.None? then configuredTimeout else timeoutSeconds.value;
    var lastStatus: Option<string> := None;
    log, progress := [], [];
    var i := 0;
    while i < |trace|
      invariant 0 <= i <= |trace|
      invariant forall k :: 0 <= k < i ==> Step(timeout, trace[k]).None?
      invariant log == LogAfter(timeout, trace, i) && lastStatus == LastLogged(log)
      invariant progress == ProgressAfter(timeout, trace, i)
    {
      if trace[i].elapsed > timeout as real {
        WaitEndsAt(testRunId, timeout, trace, i);
        EndingStepLogsNoProgress(timeout, trace, i);
        return Returned(TimeoutPayload(testRunId), i), log, progress;
      }
      var ended, read, line := PollOnce(testRunId, timeout, trace[i]);
      if read.Some? && read != lastStatus {
        log := log + [read.value];
        lastStatus := read;
      }
      if ended.Some? {
        WaitEndsAt(testRunId, timeout, trace, i);
        EndingStepLogsNoProgress(timeout, trace, i);
        return Returned(ended.value, i), log, progress;
      }
      if line.Some? {
        progress := progress + [line.value];
      }
      i := i + 1;
    }
    WaitFirstEnd(testRunId, timeout, trace);
    return StillWaiting, log, progress;
  }

  // ----- properties of the wait -----

  /** The timeout check is strict: at exactly the timeout the loop still
      polls, and only past it does it give up. */
  lemma TimeoutIsStrict(timeout: int, o: Observation)
    ensures Step(timeout, o) == Some(TimedOut) <==> o.elapsed > timeout as real
    ensures o.elapsed == timeout as real ==> Step(timeout, o) != Some(TimedOut)
  {
  }

  /** A 404 from the status endpoint ends the wait in that very iteration. */
  lemma NotFoundEndsAtOnce(testRunId: string, timeout: int, trace: seq<Observation>, k: nat)
    requires k < |trace| && forall j :: 0 <= j < k ==> Step(timeout, trace[j]).None?
    requires trace[k].elapsed <= timeout as real
    requires trace[k].status.Response? && trace[k].status.code == 404
    ensures Wait(testRunId, timeout, trace) == Returned(NotFoundPayload(testRunId), k)
  {
    WaitEndsAt(testRunId, timeout, trace, k);
  }

  /** A terminal status whose results fetch succeeds returns the fetched
      payload unchanged. */
  lemma TerminalReturnsFetched(testRunId: string, timeout: int, o: Observation, s: string)
    requires ReadStatus(timeout, o) == Some(s) && s in TerminalStatuses
    requires o.results.Response? && !IsHttpError(o.results.code)
    ensures Wait(testRunId, timeout, [o]) == Returned(o.results.body, 0)
  {
  }

  /** A failed status request, an HTTP error other than 404 and a failed
      results fetch after a terminal status all lead to another poll. */
  lemma ErrorsRetry(timeout: int, o: Observation)
    requires o.elapsed <= timeout as real
    requires || o.status.RequestFailed?
             || (o.status.Response? && o.status.code != 404 && IsHttpError(o.status.code))
             || o.results.RequestFailed?
             || (o.results.Response? && IsHttpError(o.results.code))
    requires o.status.Response? ==> o.status.code != 404
    ensures Step(timeout, o) == None
  {
  }

  /** Every status outside COMPLETED, FAILED and CANCELED keeps the loop
      polling; a missing status reads as UNKNOWN, which is one of them. */
  lemma NonTerminalKeepsPolling(timeout: int, o: Observation)
    requires ReadStatus(timeout, o).Some? && ReadStatus(timeout, o).value !in TerminalStatuses
    ensures Step(timeout, o) == None
    ensures o.status.body.None? ==> ReadStatus(timeout, o) == Some(Unknown)
  {
  }

  /** What the progress fetch of a non-terminal iteration returns, or
      whether it fails, never changes the outcome. */
  lemma ProgressFetchIrrelevant(testRunId: string, timeout: int, trace: seq<Observation>, k: nat, reply: Reply<TestRunResults>)
    requires k < |trace|
    requires ReadStatus(timeout, trace[k]).Some? && ReadStatus(timeout, trace[k]).value !in TerminalStatuses
    ensures Wait(testRunId, timeout, trace[k := trace[k].(results := reply)]) == Wait(testRunId, timeout, trace)
  {
    var changed := trace[k := trace[k].(results := reply)];
    assert ReadStatus(timeout, changed[k]) == ReadStatus(timeout, trace[k]);
    WaitDependsOnlyOnSteps(testRunId, timeout, changed, trace);
  }

  // ----- the command -----

  /** The exit code `main` derives from the returned payload: 0 for
      COMPLETED or FINISHED, 1 for anything else. */
  function WaitExitCode(p: TestRunResults): (code: int)
    ensures code == 0 <==> AcceptedStatus(p.summary.status)
    ensures code == 0 || code == 1
  {
    if p.summary.status in [Completed, Finished] then 0 else 1
  }

  /** A run stuck at FINISHED: FINISHED counts as success for the exit code
      but is not a terminal status, so the loop keeps polling until it times
      out, and the command then exits 1. */
  lemma FinishedRunTimesOut(testRunId: string, timeout: int, trace: seq<Observation>)
    requires |trace| > 0
    requires forall k :: 0 <= k < |trace| - 1 ==> ReadStatus(timeout, trace[k]) == Some(Finished)
    requires trace[|trace| - 1].elapsed > timeout as real
    ensures AcceptedStatus(Finished)
    ensures Wait(testRunId, timeout, trace) == Returned(TimeoutPayload(testRunId), |trace| - 1)
    ensures WaitExitCode(TimeoutPayload(testRunId)) == 1
  {
    forall k | 0 <= k < |trace| - 1 ensures Step(timeout, trace[k]).None? {
      NonTerminalKeepsPolling(timeout, trace[k]);
    }
  }

  /** The timeout `main` passes: the second argument when `int` accepts it,
      otherwise the configured one. */
  function TimeoutArgument(argv: seq<string>, configuredTimeout: int): (t: int)
    ensures |argv| > 2 && ParseInt(argv[2]).None? ==> t == configuredTimeout
    ensures |argv| <= 2 ==> t == configuredTimeout
    ensures |argv| > 2 ==> forall n :: ParseInt(argv[2]) == Some(n) ==> t == n
  {
    if |argv| > 2 && ParseInt(argv[2]).Some? then ParseInt(argv[2]).value else configuredTimeout
  }

  /** A timeout argument given as an integer is used as it was written,
      unless it has more digits than `int` reads. */
  lemma TimeoutArgumentRoundTrip(argv: seq<string>, configuredTimeout: int, n: int)
    requires |argv| > 2 && argv[2] == IntToString(n)
    ensures TimeoutArgument(argv, configuredTimeout) ==
      if |NatToString(if n < 0 then -n else n)| <= MaxIntDigits then n else configuredTimeout
  {
    ParseIntToString(n);
  }

  /** `main`: exit 1 without a run id or API key, otherwise wait with the
      chosen timeout and exit by the returned status. `None` is a wait still
      polling when the trace ends. */
  method WaitMain(argv: seq<string>, c: Config, trace: seq<Observation>) returns (exitCode: Option<int>)
    ensures |argv| < 2 || !IsSet(c.apiKey) ==> exitCode == Some(1)
    ensures |argv| >= 2 && IsSet(c.apiKey) ==>
      var outcome := Wait(argv[1], TimeoutArgument(argv, c.timeoutSeconds), trace);
      exitCode == if outcome.StillWaiting? then None else Some(WaitExitCode(outcome.payload))
  {
    if |argv| < 2 {
      return Some(1);
    }
    var testRunId := argv[1];
    var timeout := c.timeoutSeconds;
    if |argv| > 2 {
      var parsed := ParseInt(argv[2]);
      if parsed.Some? {
        timeout := parsed.value;
      }
    }
    if !IsSet(c.apiKey) {
      return Some(1);
    }
    var outcome, _, _ := WaitForTestRun(testRunId, Some(timeout), c.timeoutSeconds, trace);
    if outcome.StillWaiting? {
      return None;
    }
    return Some(WaitExitCode(outcome.payload));
  }
}
