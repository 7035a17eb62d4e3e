/** The front end's analysis client: the projection of events into the model's
    context, the retry policy on rate limiting and the fixed fallback answer. */
module GeminiService {
  import opened Wrappers
  import opened Text
  import opened Numeric
  import opened UiTypes

  /** One entry of the prompt context; `time` is the event's clock reading. */
  datatype EventContext = EventContext(
    time: int, eventType: EventType, ip: string, user: string,
    status: EventStatus, severity: Severity, desc: string)

  /** What one model call produced: a decoded answer, or the thrown error's
      message and HTTP status (a response that does not decode is an error too). */
  datatype CallOutcome<T> = Replied(answer: T) | Failed(message: string, status: Option<int>)

  /** The prompt context: one projected entry per event, in order. */
  function ContextOf(events: seq<SecurityEvent>): (ctx: seq<EventContext>)
    ensures |ctx| == |events|
    ensures forall i :: 0 <= i < |events| ==>
      var e := events[i];
      ctx[i] == EventContext(e.timestamp, e.eventType, e.sourceIp, e.userId, e.status, e.severity, e.description)
  {
    seq(|events|, i requires 0 <= i < |events| =>
      EventContext(events[i].timestamp, events[i].eventType, events[i].sourceIp, events[i].userId,
        events[i].status, events[i].severity, events[i].description))
  }

  /** An error counts as rate limiting when its message mentions 429 or its status is 429. */
  predicate IsRateLimit<T>(o: CallOutcome<T>) {
    o.Failed? && (Contains(o.message, "429") || o.status == Some(429))
  }

  const MAX_RETRIES: nat := 3

  /** The answer shown when the model cannot be used. */
  const THROTTLED_REASONING: AIReasoning := AIReasoning(
    "Analysis engine is currently cooling down due to high traffic volume. Heuristic patterns still suggest active lateral movement.",
    ["Rate limit threshold reached"],
    MediumConfidence,
    "AI Analysis Throttled - Manual Review Recommended",
    Some("T1110 - Brute Force (Predicted)"),
    ["Check API Quota", "Verify source IP blocklists"])

  /** The result of one analyzeThreat call: the answer, how many model calls it
      made and the delays (ms) waited before each retry. */
  datatype AnalysisRun = AnalysisRun(reasoning: AIReasoning, calls: nat, waits: seq<nat>)

  /** analyzeThreat(events, retryCount); `model(ctx, k)` is what the k-th attempt
      (counting from retry 0) returns for the context. Every failure of a model
      call is caught, so the run always ends with an answer; the client
      construction and the context mapping that precede the try are taken to
      succeed. */
  function AnalyzeThreat(events: seq<SecurityEvent>, model: (seq<EventContext>, nat) -> CallOutcome<AIReasoning>, retryCount: nat): (run: AnalysisRun)
    ensures 1 <= run.calls && (retryCount <= MAX_RETRIES ==> run.calls <= MAX_RETRIES + 1 - retryCount)
    ensures |run.waits| == run.calls - 1
  {
    Attempts(ContextOf(events), model, retryCount)
  }

  /** The attempts from retry retryCount on, for the prompt context ctx. */
  function Attempts(ctx: seq<EventContext>, model: (seq<EventContext>, nat) -> CallOutcome<AIReasoning>, retryCount: nat): (run: AnalysisRun)
    ensures 1 <= run.calls && (retryCount <= MAX_RETRIES ==> run.calls <= MAX_RETRIES + 1 - retryCount)
    ensures |run.waits| == run.calls - 1
    decreases if retryCount <= MAX_RETRIES then MAX_RETRIES - retryCount else 0
  {
    var outcome := model(ctx, retryCount);
    match outcome
    case Replied(answer) => AnalysisRun(answer, 1, [])
    case Failed(_, _) =>
      if IsRateLimit(outcome) && retryCount < MAX_RETRIES then
        var rest := Attempts(ctx, model, retryCount + 1);
        AnalysisRun(rest.reasoning, rest.calls + 1, [Pow2(retryCount) * 2000] + rest.waits)
      else
        AnalysisRun(THROTTLED_REASONING, 1, [])
  }

  /** The wait before retry k + 1 is 2^k seconds, doubling from 2000 ms. */
  lemma {:induction false} AttemptsWaits(ctx: seq<EventContext>, model: (seq<EventContext>, nat) -> CallOutcome<AIReasoning>, retryCount: nat)
    ensures var run := Attempts(ctx, model, retryCount);
      forall k :: 0 <= k < |run.waits| ==> run.waits[k] == Pow2(retryCount + k) * 2000
    decreases if retryCount <= MAX_RETRIES then MAX_RETRIES - retryCount else 0
  {
    if IsRateLimit(model(ctx, retryCount)) && retryCount < MAX_RETRIES {
      AttemptsWaits(ctx, model, retryCount + 1);
      var run, rest := Attempts(ctx, model, retryCount), Attempts(ctx, model, retryCount + 1);
      assert run.waits == [Pow2(retryCount) * 2000] + rest.waits;
      forall k | 1 <= k < |run.waits|
        ensures run.waits[k] == Pow2(retryCount + k) * 2000
      {
        assert run.waits[k] == rest.waits[k - 1];
      }
    }
  }

  /** Every call but the last met rate limiting with retries left. */
  lemma {:induction false} AttemptsRetries(ctx: seq<EventContext>, model: (seq<EventContext>, nat) -> CallOutcome<AIReasoning>, retryCount: nat)
    ensures var run := Attempts(ctx, model, retryCount);
      forall j :: retryCount <= j < retryCount + run.calls - 1 ==> j < MAX_RETRIES && IsRateLimit(model(ctx, j))
    decreases if retryCount <= MAX_RETRIES then MAX_RETRIES - retryCount else 0
  {
    if IsRateLimit(model(ctx, retryCount)) && retryCount < MAX_RETRIES {
      AttemptsRetries(ctx, model, retryCount + 1);
    }
  }

  /** The last call either answered, and its answer is returned, or failed for
      good, and the fallback is returned. */
  lemma {:induction false} AttemptsResult(ctx: seq<EventContext>, model: (seq<EventContext>, nat) -> CallOutcome<AIReasoning>, retryCount: nat)
    ensures var run := Attempts(ctx, model, retryCount);
      var last := model(ctx, retryCount + run.calls - 1);
      (last.Replied? && run.reasoning == last.answer) ||
      (last.Failed? && run.reasoning == THROTTLED_REASONING &&
        (!IsRateLimit(last) || retryCount + run.calls - 1 >= MAX_RETRIES))
    decreases if retryCount <= MAX_RETRIES then MAX_RETRIES - retryCount else 0
  {
    if IsRateLimit(model(ctx, retryCount)) && retryCount < MAX_RETRIES {
      AttemptsResult(ctx, model, retryCount + 1);
      var run, rest := Attempts(ctx, model, retryCount), Attempts(ctx, model, retryCount + 1);
      assert retryCount + run.calls - 1 == retryCount + 1 + rest.calls - 1;
    }
  }

  /** analyzeThreat as seen by its caller: the waits double from 2000 ms, every
      call but the last was rate limited with retries left, and the result is the
      last call's answer or, when that call failed for good, the fallback. */
  lemma AnalyzeThreatOutcome(events: seq<SecurityEvent>, model: (seq<EventContext>, nat) -> CallOutcome<AIReasoning>, retryCount: nat)
    ensures var run := AnalyzeThreat(events, model, retryCount);
      forall k :: 0 <= k < |run.waits| ==> run.waits[k] == Pow2(retryCount + k) * 2000
    ensures var run := AnalyzeThreat(events, model, retryCount);
      forall j :: retryCount <= j < retryCount + run.calls - 1 ==>
        j < MAX_RETRIES && IsRateLimit(model(ContextOf(events), j))
    ensures var run := AnalyzeThreat(events, model, retryCount);
      var last := model(ContextOf(events), retryCount + run.calls - 1);
      (last.Replied? && run.reasoning == last.answer) ||
      (last.Failed? && run.reasoning == THROTTLED_REASONING &&
        (!IsRateLimit(last) || retryCount + run.calls - 1 >= MAX_RETRIES))
  {
    AttemptsWaits(ContextOf(events), model, retryCount);
    AttemptsRetries(ContextOf(events), model, retryCount);
    AttemptsResult(ContextOf(events), model, retryCount);
  }

  /** From a fresh call the waits are 2000, 4000 and 8000 ms at most, and there are
      at most four model calls. */
  lemma AnalyzeThreatBackoff(events: seq<SecurityEvent>, model: (seq<EventContext>, nat) -> CallOutcome<AIReasoning>)
    ensures AnalyzeThreat(events, model, 0).calls <= 4
    ensures AnalyzeThreat(events, model, 0).waits <= [2000, 4000, 8000]
  {
    var run := AnalyzeThreat(events, model, 0);
    AttemptsWaits(ContextOf(events), model, 0);
    assert Pow2(0) == 1 && Pow2(1) == 2 && Pow2(2) == 4;
    assert run.waits == [2000, 4000, 8000][..|run.waits|];
  }

  /** A failure that is not rate limiting is never retried. */
  lemma NoRetryOnOtherErrors(events: seq<SecurityEvent>, model: (seq<EventContext>, nat) -> CallOutcome<AIReasoning>, retryCount: nat)
    requires model(ContextOf(events), retryCount).Failed? && !IsRateLimit(model(ContextOf(events), retryCount))
    ensures AnalyzeThreat(events, model, retryCount) == AnalysisRun(THROTTLED_REASONING, 1, [])
  {
  }

  /** generateForensicReport: the decoded report, or the error rethrown unchanged. */
  function GenerateForensicReport(outcome: CallOutcome<ForensicReport>): (r: Result<ForensicReport, string>)
    ensures r.Success? <==> outcome.Replied?
    ensures r.Success? ==> r.value == outcome.answer
    ensures r.Failure? ==> r.error == outcome.message
  {
    match outcome
    case Replied(report) => Success(report)
    case Failed(message, _) => Failure(message)
  }
}
