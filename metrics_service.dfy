/** The back end's metrics: event, threat and alert counters, the recent
    detection times, and the risk index with its timeline. Each threat raises the
    index by its severity weight times its confidence, capped at 100; a periodic
    decay lowers it by 2% but never below 10. */
module MetricsService {
  import opened Seqs
  import opened Numeric
  import opened BackendTypes

  const MAX_DETECTION_TIMES := 100
  const MAX_TIMELINE_POINTS := 30
  const LATENCY_WINDOW := 15
  const DEFAULT_DETECTION_TIME := 120
  const DEFAULT_LATENCY_HISTORY: seq<int> := [120, 125, 118, 110, 105]

  /** The weight of a severity in the risk index. */
  function SeverityWeight(severity: SeverityLevel): (w: real)
    ensures 0.0 <= w <= 15.0
    ensures w == 0.0 <==> severity == Info
    ensures severity == Critical ==> w == 15.0
  {
    match severity
    case Critical => 15.0
    case High => 8.0
    case Medium => 3.0
    case Low => 1.0
    case Info => 0.0
  }

  /** A more severe threat never weighs less. */
  lemma SeverityWeightMonotone(a: SeverityLevel, b: SeverityLevel)
    requires SeverityRank(a) <= SeverityRank(b)
    ensures SeverityWeight(a) <= SeverityWeight(b)
  {
  }

  /** _calculate_risk_contribution: the severity weight scaled by the confidence. */
  function RiskContribution(threat: Threat): (c: real)
    ensures 0.0 <= threat.confidence ==> 0.0 <= c
    ensures 0.0 <= threat.confidence <= 1.0 ==> c <= SeverityWeight(threat.severity)
  {
    SeverityWeight(threat.severity) * threat.confidence
  }

  /** What happens to the risk index: a threat with its severity and confidence, or a decay tick. */
  datatype RiskStep = ThreatSeen(severity: SeverityLevel, confidence: real) | DecayTick

  /** The index after one step: a threat adds its weighted confidence within
      [0, 100]; a decay takes 2% off, but not below 10. */
  function NextIndex(index: real, step: RiskStep): (next: real)
    ensures step.ThreatSeen? ==> 0.0 <= next <= 100.0
    ensures step.ThreatSeen? && step.confidence >= 0.0 ==> MinReal(index, 100.0) <= next
    ensures step.DecayTick? ==> 10.0 <= next && (index >= 10.0 ==> next <= index)
    ensures step.DecayTick? && 0.0 <= index <= 100.0 ==> next <= 100.0
  {
    match step
    case ThreatSeen(severity, confidence) => Clamp(0.0, 100.0, index + SeverityWeight(severity) * confidence)
    case DecayTick => MaxReal(10.0, index * 0.98)
  }

  /** The index after a run of steps, in order. */
  function IndexAfter(index: real, steps: seq<RiskStep>): real
    decreases |steps|
  {
    if |steps| == 0 then index else IndexAfter(NextIndex(index, steps[0]), steps[1..])
  }

  /** Starting within [10, 100], with no threat of negative confidence, the index
      stays within [10, 100] whatever happens. */
  lemma {:induction false} IndexStaysInBand(index: real, steps: seq<RiskStep>)
    requires 10.0 <= index <= 100.0
    requires forall k :: 0 <= k < |steps| && steps[k].ThreatSeen? ==> steps[k].confidence >= 0.0
    ensures 10.0 <= IndexAfter(index, steps) <= 100.0
    decreases |steps|
  {
    if |steps| > 0 {
      var next := NextIndex(index, steps[0]);
      assert 10.0 <= next <= 100.0;
      assert forall k :: 0 <= k < |steps[1..]| ==> steps[1..][k] == steps[k + 1];
      IndexStaysInBand(next, steps[1..]);
    }
  }

  /** _determine_risk_level. */
  function RiskLevel(risk: real): (level: string)
    ensures level == "CRITICAL" <==> risk >= 86.0
    ensures level == "SUSPICIOUS" <==> 61.0 <= risk < 86.0
    ensures level == "ELEVATED" <==> 31.0 <= risk < 61.0
    ensures level == "NORMAL" <==> risk < 31.0
  {
    if risk >= 86.0 then "CRITICAL"
    else if risk >= 61.0 then "SUSPICIOUS"
    else if risk >= 31.0 then "ELEVATED"
    else "NORMAL"
  }

  function Sum(s: seq<int>): int {
    if |s| == 0 then 0 else s[0] + Sum(s[1..])
  }

  lemma {:induction false} SumBounds(s: seq<int>, lo: int, hi: int)
    requires forall k :: 0 <= k < |s| ==> lo <= s[k] <= hi
    ensures lo * |s| <= Sum(s) <= hi * |s|
    decreases |s|
  {
    if |s| > 0 {
      SumBounds(s[1..], lo, hi);
    }
  }

  /** `int(sum(s) / len(s))`, 120 for no samples. */
  function AverageDetectionTime(s: seq<int>): (avg: int)
    ensures |s| == 0 ==> avg == DEFAULT_DETECTION_TIME
  {
    if |s| == 0 then DEFAULT_DETECTION_TIME else Trunc(Sum(s) as real / |s| as real)
  }

  /** The truncated mean of samples between lo and hi is itself between lo and hi. */
  lemma AverageWithinBounds(s: seq<int>, lo: nat, hi: int)
    requires |s| > 0
    requires forall k :: 0 <= k < |s| ==> lo <= s[k] <= hi
    ensures lo <= AverageDetectionTime(s) <= hi
  {
    SumBounds(s, lo, hi);
    var n := |s| as real;
    CastProduct(lo, |s|);
    CastProduct(hi, |s|);
    QuotientBounds(Sum(s) as real, n, lo as real, hi as real);
    var mean := Sum(s) as real / n;
    assert AverageDetectionTime(s) == Trunc(mean);
  }

  lemma CastProduct(a: int, b: int)
    ensures (a * b) as real == a as real * b as real
  {
  }

  /** Bounds on x carry over to x / n. */
  lemma QuotientBounds(x: real, n: real, lo: real, hi: real)
    requires n > 0.0 && lo * n <= x <= hi * n
    ensures lo <= x / n <= hi
  {
    var q := x / n;
    assert q * n == x;
  }

  /** One point of the risk timeline (`TimelineData`). */
  datatype TimelinePoint = TimelinePoint(time: string, risk: real)

  /** What get_current_risk_index returns. */
  datatype RiskIndexReport = RiskIndexReport(value: int, level: string, trend: string)

  /** What get_dashboard_stats returns. */
  datatype DashboardStats = DashboardStats(
    processed: nat,
    blocked: nat,
    critical: nat,
    avgDetectTime: int,
    latencyHistory: seq<int>,
    alertsGenerated: nat,
    threatsDetected: nat)

  class MetricsService {
    var eventsProcessed: nat
    var threatsDetected: nat
    var alertsGenerated: nat
    var eventsBlocked: nat
    var detectionTimes: seq<int>
    var riskTimeline: seq<TimelinePoint>
    var currentRiskIndex: real
    var riskTrend: string

    /** The index and every timeline point lie in [0, 100]; both lists are capped. */
    predicate Valid()
      reads this`currentRiskIndex, this`riskTimeline, this`detectionTimes
    {
      0.0 <= currentRiskIndex <= 100.0 &&
      |riskTimeline| <= MAX_TIMELINE_POINTS && |detectionTimes| <= MAX_DETECTION_TIMES &&
      forall k :: 0 <= k < |riskTimeline| ==> 0.0 <= riskTimeline[k].risk <= 100.0
    }

    constructor()
      ensures Valid()
      ensures eventsProcessed == 0 && threatsDetected == 0 && alertsGenerated == 0 && eventsBlocked == 0
      ensures detectionTimes == [] && riskTimeline == []
      ensures currentRiskIndex == 10.0 && riskTrend == "STABLE"
    {
      eventsProcessed, threatsDetected, alertsGenerated, eventsBlocked := 0, 0, 0, 0;
      detectionTimes, riskTimeline := [], [];
      currentRiskIndex, riskTrend := 10.0, "STABLE";
    }

    method RecordEventProcessed()
      modifies this`eventsProcessed
      ensures eventsProcessed == old(eventsProcessed) + 1
    {
      eventsProcessed := eventsProcessed + 1;
    }

    /** record_threat: `now` is the clock reading as "%H:%M:%S". The new index is
        appended to the timeline, which keeps its 30 most recent points. */
    method RecordThreat(threat: Threat, now: string)
      requires Valid()
      modifies this`threatsDetected, this`currentRiskIndex, this`riskTimeline
      ensures Valid()
      ensures threatsDetected == old(threatsDetected) + 1
      ensures currentRiskIndex == NextIndex(old(currentRiskIndex), ThreatSeen(threat.severity, threat.confidence))
      ensures riskTimeline == Last(old(riskTimeline) + [TimelinePoint(now, currentRiskIndex)], MAX_TIMELINE_POINTS)
      ensures riskTimeline[|riskTimeline| - 1] == TimelinePoint(now, currentRiskIndex)
    {
      threatsDetected := threatsDetected + 1;
      var contribution := RiskContribution(threat);
      currentRiskIndex := Clamp(0.0, 100.0, currentRiskIndex + contribution);
      var timeline := riskTimeline + [TimelinePoint(now, currentRiskIndex)];
      if |timeline| > MAX_TIMELINE_POINTS {
        timeline := timeline[|timeline| - MAX_TIMELINE_POINTS..];
      }
      riskTimeline := timeline;
    }

    method RecordAlert()
      modifies this`alertsGenerated
      ensures alertsGenerated == old(alertsGenerated) + 1
    {
      alertsGenerated := alertsGenerated + 1;
    }

    /** record_detection_time: the list keeps the 100 most recent samples. */
    method RecordDetectionTime(timeMs: int)
      requires Valid()
      modifies this`detectionTimes
      ensures Valid()
      ensures detectionTimes == Last(old(detectionTimes) + [timeMs], MAX_DETECTION_TIMES)
      ensures detectionTimes[|detectionTimes| - 1] == timeMs
    {
      var times := detectionTimes + [timeMs];
      if |times| > MAX_DETECTION_TIMES {
        times := times[|times| - MAX_DETECTION_TIMES..];
      }
      detectionTimes := times;
    }

    /** _decay_risk_index. */
    method DecayRiskIndex()
      requires Valid()
      modifies this`currentRiskIndex
      ensures Valid()
      ensures currentRiskIndex == NextIndex(old(currentRiskIndex), DecayTick)
      ensures 10.0 <= currentRiskIndex
      ensures old(currentRiskIndex) >= 10.0 ==> currentRiskIndex <= old(currentRiskIndex)
    {
      currentRiskIndex := MaxReal(10.0, currentRiskIndex * 0.98);
    }

    /** get_current_risk_index: the reported value is the truncated index, and the
        level computed from the index is the level of that reported value. */
    function GetCurrentRiskIndex(): (r: RiskIndexReport)
      requires Valid()
      reads this`currentRiskIndex, this`riskTimeline, this`detectionTimes, this`riskTrend
      ensures 0 <= r.value <= 100
      ensures r.value as real <= currentRiskIndex < r.value as real + 1.0
      ensures r.level == RiskLevel(r.value as real)
      ensures r.trend == riskTrend
    {
      RiskIndexReport(Trunc(currentRiskIndex), RiskLevel(currentRiskIndex), riskTrend)
    }

    /** get_risk_timeline: the points as (time, risk) pairs, oldest first. */
    function GetRiskTimeline(): (points: seq<(string, real)>)
      reads this`riskTimeline
      ensures |points| == |riskTimeline|
      ensures forall k :: 0 <= k < |points| ==> points[k] == (riskTimeline[k].time, riskTimeline[k].risk)
    {
      var t := riskTimeline;
      seq(|t|, k requires 0 <= k < |t| => (t[k].time, t[k].risk))
    }

    /** get_dashboard_stats: the counters, the truncated mean detection time (120
        without samples) and the 15 most recent detection times (a fixed list
        without samples). */
    function GetDashboardStats(): (stats: DashboardStats)
      reads this`eventsProcessed, this`eventsBlocked, this`threatsDetected, this`alertsGenerated,
        this`detectionTimes
      ensures stats.processed == eventsProcessed && stats.blocked == eventsBlocked
      ensures stats.critical == threatsDetected && stats.threatsDetected == threatsDetected
      ensures stats.alertsGenerated == alertsGenerated
      ensures |detectionTimes| == 0 ==>
        stats.avgDetectTime == DEFAULT_DETECTION_TIME && stats.latencyHistory == DEFAULT_LATENCY_HISTORY
      ensures |detectionTimes| > 0 ==>
        stats.avgDetectTime == AverageDetectionTime(detectionTimes) &&
        |stats.latencyHistory| == Min(LATENCY_WINDOW, |detectionTimes|) &&
        stats.latencyHistory == detectionTimes[|detectionTimes| - |stats.latencyHistory|..]
    {
      DashboardStats(eventsProcessed, eventsBlocked, threatsDetected,
        AverageDetectionTime(detectionTimes),
        if |detectionTimes| > 0 then Last(detectionTimes, LATENCY_WINDOW) else DEFAULT_LATENCY_HISTORY,
        alertsGenerated, threatsDetected)
    }
  }
}
