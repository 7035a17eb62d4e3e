/** The event pipeline of the back end: the stale-scenario drop, the composite
    risk score, the threat it builds, and the counters and stores each accepted
    event updates. */
module ThreatProcessor {
  import opened Wrappers
  import opened Seqs
  import opened Numeric
  import opened BackendTypes
  import IpUtils
  import GeoService
  import GeminiAnalyzer
  import FirestoreService
  import MetricsService
  import AlertService

  /** Points for the severity, out of 40. */
  function SeverityPoints(severity: SeverityLevel): (points: int)
    ensures 0 <= points <= 40
    ensures points == 10 * SeverityRank(severity)
  {
    match severity
    case Critical => 40
    case High => 30
    case Medium => 20
    case Low => 10
    case Info => 0
  }

  /** The threat type values scored as high and as medium risk. */
  const HIGH_RISK_TYPES: seq<string> := ["BRUTE_FORCE", "SQL_INJECTION", "RANSOMWARE", "DDOS_ATTACK"]
  const MEDIUM_RISK_TYPES: seq<string> := ["DATA_EXFILTRATION", "MALWARE", "PORT_SCAN"]

  /** Points for the attack type, out of 20: 20 for the high-risk types, 15 for
      the medium-risk ones, 10 for every other type. */
  function TypePoints(threatType: ThreatType): (points: int)
    ensures points == 20 <==>
      threatType == BruteForce || threatType == SqlInjection || threatType == Ransomware || threatType == DdosAttack
    ensures points == 15 <==> threatType == DataExfiltration || threatType == Malware || threatType == PortScan
    ensures points == 10 || points == 15 || points == 20
  {
    if TypeValue(threatType) in HIGH_RISK_TYPES then 20
    else if TypeValue(threatType) in MEDIUM_RISK_TYPES then 15
    else 10
  }

  /** The unclamped sum of the four components. */
  function RawRiskScore(analysis: Analysis, geo: GeoService.GeoInfo): int {
    SeverityPoints(analysis.severity) + Trunc(analysis.confidence * 20.0) +
    TypePoints(analysis.threatType) + Trunc(geo.riskMultiplier * 10.0)
  }

  /** _calculate_risk_score: the sum of the components, clamped to [0, 100]. */
  function RiskScore(analysis: Analysis, geo: GeoService.GeoInfo): (score: int)
    ensures 0 <= score <= 100
    ensures 0 <= RawRiskScore(analysis, geo) <= 100 ==> score == RawRiskScore(analysis, geo)
    ensures RawRiskScore(analysis, geo) > 100 ==> score == 100
    ensures RawRiskScore(analysis, geo) < 0 ==> score == 0
  {
    ClampInt(0, 100, RawRiskScore(analysis, geo))
  }

  /** With a confidence in [0, 1] and a multiplier in [0, 2], as the analyzer and
      the country table give, every component stays in its band and the sum
      needs no clamping. */
  lemma RiskScoreUnclamped(analysis: Analysis, geo: GeoService.GeoInfo)
    requires 0.0 <= analysis.confidence <= 1.0 && 0.0 <= geo.riskMultiplier <= 2.0
    ensures 0 <= Trunc(analysis.confidence * 20.0) <= 20
    ensures 0 <= Trunc(geo.riskMultiplier * 10.0) <= 20
    ensures RiskScore(analysis, geo) == RawRiskScore(analysis, geo)
  {
    TruncMonotone(analysis.confidence * 20.0, 20.0);
    TruncMonotone(geo.riskMultiplier * 10.0, 20.0);
  }

  /** With the other inputs fixed, a more severe analysis never scores lower. */
  lemma RiskScoreMonotoneInSeverity(analysis: Analysis, geo: GeoService.GeoInfo, severity: SeverityLevel)
    requires SeverityRank(analysis.severity) <= SeverityRank(severity)
    ensures RiskScore(analysis, geo) <= RiskScore(analysis.(severity := severity), geo)
  {
  }

  /** With the other inputs fixed, a more confident analysis never scores lower. */
  lemma RiskScoreMonotoneInConfidence(analysis: Analysis, geo: GeoService.GeoInfo, confidence: real)
    requires analysis.confidence <= confidence
    ensures RiskScore(analysis, geo) <= RiskScore(analysis.(confidence := confidence), geo)
  {
    TruncMonotone(analysis.confidence * 20.0, confidence * 20.0);
  }

  /** The epoch check: an event is stale when it and the service both carry a
      scenario id and the two differ. */
  predicate IsStale(eventScenarioId: Option<string>, currentScenarioId: Option<string>) {
    eventScenarioId.Some? && currentScenarioId.Some? && eventScenarioId.value != currentScenarioId.value
  }

  /** Severities that raise an alert. */
  predicate RaisesAlert(severity: SeverityLevel) {
    severity == Critical || severity == High
  }

  /** The threat built for an accepted event from its analysis and its geo record;
      `threatId` is the generated id. */
  function ThreatFor(event: RawEvent, sourceIp: string, analysis: Analysis, geo: GeoService.GeoInfo,
                     threatId: string, processingTimeMs: int): (t: Threat)
    ensures t.id == threatId && t.eventId == event.eventId && t.timestamp == event.timestamp
    ensures t.severity == analysis.severity && t.threatType == analysis.threatType
    ensures t.riskScore == RiskScore(analysis, geo) && 0 <= t.riskScore <= 100
    ensures t.sourceIp == sourceIp && t.sourceCountry == Some(geo.country)
    ensures t.sourceCountryCode == Some(geo.countryCode) && t.sourceZone == geo.zone
    ensures !t.autoBlocked && t.auditRef == analysis.auditRef
    ensures t.confidence == analysis.confidence && t.description == analysis.description
    ensures t.contextualAnalysis == analysis.contextualAnalysis
    ensures t.mitreAttackId == analysis.mitreAttackId && t.mitreAttackName == analysis.mitreAttackName
    ensures t.processingTimeMs == processingTimeMs
  {
    Threat(threatId, event.eventId, event.timestamp, analysis.severity, analysis.threatType,
      RiskScore(analysis, geo), sourceIp, Some(geo.country), Some(geo.countryCode), geo.zone,
      analysis.confidence, analysis.description, analysis.contextualAnalysis,
      analysis.mitreAttackId, analysis.mitreAttackName, false, processingTimeMs, analysis.auditRef)
  }

  /** What became of an event: dropped as stale, rejected as malformed, or
      processed into a threat and, for a severe one, an alert. */
  datatype Outcome = Dropped | Rejected | Processed(threat: Threat, alert: Option<Alert>)

  /** What get_stats returns, without the analyzer's own metrics. */
  datatype ProcessorStats = ProcessorStats(eventsProcessed: nat, threatsDetected: nat, alertsCreated: nat)

  class ThreatProcessor {
    const analyzer: GeminiAnalyzer.ThreatAnalyzer
    const db: FirestoreService.FirestoreService
    const metrics: MetricsService.MetricsService
    const alerts: AlertService.AlertService
    var eventsProcessed: nat
    var threatsDetected: nat
    var alertsCreated: nat

    /** Every alert is for a detected threat and every detected threat for a
        processed event. */
    predicate Valid()
      reads this`eventsProcessed, this`threatsDetected, this`alertsCreated
    {
      alertsCreated <= threatsDetected <= eventsProcessed
    }

    constructor(analyzer: GeminiAnalyzer.ThreatAnalyzer, db: FirestoreService.FirestoreService,
                metrics: MetricsService.MetricsService, alerts: AlertService.AlertService)
      ensures this.analyzer == analyzer && this.db == db && this.metrics == metrics && this.alerts == alerts
      ensures Valid() && eventsProcessed == 0 && threatsDetected == 0 && alertsCreated == 0
    {
      this.analyzer, this.db, this.metrics, this.alerts := analyzer, db, metrics, alerts;
      eventsProcessed, threatsDetected, alertsCreated := 0, 0, 0;
    }

    /** Steps 2 to 5 of process_event: geo enrichment, the analyzer's verdict,
        the risk score and the threat record. */
    method AssessEvent(event: RawEvent, sourceIp: string, facts: IpUtils.IpFacts,
                       reply: GeminiAnalyzer.ModelReply, decode: string -> Option<GeminiAnalyzer.RawAnalysis>,
                       threatId: string, processingTimeMs: int)
      returns (threat: Threat)
      modifies analyzer`requestCount
      ensures threat == ThreatFor(event, sourceIp, GeminiAnalyzer.Verdict(event, analyzer.modelConfigured, reply, decode),
        GeoService.LookupIp(sourceIp, facts), threatId, processingTimeMs)
      ensures analyzer.requestCount == old(analyzer.requestCount) +
        (if GeminiAnalyzer.ConsultsModel(event, analyzer.modelConfigured) then 1 else 0)
    {
      var geo := GeoService.LookupIp(sourceIp, facts);
      var analysis := analyzer.Analyze(event, reply, decode);
      threat := ThreatFor(event, sourceIp, analysis, geo, threatId, processingTimeMs);
    }

    /** Steps 6 to 8 of process_event for an assessed threat: it is stored,
        recorded in the metrics and counted unless its severity is INFO, and a
        CRITICAL or HIGH one raises an alert. */
    method RecordThreat(threat: Threat, alertId: string, clock: string, createdAt: string,
                        processingTimeMs: int)
      returns (alert: Option<Alert>)
      requires Valid() && metrics.Valid() && db.Valid() && alerts.db == db
      requires threatsDetected < eventsProcessed
      modifies this`threatsDetected, this`alertsCreated, db`threats, db`alerts
      modifies metrics`eventsProcessed, metrics`threatsDetected, metrics`currentRiskIndex,
        metrics`riskTimeline, metrics`detectionTimes, metrics`alertsGenerated
      ensures Valid() && metrics.Valid() && db.Valid()
      ensures threatsDetected == old(threatsDetected) + (if threat.severity != Info then 1 else 0)
      ensures alertsCreated == old(alertsCreated) + (if RaisesAlert(threat.severity) then 1 else 0)
      ensures alert.Some? <==> RaisesAlert(threat.severity)
      ensures alert.Some? ==> alert.value == AlertService.AlertFor(threat, alertId, createdAt)
      ensures db.threats == Take([threat] + old(db.threats), FirestoreService.MAX_THREATS)
      ensures db.alerts == (if alert.Some? then [alert.value] else []) + old(db.alerts)
      ensures metrics.eventsProcessed == old(metrics.eventsProcessed) + 1
      ensures metrics.alertsGenerated == old(metrics.alertsGenerated) + (if alert.Some? then 1 else 0)
      ensures metrics.threatsDetected == old(metrics.threatsDetected) + 1
      ensures metrics.currentRiskIndex == MetricsService.NextIndex(old(metrics.currentRiskIndex),
        MetricsService.ThreatSeen(threat.severity, threat.confidence))
      ensures metrics.riskTimeline == Last(old(metrics.riskTimeline) +
        [MetricsService.TimelinePoint(clock, metrics.currentRiskIndex)], MetricsService.MAX_TIMELINE_POINTS)
      ensures metrics.detectionTimes == Last(old(metrics.detectionTimes) + [processingTimeMs],
        MetricsService.MAX_DETECTION_TIMES)
    {
      db.StoreThreat(threat);
      RecordInMetrics(threat, clock, processingTimeMs);
      alert := RaiseAlert(threat, alertId, createdAt);
    }

    /** Steps 7 and 7.5 of process_event for a stored threat: the metrics record
        the event, the threat and the detection time, and the threat counter
        grows unless the severity is INFO. */
    method RecordInMetrics(threat: Threat, clock: string, processingTimeMs: int)
      requires Valid() && metrics.Valid()
      requires threatsDetected < eventsProcessed
      modifies this`threatsDetected
      modifies metrics`eventsProcessed, metrics`threatsDetected, metrics`currentRiskIndex,
        metrics`riskTimeline, metrics`detectionTimes
      ensures Valid() && metrics.Valid()
      ensures threatsDetected == old(threatsDetected) + (if threat.severity != Info then 1 else 0)
      ensures metrics.eventsProcessed == old(metrics.eventsProcessed) + 1
      ensures metrics.threatsDetected == old(metrics.threatsDetected) + 1
      ensures metrics.currentRiskIndex == MetricsService.NextIndex(old(metrics.currentRiskIndex),
        MetricsService.ThreatSeen(threat.severity, threat.confidence))
      ensures metrics.riskTimeline == Last(old(metrics.riskTimeline) +
        [MetricsService.TimelinePoint(clock, metrics.currentRiskIndex)], MetricsService.MAX_TIMELINE_POINTS)
      ensures metrics.detectionTimes == Last(old(metrics.detectionTimes) + [processingTimeMs],
        MetricsService.MAX_DETECTION_TIMES)
    {
      metrics.RecordEventProcessed();
      metrics.RecordThreat(threat, clock);
      if threat.severity != Info {
        threatsDetected := threatsDetected + 1;
      }
      metrics.RecordDetectionTime(processingTimeMs);
    }

    /** Step 8 of process_event: a CRITICAL or HIGH threat gets an alert, which
        is stored, counted here and in the metrics; any other threat gets none. */
    method RaiseAlert(threat: Threat, alertId: string, createdAt: string) returns (alert: Option<Alert>)
      requires Valid() && alerts.db == db
      requires RaisesAlert(threat.severity) ==> alertsCreated < threatsDetected
      modifies this`alertsCreated, db`alerts, metrics`alertsGenerated
      ensures Valid()
      ensures alert.Some? <==> RaisesAlert(threat.severity)
      ensures alert.Some? ==> alert.value == AlertService.AlertFor(threat, alertId, createdAt)
      ensures alertsCreated == old(alertsCreated) + (if alert.Some? then 1 else 0)
      ensures metrics.alertsGenerated == old(metrics.alertsGenerated) + (if alert.Some? then 1 else 0)
      ensures db.alerts == (if alert.Some? then [alert.value] else []) + old(db.alerts)
    {
      alert := None;
      if RaisesAlert(threat.severity) {
        var created := alerts.CreateAlert(threat, alertId, createdAt);
        alert := Some(created);
        alertsCreated := alertsCreated + 1;
        metrics.RecordAlert();
      }
    }

    /** process_event. A stale event, and an event without a source address
        (which fails validation), change nothing. An accepted event is counted,
        analysed, scored, stored and recorded in the metrics; it is counted as a
        threat unless its severity is INFO, and raises an alert exactly when its
        severity is CRITICAL or HIGH. `facts`, `reply` and `decode` stand for the
        address library, the model's reply and the JSON decoder; `threatId`,
        `alertId`, `clock`, `createdAt` and `processingTimeMs` for the generated
        ids, the clock readings and the measured processing time. */
    method ProcessEvent(event: RawEvent, currentScenarioId: Option<string>, facts: IpUtils.IpFacts,
                        reply: GeminiAnalyzer.ModelReply, decode: string -> Option<GeminiAnalyzer.RawAnalysis>,
                        threatId: string, alertId: string, clock: string, createdAt: string,
                        processingTimeMs: int)
      returns (outcome: Outcome)
      requires Valid() && metrics.Valid() && db.Valid() && alerts.db == db
      modifies this`eventsProcessed, this`threatsDetected, this`alertsCreated, analyzer`requestCount
      modifies db`threats, db`alerts
      modifies metrics`eventsProcessed, metrics`threatsDetected, metrics`currentRiskIndex,
        metrics`riskTimeline, metrics`detectionTimes, metrics`alertsGenerated
      ensures Valid() && metrics.Valid() && db.Valid()
      ensures outcome.Dropped? <==> IsStale(event.scenarioId, currentScenarioId)
      ensures outcome.Rejected? <==> !IsStale(event.scenarioId, currentScenarioId) && event.sourceIp.None?
      ensures !outcome.Processed? ==> unchanged(this, analyzer, db, metrics)
      ensures outcome.Processed? ==>
        var analysis := GeminiAnalyzer.Verdict(event, analyzer.modelConfigured, reply, decode);
        var geo := GeoService.LookupIp(event.sourceIp.value, facts);
        outcome.threat == ThreatFor(event, event.sourceIp.value, analysis, geo, threatId, processingTimeMs)
      ensures outcome.Processed? ==>
        eventsProcessed == old(eventsProcessed) + 1 &&
        threatsDetected == old(threatsDetected) + (if outcome.threat.severity != Info then 1 else 0) &&
        alertsCreated == old(alertsCreated) + (if RaisesAlert(outcome.threat.severity) then 1 else 0)
      ensures outcome.Processed? ==> (outcome.alert.Some? <==> RaisesAlert(outcome.threat.severity))
      ensures outcome.Processed? ==>
        db.threats == Take([outcome.threat] + old(db.threats), FirestoreService.MAX_THREATS) &&
        db.alerts == (if outcome.alert.Some? then [outcome.alert.value] else []) + old(db.alerts)
      ensures outcome.Processed? && outcome.alert.Some? ==>
        outcome.alert.value == AlertService.AlertFor(outcome.threat, alertId, createdAt)
      ensures outcome.Processed? ==>
        metrics.eventsProcessed == old(metrics.eventsProcessed) + 1 &&
        metrics.alertsGenerated == old(metrics.alertsGenerated) + (if outcome.alert.Some? then 1 else 0) &&
        metrics.currentRiskIndex == MetricsService.NextIndex(old(metrics.currentRiskIndex),
          MetricsService.ThreatSeen(outcome.threat.severity, outcome.threat.confidence))
      ensures outcome.Processed? ==>
        metrics.threatsDetected == old(metrics.threatsDetected) + 1 &&
        metrics.riskTimeline == Last(old(metrics.riskTimeline) +
          [MetricsService.TimelinePoint(clock, metrics.currentRiskIndex)], MetricsService.MAX_TIMELINE_POINTS) &&
        metrics.detectionTimes == Last(old(metrics.detectionTimes) + [processingTimeMs],
          MetricsService.MAX_DETECTION_TIMES)
      ensures outcome.Processed? ==>
        analyzer.requestCount == old(analyzer.requestCount) +
          (if GeminiAnalyzer.ConsultsModel(event, analyzer.modelConfigured) then 1 else 0)
    {
      if IsStale(event.scenarioId, currentScenarioId) {
        return Dropped;
      }
      if event.sourceIp.None? {
        return Rejected;
      }
      var sourceIp := event.sourceIp.value;
      eventsProcessed := eventsProcessed + 1;
      var threat := AssessEvent(event, sourceIp, facts, reply, decode, threatId, processingTimeMs);
      var alert := RecordThreat(threat, alertId, clock, createdAt, processingTimeMs);
      return Processed(threat, alert);
    }

    /** get_stats: the three counters, in the order alerts <= threats <= events. */
    function GetStats(): (stats: ProcessorStats)
      requires Valid()
      reads this`eventsProcessed, this`threatsDetected, this`alertsCreated
      ensures stats.alertsCreated <= stats.threatsDetected <= stats.eventsProcessed
      ensures stats.eventsProcessed == eventsProcessed && stats.threatsDetected == threatsDetected
      ensures stats.alertsCreated == alertsCreated
    {
      ProcessorStats(eventsProcessed, threatsDetected, alertsCreated)
    }
  }
}
