/** The front end's value types: event, reasoning and statistics records and the
    enumerations they use. */
module UiTypes {
  import opened Wrappers

  datatype EventStatus = StatusSuccess | StatusFailure | StatusSuspicious | StatusBlocked

  datatype EventType =
    | LoginAttempt | ApiRequest | FirewallEvent | Authentication | FileAccess
    | SqlInjection | BruteForce | DdosAttack | RansomwareSignal

  /** Ordered from least to most severe. */
  datatype Severity = Info | Low | Medium | High | Critical

  datatype ThreatLevel = LevelNormal | LevelSuspicious | LevelCritical

  datatype ScenarioType = NormalFlow | BruteForceScenario | SqlInjectionScenario | DdosScenario | RansomwareScenario

  datatype Confidence = LowConfidence | MediumConfidence | HighConfidence

  /** A [lat, lng] pair. */
  datatype Coords = Coords(lat: real, lng: real)

  /** One ledger entry; the timestamp is in milliseconds since the epoch. */
  datatype SecurityEvent = SecurityEvent(
    id: string,
    timestamp: int,
    eventType: EventType,
    sourceIp: string,
    userId: string,
    status: EventStatus,
    description: string,
    severity: Severity,
    country: string,
    coordinates: Coords,
    mitre: Option<string>)

  /** The events the analysis and the globe's rings pick out. */
  predicate IsCriticalEvent(e: SecurityEvent) {
    e.severity == Critical
  }

  datatype AIReasoning = AIReasoning(
    explanation: string,
    factors: seq<string>,
    confidence: Confidence,
    summary: string,
    mitreAttack: Option<string>,
    recommendedActions: seq<string>)

  datatype ForensicReport = ForensicReport(
    summary: string,
    technicalDetails: string,
    timeline: seq<string>,
    riskAssessment: string,
    remediationSteps: seq<string>)

  datatype TimelineData = TimelineData(time: string, risk: real)

  datatype DashboardStats = DashboardStats(
    processed: int,
    blocked: int,
    critical: int,
    avgDetectTime: int,
    latencyHistory: seq<int>)

  /** The nine-country coordinate table shared by the controller and the mappers. */
  const COUNTRY_COORDS: map<string, Coords> := map[
    "US" := Coords(37.0902, -95.7129),
    "CN" := Coords(35.8617, 104.1954),
    "RU" := Coords(61.5240, 105.3188),
    "DE" := Coords(51.1657, 10.4515),
    "GB" := Coords(55.3781, -3.4360),
    "IN" := Coords(20.5937, 78.9629),
    "BR" := Coords(-14.2350, -51.9253),
    "KP" := Coords(40.3399, 127.5101),
    "IR" := Coords(32.4279, 53.6880)
  ]

  /** `COUNTRY_COORDS[code] || [0, 0]`. */
  function CoordsOrOrigin(code: string): (c: Coords)
    ensures code in COUNTRY_COORDS ==> c == COUNTRY_COORDS[code]
    ensures code !in COUNTRY_COORDS ==> c == Coords(0.0, 0.0)
  {
    if code in COUNTRY_COORDS then COUNTRY_COORDS[code] else Coords(0.0, 0.0)
  }
}
