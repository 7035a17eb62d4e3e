/** The back end's records: severities and threat types with their wire values,
    the analyzer's verdict, stored threats and alerts. */
module BackendTypes {
  import opened Wrappers

  /** `SeverityLevel`, a string enum. */
  datatype SeverityLevel = Critical | High | Medium | Low | Info

  /** The enum member's value. */
  function SeverityValue(s: SeverityLevel): string {
    match s
    case Critical => "CRITICAL"
    case High => "HIGH"
    case Medium => "MEDIUM"
    case Low => "LOW"
    case Info => "INFO"
  }

  /** `SeverityLevel(v)`: the member with value v, None where the enum raises. */
  function ParseSeverity(v: string): (r: Option<SeverityLevel>)
    ensures r.Some? ==> SeverityValue(r.value) == v
    ensures forall s :: v == SeverityValue(s) ==> r == Some(s)
  {
    if v == "CRITICAL" then Some(Critical)
    else if v == "HIGH" then Some(High)
    else if v == "MEDIUM" then Some(Medium)
    else if v == "LOW" then Some(Low)
    else if v == "INFO" then Some(Info)
    else None
  }

  /** Severity order: INFO lowest, CRITICAL highest. */
  function SeverityRank(s: SeverityLevel): nat {
    match s
    case Info => 0
    case Low => 1
    case Medium => 2
    case High => 3
    case Critical => 4
  }

  /** `ThreatType`: the members the analyzer names. */
  datatype ThreatType =
    | BruteForce | SqlInjection | DdosAttack | Ransomware | PortScan | Malware
    | DataExfiltration | Authentication | FirewallEvent | ApiRequest | LoginAttempt
    | NormalTraffic | NetworkAnomaly

  function TypeValue(t: ThreatType): string {
    match t
    case BruteForce => "BRUTE_FORCE"
    case SqlInjection => "SQL_INJECTION"
    case DdosAttack => "DDOS_ATTACK"
    case Ransomware => "RANSOMWARE"
    case PortScan => "PORT_SCAN"
    case Malware => "MALWARE"
    case DataExfiltration => "DATA_EXFILTRATION"
    case Authentication => "AUTHENTICATION"
    case FirewallEvent => "FIREWALL_EVENT"
    case ApiRequest => "API_REQUEST"
    case LoginAttempt => "LOGIN_ATTEMPT"
    case NormalTraffic => "NORMAL_TRAFFIC"
    case NetworkAnomaly => "NETWORK_ANOMALY"
  }

  const ALL_THREAT_TYPES: seq<ThreatType> := [
    BruteForce, SqlInjection, DdosAttack, Ransomware, PortScan, Malware,
    DataExfiltration, Authentication, FirewallEvent, ApiRequest, LoginAttempt,
    NormalTraffic, NetworkAnomaly]

  /** `ThreatType(v)`: the member with value v, None where the enum raises. */
  function ParseThreatType(v: string): (r: Option<ThreatType>)
    ensures r.Some? ==> TypeValue(r.value) == v
    ensures forall t :: TypeValue(t) == v ==> r == Some(t)
  {
    forall t | TypeValue(t) == v
      ensures FindType(ALL_THREAT_TYPES, v) == Some(t)
    {
      AllThreatTypesListed(t);
      var found := FindType(ALL_THREAT_TYPES, v);
      assert found.Some?;
      TypeValueInjective(found.value, t);
    }
    FindType(ALL_THREAT_TYPES, v)
  }

  /** Every member of the enum is in the list the parser searches. */
  lemma AllThreatTypesListed(t: ThreatType)
    ensures t in ALL_THREAT_TYPES
  {
    match t
    case BruteForce => assert ALL_THREAT_TYPES[0] == t;
    case SqlInjection => assert ALL_THREAT_TYPES[1] == t;
    case DdosAttack => assert ALL_THREAT_TYPES[2] == t;
    case Ransomware => assert ALL_THREAT_TYPES[3] == t;
    case PortScan => assert ALL_THREAT_TYPES[4] == t;
    case Malware => assert ALL_THREAT_TYPES[5] == t;
    case DataExfiltration => assert ALL_THREAT_TYPES[6] == t;
    case Authentication => assert ALL_THREAT_TYPES[7] == t;
    case FirewallEvent => assert ALL_THREAT_TYPES[8] == t;
    case ApiRequest => assert ALL_THREAT_TYPES[9] == t;
    case LoginAttempt => assert ALL_THREAT_TYPES[10] == t;
    case NormalTraffic => assert ALL_THREAT_TYPES[11] == t;
    case NetworkAnomaly => assert ALL_THREAT_TYPES[12] == t;
  }

  /** Distinct members have distinct values. */
  lemma TypeValueInjective(a: ThreatType, b: ThreatType)
    requires TypeValue(a) == TypeValue(b)
    ensures a == b
  {
  }

  function FindType(ts: seq<ThreatType>, v: string): (r: Option<ThreatType>)
    ensures r.Some? ==> TypeValue(r.value) == v
    ensures r.None? ==> forall k :: 0 <= k < |ts| ==> TypeValue(ts[k]) != v
  {
    if |ts| == 0 then None
    else if TypeValue(ts[0]) == v then Some(ts[0])
    else FindType(ts[1..], v)
  }

  /** The analyzer's verdict (`GeminiAnalysis`); confidence is a real standing for a float. */
  datatype Analysis = Analysis(
    severity: SeverityLevel,
    threatType: ThreatType,
    confidence: real,
    description: string,
    contextualAnalysis: string,
    contributingSignals: seq<string>,
    recommendedActions: seq<string>,
    mitreAttackId: Option<string>,
    mitreAttackName: Option<string>,
    auditRef: string)

  /** A stored threat (`Threat`), with the fields the services read. */
  datatype Threat = Threat(
    id: string,
    eventId: string,
    timestamp: string,
    severity: SeverityLevel,
    threatType: ThreatType,
    riskScore: int,
    sourceIp: string,
    sourceCountry: Option<string>,
    sourceCountryCode: Option<string>,
    sourceZone: string,
    confidence: real,
    description: string,
    contextualAnalysis: string,
    mitreAttackId: Option<string>,
    mitreAttackName: Option<string>,
    autoBlocked: bool,
    processingTimeMs: int,
    auditRef: string)

  datatype AlertStatus = New | Acknowledged | Investigating | Resolved | FalsePositive

  function StatusValue(s: AlertStatus): string {
    match s
    case New => "NEW"
    case Acknowledged => "ACKNOWLEDGED"
    case Investigating => "INVESTIGATING"
    case Resolved => "RESOLVED"
    case FalsePositive => "FALSE_POSITIVE"
  }

  datatype AlertPriority = P1 | P2 | P3 | P4

  /** P1 is the most urgent. */
  function Urgency(p: AlertPriority): nat {
    match p
    case P1 => 4
    case P2 => 3
    case P3 => 2
    case P4 => 1
  }

  /** A stored alert: the dictionary of an `Alert`. Its status is a status value,
      but the store writes whatever status string it is given; timestamps are
      ISO strings. */
  datatype Alert = Alert(
    id: string,
    threatId: string,
    title: string,
    description: string,
    severity: string,
    priority: AlertPriority,
    status: string,
    createdAt: string,
    assignedTo: Option<string>,
    assignedAt: Option<string>,
    sourceIp: string,
    sourceCountry: Option<string>,
    mitreAttackId: Option<string>)

  /** The keys of an incoming raw event dictionary that the back end reads; a
      missing key is None (`metadata.scenario` and `metadata.scenario_id` included). */
  datatype RawEvent = RawEvent(
    eventId: string,
    timestamp: string,
    eventType: Option<string>,
    sourceIp: Option<string>,
    scenario: Option<string>,
    scenarioId: Option<string>)
}
