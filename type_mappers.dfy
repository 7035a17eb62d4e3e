/** Conversions from the back end's wire records to the front end's types, and the
    template events the demo sends to the back end's simulation endpoint. */
module TypeMappers {
  import opened Wrappers
  import opened Seqs
  import opened Text
  import opened Numeric
  import opened UiTypes

  /** A threat as the back end sends it; severity and threat type are the raw
      wire strings, so values outside the front end's enumerations are kept. */
  datatype BackendThreat = BackendThreat(
    id: string,
    eventId: string,
    timestamp: int,
    severity: string,
    threatType: string,
    riskScore: int,
    sourceIp: string,
    sourceCountry: Option<string>,
    sourceCountryCode: Option<string>,
    confidence: real,
    description: string,
    mitreAttackId: Option<string>,
    autoBlocked: bool)

  datatype BackendDashboardStats = BackendDashboardStats(
    processed: int,
    blocked: int,
    critical: int,
    avgDetectTime: int,
    latencyHistory: Option<seq<int>>)

  /** The wire name of each front-end severity. */
  function SeverityWireName(s: Severity): string {
    match s
    case Critical => "CRITICAL"
    case High => "HIGH"
    case Medium => "MEDIUM"
    case Low => "LOW"
    case Info => "INFO"
  }

  /** mapBackendSeverityToFrontend: name for name, anything unknown is INFO. */
  function MapSeverity(wire: string): (s: Severity)
    ensures wire == SeverityWireName(s) || s == Info
  {
    match wire
    case "CRITICAL" => Critical
    case "HIGH" => High
    case "MEDIUM" => Medium
    case "LOW" => Low
    case _ => Info
  }

  /** Every severity survives a trip through its wire name. */
  lemma MapSeverityRoundTrip(s: Severity)
    ensures MapSeverity(SeverityWireName(s)) == s
  {
  }

  /** A value that is not a severity name maps to INFO. */
  lemma MapSeverityUnknown(wire: string)
    requires forall s: Severity :: wire != SeverityWireName(s)
    ensures MapSeverity(wire) == Info
  {
    assert wire != SeverityWireName(Critical) && wire != SeverityWireName(High);
    assert wire != SeverityWireName(Medium) && wire != SeverityWireName(Low);
  }

  /** The wire threat types the front end's switch lists. */
  const LISTED_THREAT_TYPES: set<string> :=
    {"BRUTE_FORCE", "DDOS", "RANSOMWARE", "PHISHING", "MALWARE", "AUTHENTICATION", "NETWORK_ANOMALY", "DATA_EXFILTRATION"}

  /** mapBackendThreatTypeToEventType. */
  function MapThreatType(wire: string): (t: EventType)
    ensures t == FileAccess <==> wire == "PHISHING" || wire == "MALWARE"
    ensures t == ApiRequest <==> wire == "DATA_EXFILTRATION" || wire !in LISTED_THREAT_TYPES
    ensures t == BruteForce <==> wire == "BRUTE_FORCE"
    ensures t == DdosAttack <==> wire == "DDOS"
    ensures t == RansomwareSignal <==> wire == "RANSOMWARE"
    ensures t == Authentication <==> wire == "AUTHENTICATION"
    ensures t == FirewallEvent <==> wire == "NETWORK_ANOMALY"
    ensures t != LoginAttempt && t != SqlInjection
  {
    match wire
    case "BRUTE_FORCE" => BruteForce
    case "DDOS" => DdosAttack
    case "RANSOMWARE" => RansomwareSignal
    case "PHISHING" => FileAccess
    case "MALWARE" => FileAccess
    case "AUTHENTICATION" => Authentication
    case "NETWORK_ANOMALY" => FirewallEvent
    case _ => ApiRequest
  }

  /** The back end names its denial-of-service type DDOS_ATTACK; the front end's
      switch only knows DDOS, so such threats are shown as API requests. */
  lemma DdosAttackShownAsApiRequest()
    ensures MapThreatType("DDOS_ATTACK") == ApiRequest
    ensures MapThreatType("SQL_INJECTION") == ApiRequest
  {
  }

  /** mapBackendThreatToEventStatus. */
  function MapStatus(t: BackendThreat): (s: EventStatus)
    ensures s == StatusBlocked <==> t.autoBlocked
    ensures s == StatusSuspicious <==> !t.autoBlocked && (t.severity == "CRITICAL" || t.severity == "HIGH")
    ensures s == StatusFailure <==> !t.autoBlocked && t.severity == "MEDIUM"
    ensures s == StatusSuccess <==> !t.autoBlocked && t.severity != "CRITICAL" && t.severity != "HIGH" && t.severity != "MEDIUM"
  {
    if t.autoBlocked then StatusBlocked
    else if t.severity == "CRITICAL" || t.severity == "HIGH" then StatusSuspicious
    else if t.severity == "MEDIUM" then StatusFailure
    else StatusSuccess
  }

  /** A successful status is only ever shown next to a LOW or INFO severity. */
  lemma SuccessMeansLowOrInfo(t: BackendThreat)
    requires MapStatus(t) == StatusSuccess
    ensures MapSeverity(t.severity) == Low || MapSeverity(t.severity) == Info
  {
  }

  /** JavaScript truthiness of an optional string: absent and empty are false. */
  predicate Truthy(s: Option<string>) {
    s.Some? && s.value != ""
  }

  /** getCoordinates. */
  function GetCoordinates(code: Option<string>): (c: Coords)
    ensures Truthy(code) && code.value in COUNTRY_COORDS ==> c == COUNTRY_COORDS[code.value]
    ensures !(Truthy(code) && code.value in COUNTRY_COORDS) ==> c == Coords(0.0, 0.0)
  {
    if !Truthy(code) then Coords(0.0, 0.0) else CoordsOrOrigin(code.value)
  }

  /** `code || name || 'Unknown'`. */
  function CountryLabel(code: Option<string>, name: Option<string>): (shown: string)
    ensures shown != ""
    ensures Truthy(code) ==> shown == code.value
    ensures !Truthy(code) && Truthy(name) ==> shown == name.value
    ensures !Truthy(code) && !Truthy(name) ==> shown == "Unknown"
  {
    if Truthy(code) then code.value else if Truthy(name) then name.value else "Unknown"
  }

  /** mapBackendThreatToSecurityEvent. */
  function MapThreatToEvent(t: BackendThreat): (e: SecurityEvent)
    ensures e.id == t.id && e.sourceIp == t.sourceIp && e.description == t.description
    ensures e.mitre == t.mitreAttackId && e.timestamp == t.timestamp
    ensures |e.userId| == 7 + Min(8, |t.id|) && e.userId[..7] == "threat_"
    ensures e.userId[7..] == t.id[|t.id| - Min(8, |t.id|)..]
    ensures e.severity == MapSeverity(t.severity) && e.status == MapStatus(t)
    ensures e.eventType == MapThreatType(t.threatType)
    ensures e.country == CountryLabel(t.sourceCountryCode, t.sourceCountry)
    ensures e.coordinates == GetCoordinates(t.sourceCountryCode)
  {
    var userId := "threat_" + Last(t.id, 8);
    assert userId[7..] == Last(t.id, 8);
    SecurityEvent(
      t.id, t.timestamp, MapThreatType(t.threatType), t.sourceIp, userId, MapStatus(t),
      t.description, MapSeverity(t.severity), CountryLabel(t.sourceCountryCode, t.sourceCountry),
      GetCoordinates(t.sourceCountryCode), t.mitreAttackId)
  }

  /** mapBackendDashboardStatsToFrontend: a missing history becomes empty. */
  function MapStats(b: BackendDashboardStats): (s: DashboardStats)
    ensures s.processed == b.processed && s.blocked == b.blocked && s.critical == b.critical
    ensures s.avgDetectTime == b.avgDetectTime
    ensures b.latencyHistory.None? ==> s.latencyHistory == []
    ensures b.latencyHistory.Some? ==> s.latencyHistory == b.latencyHistory.value
  {
    DashboardStats(b.processed, b.blocked, b.critical, b.avgDetectTime, b.latencyHistory.GetOr([]))
  }

  datatype Payload =
    | Attempts(attempts: nat)
    | Query(query: string)
    | PacketsPerSec(packetsPerSec: nat)
    | EncryptedFiles(encryptedFiles: nat)
    | Bytes(bytes: nat)

  /** The raw event body posted to the simulation endpoint; the timestamp is the
      millisecond clock reading its ISO string is made from. */
  datatype SimulationEvent = SimulationEvent(
    eventId: string,
    timestamp: nat,
    eventType: string,
    sourceIp: string,
    destinationIp: string,
    destinationPort: nat,
    protocol: string,
    payload: Payload,
    scenario: string)

  /** The `Math.random()` draws a template uses, each in [0, 1). */
  datatype SimulationDraws = SimulationDraws(
    octets: seq<real>,
    lowOctets: seq<real>,
    payload: real,
    normalType: real,
    normalPort: real,
    normalProtocol: real)
  {
    predicate Valid() {
      |octets| == 4 && |lowOctets| == 3 &&
      (forall i :: 0 <= i < 4 ==> 0.0 <= octets[i] < 1.0) &&
      (forall i :: 0 <= i < 3 ==> 0.0 <= lowOctets[i] < 1.0) &&
      0.0 <= payload < 1.0 && 0.0 <= normalType < 1.0 &&
      0.0 <= normalPort < 1.0 && 0.0 <= normalProtocol < 1.0
    }
  }

  const ATTACK_TEMPLATES: set<string> := {"brute_force", "sql_injection", "ddos", "ransomware"}
  const NORMAL_TYPES: seq<string> := ["api_request", "login_attempt", "firewall_event", "normal_traffic", "data_access", "network_traffic"]
  const NORMAL_PORTS: seq<nat> := [80, 443, 22, 3306, 5432, 8080]
  const NORMAL_PROTOCOLS: seq<string> := ["HTTPS", "HTTP", "SSH", "TCP", "UDP"]

  /** `${Math.floor(Math.random() * 255)}` for one draw. */
  function Octet(r: real): (s: string)
    requires 0.0 <= r < 1.0
    ensures IsDigitString(s) && DigitsValue(s) < 255
  {
    NatToString(Pick(r, 255))
  }

  /** Four decimal numbers below 256 joined by dots. */
  ghost predicate IsDottedQuad(ip: string) {
    exists parts: seq<string> :: IsOctets(parts) && ip == Join(parts, ".")
  }

  predicate IsOctets(parts: seq<string>) {
    |parts| == 4 && forall k :: 0 <= k < 4 ==> IsDigitString(parts[k]) && DigitsValue(parts[k]) < 256
  }

  /** A dotted quad splits on its dots into its four numbers. */
  lemma DottedQuadSplit(ip: string)
    requires IsDottedQuad(ip)
    ensures IsOctets(Split(ip, "."))
  {
    var parts: seq<string> :| IsOctets(parts) && ip == Join(parts, ".");
    forall k | 0 <= k < 4
      ensures '.' !in parts[k]
    {
      assert IsDigitString(parts[k]);
    }
    SplitJoin(parts, '.');
  }

  /** A dotted quad of four random octets. */
  function RandomIp(d: seq<real>): (ip: string)
    requires |d| == 4 && forall i :: 0 <= i < 4 ==> 0.0 <= d[i] < 1.0
    ensures IsDottedQuad(ip)
  {
    var parts := [Octet(d[0]), Octet(d[1]), Octet(d[2]), Octet(d[3])];
    assert IsOctets(parts);
    Join(parts, ".")
  }

  /** createSimulationEvent; an unknown scenario name gives the normal template. */
  function CreateSimulationEvent(scenario: string, now: nat, d: SimulationDraws): (e: SimulationEvent)
    requires d.Valid()
    ensures e.eventId == "SIM-" + NatToString(now) && e.timestamp == now
    ensures scenario in ATTACK_TEMPLATES ==> e.scenario == scenario && e.eventType == scenario
    ensures scenario !in ATTACK_TEMPLATES ==> e.scenario == "normal"
    ensures e.scenario == "normal" ==>
      e.eventType in NORMAL_TYPES && e.destinationPort in NORMAL_PORTS && e.protocol in NORMAL_PROTOCOLS &&
      StartsWith(e.sourceIp, "10.0.") && StartsWith(e.destinationIp, "10.0.")
    ensures e.scenario == "ransomware" ==> StartsWith(e.sourceIp, "10.0.0.")
    ensures scenario in ATTACK_TEMPLATES - {"ransomware"} ==> IsDottedQuad(e.sourceIp)
  {
    var id := "SIM-" + NatToString(now);
    match scenario
    case "brute_force" =>
      SimulationEvent(id, now, "brute_force", RandomIp(d.octets), "10.0.0.100", 22, "TCP",
        Attempts(Pick(d.payload, 200) + 50), "brute_force")
    case "sql_injection" =>
      SimulationEvent(id, now, "sql_injection", RandomIp(d.octets), "10.0.0.200", 443, "HTTPS",
        Query("' OR '1'='1' --"), "sql_injection")
    case "ddos" =>
      SimulationEvent(id, now, "ddos", RandomIp(d.octets), "10.0.0.1", 80, "UDP",
        PacketsPerSec(Pick(d.payload, 10000) + 5000), "ddos")
    case "ransomware" =>
      SimulationEvent(id, now, "ransomware", "10.0.0." + Octet(d.octets[0]), "10.0.0.250", 445, "SMB",
        EncryptedFiles(Pick(d.payload, 1000) + 100), "ransomware")
    case _ =>
      var src := "10.0." + NatToString(Pick(d.lowOctets[0], 10)) + "." + Octet(d.lowOctets[1]);
      var dst := "10.0." + NatToString(Pick(d.lowOctets[2], 10)) + "." + Octet(d.octets[3]);
      assert StartsWith(src, "10.0.") && StartsWith(dst, "10.0.");
      SimulationEvent(id, now, NORMAL_TYPES[Pick(d.normalType, 6)], src, dst,
        NORMAL_PORTS[Pick(d.normalPort, 6)], NORMAL_PROTOCOLS[Pick(d.normalProtocol, 5)],
        Bytes(Pick(d.payload, 5000) + 100), "normal")
  }
}
