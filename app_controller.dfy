/** The dashboard page's state: the simulated event ledger, the drifting risk
    score with its level and timeline, the gated analysis trigger, the reset and
    the mitigation sequence. Random draws, the clock and the analysis outcome are
    parameters. */
module AppController {
  import opened Wrappers
  import opened Seqs
  import opened Text
  import opened Numeric
  import opened UiTypes
  import TypeMappers

  const BASELINE_EXPLANATION: string :=
    "System telemetry indicates healthy operation. No significant deviations from established behavioral baselines detected in the current stream window."
  const BASELINE_SUMMARY: string := "Infrastructure operating within normal parameters."

  /** The reasoning shown while nothing is wrong. */
  const INITIAL_REASONING: AIReasoning := AIReasoning(
    BASELINE_EXPLANATION,
    ["Normal packet frequency", "Authorized endpoint access", "Known geo-distribution"],
    HighConfidence,
    BASELINE_SUMMARY,
    Some("N/A - Healthy Baseline"),
    ["Maintain monitoring", "Run routine log rotation"])

  const INITIAL_RISK: real := 12.0
  const INITIAL_STATS: DashboardStats :=
    DashboardStats(12847, 234, 0, 127, [130, 125, 128, 122, 127, 120, 115, 118, 110, 105])

  const LEDGER_CAP: nat := 50
  const TIMELINE_CAP: nat := 30
  const ANALYSIS_COOLDOWN_MS: int := 15000

  const NORMAL_COUNTRIES: seq<string> := ["US", "DE", "GB", "IN", "BR"]
  const ATTACK_COUNTRIES: seq<string> := ["RU", "CN", "KP", "IR"]
  const ROUTINE_TYPES: seq<EventType> := [LoginAttempt, ApiRequest, FirewallEvent, Authentication]
  const ROUTINE_DESCRIPTION: string := "Standard transaction processed via edge gateway."

  const MITIGATION_STEPS: seq<string> :=
    ["ISOLATING_TARGET_SEGMENTS", "ENACTING_ACL_OVERRIDE", "RESETTING_SESSION_HANDSHAKES", "DEPLOYING_IP_QUARANTINE"]
  const PROTECTION_VERIFIED: string := "PROTECTION_VERIFIED"

  predicate Unit(r: real) { 0.0 <= r < 1.0 }

  /** The `Math.random()` values one tick consumes, each in [0, 1). */
  datatype TickDraws = TickDraws(
    suspicious: real, country: real, eventType: real, octets: seq<real>, lastOctet: real,
    user: real, status: real, severity: real, eps: real, latency: real, blocked: real, risk: real)
  {
    predicate Valid() {
      |octets| == 4 && (forall i :: 0 <= i < 4 ==> Unit(octets[i])) &&
      Unit(suspicious) && Unit(country) && Unit(eventType) && Unit(lastOctet) && Unit(user) &&
      Unit(status) && Unit(severity) && Unit(eps) && Unit(latency) && Unit(blocked) && Unit(risk)
    }
  }

  const BRUTE_FORCE_DESCRIPTION: string := "Massive authentication failures detected on management interface."
  const SQL_INJECTION_DESCRIPTION: string := "WAF Alert: SQL Injection pattern detected in query parameters."
  const DDOS_DESCRIPTION: string := "Anomaly: Unexpected spike in UDP traffic from distributed sources."
  const RANSOMWARE_DESCRIPTION: string := "File System: Bulk encryption pattern detected in shared volumes."

  /** What an attack scenario's suspicious events look like. */
  datatype AttackSignature = AttackSignature(eventType: EventType, description: string, mitre: string)

  function Signature(scenario: ScenarioType): (sig: AttackSignature)
    requires scenario != NormalFlow
    ensures scenario == BruteForceScenario ==> sig.eventType == BruteForce && sig.mitre == "T1110"
    ensures scenario == SqlInjectionScenario ==> sig.eventType == SqlInjection && sig.mitre == "T1190"
    ensures scenario == DdosScenario ==> sig.eventType == DdosAttack && sig.mitre == "T1498"
    ensures scenario == RansomwareScenario ==> sig.eventType == RansomwareSignal && sig.mitre == "T1486"
  {
    match scenario
    case BruteForceScenario => AttackSignature(BruteForce, BRUTE_FORCE_DESCRIPTION, "T1110")
    case SqlInjectionScenario => AttackSignature(SqlInjection, SQL_INJECTION_DESCRIPTION, "T1190")
    case DdosScenario => AttackSignature(DdosAttack, DDOS_DESCRIPTION, "T1498")
    case RansomwareScenario => AttackSignature(RansomwareSignal, RANSOMWARE_DESCRIPTION, "T1486")
  }

  /** A tick's event is suspicious during an attack with probability 0.8. */
  predicate IsSuspicious(scenario: ScenarioType, d: TickDraws) {
    scenario != NormalFlow && d.suspicious > 0.2
  }

  /** The country of a tick's event: a hostile one for a suspicious event. */
  function TickCountry(suspicious: bool, r: real): (c: string)
    requires Unit(r)
    ensures suspicious ==> c in ATTACK_COUNTRIES
    ensures !suspicious ==> c in NORMAL_COUNTRIES
    ensures c in COUNTRY_COORDS
  {
    if suspicious then ATTACK_COUNTRIES[Pick(r, 4)] else NORMAL_COUNTRIES[Pick(r, 5)]
  }

  lemma JoinInternal(o: string)
    ensures Join(["10", "0", "0", o], ".") == "10.0.0." + o
  {
    var parts := ["10", "0", "0", o];
    assert Join(parts[3..], ".") == o;
    assert Join(parts[2..], ".") == "0" + "." + o by { assert parts[2..][1..] == parts[3..]; }
    assert Join(parts[1..], ".") == "0" + "." + ("0" + "." + o) by { assert parts[1..][1..] == parts[2..]; }
    assert "10" + "." + ("0" + "." + ("0" + "." + o)) == "10.0.0." + o;
  }

  /** `10.0.0.${Math.floor(Math.random() * 255)}`. */
  function InternalIp(r: real): (ip: string)
    requires Unit(r)
    ensures StartsWith(ip, "10.0.0.")
    ensures TypeMappers.IsDottedQuad(ip)
  {
    var o := TypeMappers.Octet(r);
    JoinInternal(o);
    assert TypeMappers.IsOctets(["10", "0", "0", o]) by {
      assert DigitsValue("10") == 10 by { assert "10"[..1] == "1"; }
      assert DigitsValue("0") == 0;
    }
    assert ("10.0.0." + o)[..7] == "10.0.0.";
    "10.0.0." + o
  }

  /** The event a tick creates, numbered n. */
  function TickEvent(scenario: ScenarioType, n: nat, now: int, d: TickDraws): (e: SecurityEvent)
    requires d.Valid()
    ensures e.id == "TX-" + NatToString(n) && e.timestamp == now
    ensures e.severity == Critical <==> IsSuspicious(scenario, d)
    ensures e.status == StatusSuspicious <==> IsSuspicious(scenario, d)
    ensures e.mitre.Some? <==> IsSuspicious(scenario, d)
    ensures IsSuspicious(scenario, d) ==>
      e.country in ATTACK_COUNTRIES && e.userId == "sys_admin_vulnerable" &&
      e.eventType == Signature(scenario).eventType && e.description == Signature(scenario).description &&
      e.mitre == Some(Signature(scenario).mitre)
    ensures !IsSuspicious(scenario, d) ==>
      e.country in NORMAL_COUNTRIES && e.eventType in ROUTINE_TYPES &&
      e.description == ROUTINE_DESCRIPTION && (e.severity == Medium || e.severity == Info) &&
      (e.status == StatusSuccess || e.status == StatusFailure) && StartsWith(e.sourceIp, "10.0.0.")
    ensures e.country in COUNTRY_COORDS && e.coordinates == COUNTRY_COORDS[e.country]
    ensures TypeMappers.IsDottedQuad(e.sourceIp)
  {
    var suspicious := IsSuspicious(scenario, d);
    var country := TickCountry(suspicious, d.country);
    if suspicious then
      var sig := Signature(scenario);
      SecurityEvent("TX-" + NatToString(n), now, sig.eventType, TypeMappers.RandomIp(d.octets),
        "sys_admin_vulnerable", StatusSuspicious, sig.description, Critical,
        country, CoordsOrOrigin(country), Some(sig.mitre))
    else
      SecurityEvent("TX-" + NatToString(n), now, ROUTINE_TYPES[Pick(d.eventType, 4)], InternalIp(d.lastOctet),
        "user_" + NatToString(Pick(d.user, 1000)),
        if d.status > 0.95 then StatusFailure else StatusSuccess,
        ROUTINE_DESCRIPTION,
        if d.severity > 0.8 then Medium else Info,
        country, CoordsOrOrigin(country), None)
  }

  /** Events per second shown in the header. */
  function Eps(isAttack: bool, r: real): (eps: nat)
    requires Unit(r)
    ensures isAttack ==> 50 <= eps < 150
    ensures !isAttack ==> 1 <= eps <= 5
  {
    if isAttack then Pick(r, 100) + 50 else Pick(r, 5) + 1
  }

  /** Detection latency stays between 70 and 130 ms, with at most 15 samples. */
  predicate StatsInRange(s: DashboardStats) {
    70 <= s.avgDetectTime <= 130 && |s.latencyHistory| <= 15 &&
    forall i :: 0 <= i < |s.latencyHistory| ==> 70 <= s.latencyHistory[i] <= 130
  }

  lemma InitialStatsInRange()
    ensures StatsInRange(INITIAL_STATS)
  {
  }

  /** The statistics update of one tick. */
  function NextStats(prev: DashboardStats, isAttack: bool, suspicious: bool, latency: real, blocked: real): (s: DashboardStats)
    requires Unit(latency) && Unit(blocked)
    ensures s.processed == prev.processed + 1
    ensures s.blocked == if isAttack && blocked > 0.8 then prev.blocked + 1 else prev.blocked
    ensures s.critical == if isAttack && suspicious then prev.critical + 1 else prev.critical
    ensures s.latencyHistory == Last(prev.latencyHistory, 14) + [s.avgDetectTime]
    ensures StatsInRange(prev) ==> StatsInRange(s)
    ensures StatsInRange(prev) && isAttack ==> s.avgDetectTime <= prev.avgDetectTime
    ensures StatsInRange(prev) && !isAttack ==> s.avgDetectTime >= prev.avgDetectTime
  {
    var avg := prev.avgDetectTime as real;
    var newLatency := if isAttack then MaxReal(70.0, avg - latency * 2.0) else MinReal(130.0, avg + latency);
    var rounded := JsRound(newLatency);
    assert StatsInRange(prev) ==> (70 <= rounded <= 130 &&
      (isAttack ==> rounded <= prev.avgDetectTime) && (!isAttack ==> rounded >= prev.avgDetectTime)) by {
      if StatsInRange(prev) {
        JsRoundBounds(newLatency, 70, 130);
        if isAttack {
          JsRoundBounds(newLatency, 70, prev.avgDetectTime);
        } else {
          JsRoundBounds(newLatency, prev.avgDetectTime, 130);
        }
      }
    }
    DashboardStats(
      prev.processed + 1,
      if isAttack && blocked > 0.8 then prev.blocked + 1 else prev.blocked,
      if isAttack && suspicious then prev.critical + 1 else prev.critical,
      rounded,
      Last(prev.latencyHistory, 14) + [rounded])
  }

  /** The risk score after one tick. */
  function DriftRisk(prev: real, mitigation: bool, isAttack: bool, r: real): (next: real)
    requires Unit(r)
    ensures mitigation ==> next >= 8.0 && (prev >= 9.5 ==> next == prev - 1.5) && (prev < 9.5 ==> next == 8.0)
    ensures 0.0 <= prev <= 100.0 ==> 0.0 <= next <= 100.0
    ensures !mitigation && isAttack && 0.0 <= prev <= 100.0 ==> prev <= next < prev + 12.0
    ensures !mitigation && !isAttack && 0.0 <= prev <= 100.0 ==>
      MaxReal(0.0, prev - 1.5) <= next < prev + 0.5
  {
    if mitigation then MaxReal(8.0, prev - 1.5)
    else
      var next := if isAttack then prev + r * 12.0 else prev + (r * 2.0 - 1.5);
      MinReal(100.0, MaxReal(0.0, next))
  }

  /** The threat level ladder on the risk score. */
  function LevelOf(risk: real): (l: ThreatLevel)
    ensures l == LevelCritical <==> risk > 65.0
    ensures l == LevelSuspicious <==> 35.0 < risk <= 65.0
    ensures l == LevelNormal <==> risk <= 35.0
  {
    if risk > 65.0 then LevelCritical else if risk > 35.0 then LevelSuspicious else LevelNormal
  }

  function LevelRank(l: ThreatLevel): nat {
    match l
    case LevelNormal => 0
    case LevelSuspicious => 1
    case LevelCritical => 2
  }

  /** A higher score never gives a lower level. */
  lemma LevelMonotone(a: real, b: real)
    requires a <= b
    ensures LevelRank(LevelOf(a)) <= LevelRank(LevelOf(b))
  {
  }

  /** The events handed to the analysis: the first five CRITICAL ones, in ledger order. */
  function CriticalBatch(events: seq<SecurityEvent>): (batch: seq<SecurityEvent>)
    ensures |batch| == Min(5, |Filter(events, IsCriticalEvent)|)
    ensures FirstMatches(batch, events, IsCriticalEvent)
    ensures forall i :: 0 <= i < |batch| ==> batch[i].severity == Critical
    ensures IsSubsequence(batch, events)
    ensures |batch| == 0 <==> forall i :: 0 <= i < |events| ==> events[i].severity != Critical
    ensures |batch| < 5 ==> forall i :: 0 <= i < |events| && events[i].severity == Critical ==> events[i] in batch
  {
    var f := Filter(events, IsCriticalEvent);
    FilterIsSubsequence(events, IsCriticalEvent);
    TakeIsSubsequence(f, 5);
    SubsequenceTransitive(Take(f, 5), f, events);
    FilterPrefixFirstMatches(events, IsCriticalEvent, 5);
    assert |f| == 0 ==> forall i :: 0 <= i < |events| ==> events[i].severity != Critical by {
      forall i | 0 <= i < |events| ensures |f| == 0 ==> events[i].severity != Critical {
        FilterMembership(events, IsCriticalEvent, events[i]);
      }
    }
    assert |Take(f, 5)| < 5 ==> forall i :: 0 <= i < |events| && events[i].severity == Critical ==> events[i] in Take(f, 5) by {
      forall i | 0 <= i < |events| && events[i].severity == Critical
        ensures |Take(f, 5)| < 5 ==> events[i] in Take(f, 5)
      {
        FilterMembership(events, IsCriticalEvent, events[i]);
      }
    }
    Take(f, 5)
  }

  /** Analysis may start: the level is raised, the last attempt is more than 15 s
      old, and no analysis is in flight. */
  predicate AnalysisGate(level: ThreatLevel, now: int, lastAnalysis: int, inFlight: bool) {
    level != LevelNormal && now - lastAnalysis > ANALYSIS_COOLDOWN_MS && !inFlight
  }

  /** The level is back to NORMAL while a non-baseline summary is shown. */
  predicate BackToBaseline(level: ThreatLevel, shown: AIReasoning) {
    level == LevelNormal && shown.summary != BASELINE_SUMMARY
  }

  /** Ledger entries are numbered "TX-n", newest first, with numbers strictly
      decreasing from at most `counter` down to at least 1. */
  predicate Numbered(events: seq<SecurityEvent>, nums: seq<nat>, counter: nat)
    decreases |events|
  {
    |nums| == |events| &&
    (|events| > 0 ==>
      events[0].id == "TX-" + NatToString(nums[0]) && 1 <= nums[0] <= counter &&
      Numbered(events[1..], nums[1..], nums[0] - 1))
  }

  /** A numbered ledger's numbers all lie in [1, counter]. */
  lemma {:induction false} NumberedBounds(events: seq<SecurityEvent>, nums: seq<nat>, counter: nat, i: nat)
    requires Numbered(events, nums, counter) && i < |events|
    ensures 1 <= nums[i] <= counter && nums[i] + i <= counter
    ensures events[i].id == "TX-" + NatToString(nums[i])
    decreases i
  {
    if i > 0 {
      NumberedBounds(events[1..], nums[1..], nums[0] - 1, i - 1);
    }
  }

  /** A numbered ledger's numbers strictly decrease. */
  lemma {:induction false} NumberedDecreasing(events: seq<SecurityEvent>, nums: seq<nat>, counter: nat, i: nat, j: nat)
    requires Numbered(events, nums, counter) && i < j < |events|
    ensures nums[i] > nums[j]
    decreases i
  {
    if i == 0 {
      NumberedBounds(events[1..], nums[1..], nums[0] - 1, j - 1);
    } else {
      NumberedDecreasing(events[1..], nums[1..], nums[0] - 1, i - 1, j - 1);
    }
  }

  /** No two ledger entries share an id. */
  lemma DistinctIds(events: seq<SecurityEvent>, nums: seq<nat>, counter: nat)
    requires Numbered(events, nums, counter)
    ensures forall i, j :: 0 <= i < j < |events| ==> events[i].id != events[j].id
  {
    forall i, j | 0 <= i < j < |events|
      ensures events[i].id != events[j].id
    {
      NumberedDecreasing(events, nums, counter, i, j);
      NumberedBounds(events, nums, counter, i);
      NumberedBounds(events, nums, counter, j);
      assert events[i].id[3..] == NatToString(nums[i]) && events[j].id[3..] == NatToString(nums[j]);
      if NatToString(nums[i]) == NatToString(nums[j]) {
        NatToStringInjective(nums[i], nums[j]);
      }
    }
  }

  /** Keeping a prefix of a numbered ledger keeps it numbered. */
  lemma {:induction false} NumberedTake(events: seq<SecurityEvent>, nums: seq<nat>, counter: nat, k: nat)
    requires Numbered(events, nums, counter)
    ensures Numbered(Take(events, k), Take(nums, k), counter)
    decreases k
  {
    if k > 0 && |events| > 0 {
      NumberedTake(events[1..], nums[1..], nums[0] - 1, k - 1);
      assert Take(events, k)[1..] == Take(events[1..], k - 1);
      assert Take(nums, k)[1..] == Take(nums[1..], k - 1);
    }
  }

  /** Prepending the next-numbered event and capping keeps the numbering. */
  lemma NumberedPrepend(e: SecurityEvent, events: seq<SecurityEvent>, nums: seq<nat>, counter: nat)
    requires Numbered(events, nums, counter)
    requires e.id == "TX-" + NatToString(counter + 1)
    ensures Numbered(Take([e] + events, LEDGER_CAP), Take([counter + 1] + nums, LEDGER_CAP), counter + 1)
  {
    var es, ns := [e] + events, [counter + 1] + nums;
    assert es[1..] == events && ns[1..] == nums;
    NumberedTake(es, ns, counter + 1, LEDGER_CAP);
  }

  class Controller {
    var events: seq<SecurityEvent>
    var riskScore: real
    var threatLevel: ThreatLevel
    var isStreaming: bool
    var eps: nat
    var aiReasoning: AIReasoning
    var isAnalyzing: bool
    var timeline: seq<TimelineData>
    var scenario: ScenarioType
    var mitigationActive: bool
    var playbookStep: Option<string>
    var stats: DashboardStats
    /** `eventIdCounter.current`: the number of the last event created. */
    var counter: nat
    /** `lastAnalysisRef.current`: when analysis was last attempted, in ms. */
    var lastAnalysis: int
    /** The number in each ledger entry's id. */
    ghost var idNums: seq<nat>

    ghost predicate Valid()
      reads this`riskScore, this`events, this`idNums, this`counter, this`stats, this`timeline
    {
      0.0 <= riskScore <= 100.0 && Ledger() && StatsInRange(stats) && |timeline| <= TIMELINE_CAP
    }

    ghost predicate Ledger()
      reads this`events, this`idNums, this`counter
    {
      |events| <= LEDGER_CAP && Numbered(events, idNums, counter)
    }

    /** The first render, including the level/timeline effect's first run. */
    constructor(timeLabel: string)
      ensures Valid()
      ensures events == [] && riskScore == INITIAL_RISK && threatLevel == LevelNormal
      ensures isStreaming && eps == 0 && aiReasoning == INITIAL_REASONING && !isAnalyzing
      ensures timeline == [TimelineData(timeLabel, INITIAL_RISK)]
      ensures scenario == NormalFlow && !mitigationActive && playbookStep == None
      ensures stats == INITIAL_STATS && counter == 0 && lastAnalysis == 0
    {
      events := [];
      riskScore := INITIAL_RISK;
      threatLevel := LevelNormal;
      isStreaming := true;
      eps := 0;
      aiReasoning := INITIAL_REASONING;
      isAnalyzing := false;
      timeline := [TimelineData(timeLabel, INITIAL_RISK)];
      scenario := NormalFlow;
      mitigationActive := false;
      playbookStep := None;
      stats := INITIAL_STATS;
      counter := 0;
      lastAnalysis := 0;
      idNums := [];
    }

    /** The effect on `[riskScore]`: it runs only when the score changed, then
        recomputes the level and appends a sample, keeping the last 30. */
    method RiskEffect(prevRisk: real, timeLabel: string)
      requires Valid()
      modifies this
      ensures Valid()
      ensures riskScore != prevRisk ==>
        threatLevel == LevelOf(riskScore) &&
        timeline == Last(old(timeline) + [TimelineData(timeLabel, riskScore)], TIMELINE_CAP)
      ensures riskScore == prevRisk ==> threatLevel == old(threatLevel) && timeline == old(timeline)
      ensures events == old(events) && riskScore == old(riskScore) && isStreaming == old(isStreaming)
      ensures eps == old(eps) && aiReasoning == old(aiReasoning) && isAnalyzing == old(isAnalyzing)
      ensures scenario == old(scenario) && mitigationActive == old(mitigationActive)
      ensures playbookStep == old(playbookStep) && stats == old(stats) && counter == old(counter)
      ensures lastAnalysis == old(lastAnalysis) && idNums == old(idNums)
    {
      if riskScore != prevRisk {
        threatLevel := LevelOf(riskScore);
        timeline := Last(timeline + [TimelineData(timeLabel, riskScore)], TIMELINE_CAP);
      }
    }

    /** The ledger half of a tick: the event, numbered by the incremented counter,
        goes first and the ledger keeps its 50 newest entries. */
    method PushEvent(e: SecurityEvent)
      requires Valid() && e.id == "TX-" + NatToString(counter + 1)
      modifies this
      ensures Valid()
      ensures counter == old(counter) + 1 && events == Take([e] + old(events), LEDGER_CAP)
      ensures riskScore == old(riskScore) && threatLevel == old(threatLevel) && isStreaming == old(isStreaming)
      ensures eps == old(eps) && aiReasoning == old(aiReasoning) && isAnalyzing == old(isAnalyzing)
      ensures timeline == old(timeline) && scenario == old(scenario) && mitigationActive == old(mitigationActive)
      ensures playbookStep == old(playbookStep) && stats == old(stats) && lastAnalysis == old(lastAnalysis)
    {
      NumberedPrepend(e, events, idNums, counter);
      counter := counter + 1;
      events := Take([e] + events, LEDGER_CAP);
      idNums := Take([counter] + idNums, LEDGER_CAP);
    }

    /** The metrics half of a tick: events per second, statistics and the drifted
        risk score, all driven by the current scenario. */
    method UpdateMetrics(d: TickDraws)
      requires d.Valid() && 0.0 <= riskScore <= 100.0 && StatsInRange(stats)
      modifies this
      ensures 0.0 <= riskScore <= 100.0 && StatsInRange(stats)
      ensures eps == Eps(scenario != NormalFlow, d.eps)
      ensures stats == NextStats(old(stats), scenario != NormalFlow, IsSuspicious(scenario, d), d.latency, d.blocked)
      ensures riskScore == DriftRisk(old(riskScore), mitigationActive, scenario != NormalFlow, d.risk)
      ensures events == old(events) && threatLevel == old(threatLevel) && isStreaming == old(isStreaming)
      ensures aiReasoning == old(aiReasoning) && isAnalyzing == old(isAnalyzing) && timeline == old(timeline)
      ensures scenario == old(scenario) && mitigationActive == old(mitigationActive)
      ensures playbookStep == old(playbookStep) && counter == old(counter) && lastAnalysis == old(lastAnalysis)
      ensures idNums == old(idNums)
    {
      var isAttack := scenario != NormalFlow;
      eps := Eps(isAttack, d.eps);
      stats := NextStats(stats, isAttack, IsSuspicious(scenario, d), d.latency, d.blocked);
      riskScore := DriftRisk(riskScore, mitigationActive, isAttack, d.risk);
    }

    /** One firing of the simulation interval (which exists only while streaming),
        followed by the risk effect. */
    method Tick(now: int, timeLabel: string, d: TickDraws)
      requires Valid() && d.Valid()
      modifies this
      ensures Valid()
      ensures !old(isStreaming) ==> unchanged(this)
      ensures old(isStreaming) ==> counter == old(counter) + 1
      ensures old(isStreaming) ==>
        events == Take([TickEvent(old(scenario), counter, now, d)] + old(events), LEDGER_CAP)
      ensures old(isStreaming) ==> eps == Eps(old(scenario) != NormalFlow, d.eps)
      ensures old(isStreaming) ==>
        stats == NextStats(old(stats), old(scenario) != NormalFlow, IsSuspicious(old(scenario), d), d.latency, d.blocked)
      ensures old(isStreaming) ==>
        riskScore == DriftRisk(old(riskScore), old(mitigationActive), old(scenario) != NormalFlow, d.risk)
      ensures riskScore != old(riskScore) ==>
        threatLevel == LevelOf(riskScore) &&
        timeline == Last(old(timeline) + [TimelineData(timeLabel, riskScore)], TIMELINE_CAP)
      ensures riskScore == old(riskScore) ==> threatLevel == old(threatLevel) && timeline == old(timeline)
      ensures isStreaming == old(isStreaming) && aiReasoning == old(aiReasoning)
      ensures isAnalyzing == old(isAnalyzing) && scenario == old(scenario)
      ensures mitigationActive == old(mitigationActive) && playbookStep == old(playbookStep)
      ensures lastAnalysis == old(lastAnalysis)
    {
      if !isStreaming {
        return;
      }
      var prevRisk := riskScore;
      PushEvent(TickEvent(scenario, counter + 1, now, d));
      UpdateMetrics(d);
      RiskEffect(prevRisk, timeLabel);
    }

    /** The analysis effect. Past the gate (level not NORMAL, more than 15 s since
        the last attempt, nothing in flight) the attempt time is recorded and, when
        the ledger holds CRITICAL events, analysis of the first five starts; the
        batch is returned. Otherwise, at level NORMAL with a non-baseline summary,
        the baseline reasoning returns and mitigation ends. */
    method AnalysisEffect(now: int) returns (request: Option<seq<SecurityEvent>>)
      modifies this
      ensures AnalysisGate(old(threatLevel), now, old(lastAnalysis), old(isAnalyzing)) ==>
        lastAnalysis == now && aiReasoning == old(aiReasoning) && mitigationActive == old(mitigationActive) &&
        request == (if |CriticalBatch(events)| > 0 then Some(CriticalBatch(events)) else None) &&
        isAnalyzing == (|CriticalBatch(events)| > 0)
      ensures !AnalysisGate(old(threatLevel), now, old(lastAnalysis), old(isAnalyzing)) ==>
        request == None && lastAnalysis == old(lastAnalysis) && isAnalyzing == old(isAnalyzing)
      ensures (!AnalysisGate(old(threatLevel), now, old(lastAnalysis), old(isAnalyzing)) &&
        BackToBaseline(threatLevel, old(aiReasoning))) ==>
        aiReasoning == INITIAL_REASONING && !mitigationActive
      ensures (!AnalysisGate(old(threatLevel), now, old(lastAnalysis), old(isAnalyzing)) &&
        !BackToBaseline(threatLevel, old(aiReasoning))) ==>
        aiReasoning == old(aiReasoning) && mitigationActive == old(mitigationActive)
      ensures events == old(events) && riskScore == old(riskScore) && threatLevel == old(threatLevel)
      ensures isStreaming == old(isStreaming) && eps == old(eps) && timeline == old(timeline)
      ensures scenario == old(scenario) && playbookStep == old(playbookStep) && stats == old(stats)
      ensures counter == old(counter) && idNums == old(idNums)
    {
      request := None;
      if AnalysisGate(threatLevel, now, lastAnalysis, isAnalyzing) {
        lastAnalysis := now;
        var batch := CriticalBatch(events);
        if |batch| > 0 {
          isAnalyzing := true;
          request := Some(batch);
        }
      } else if BackToBaseline(threatLevel, aiReasoning) {
        RestoreBaseline();
      }
    }

    /** The analysis resolved: its reasoning is shown. */
    method AnalysisSucceeded(res: AIReasoning)
      modifies this
      ensures aiReasoning == res && !isAnalyzing
      ensures events == old(events) && riskScore == old(riskScore) && threatLevel == old(threatLevel)
      ensures isStreaming == old(isStreaming) && eps == old(eps) && timeline == old(timeline)
      ensures scenario == old(scenario) && mitigationActive == old(mitigationActive)
      ensures playbookStep == old(playbookStep) && stats == old(stats) && counter == old(counter)
      ensures lastAnalysis == old(lastAnalysis) && idNums == old(idNums)
    {
      aiReasoning := res;
      isAnalyzing := false;
    }

    /** The analysis rejected: the previous reasoning stays. */
    method AnalysisFailed()
      modifies this
      ensures !isAnalyzing && aiReasoning == old(aiReasoning)
      ensures events == old(events) && riskScore == old(riskScore) && threatLevel == old(threatLevel)
      ensures isStreaming == old(isStreaming) && eps == old(eps) && timeline == old(timeline)
      ensures scenario == old(scenario) && mitigationActive == old(mitigationActive)
      ensures playbookStep == old(playbookStep) && stats == old(stats) && counter == old(counter)
      ensures lastAnalysis == old(lastAnalysis) && idNums == old(idNums)
    {
      isAnalyzing := false;
    }

    /** The scenario chosen in the demo panel. */
    method SetScenario(s: ScenarioType)
      modifies this
      ensures scenario == s
      ensures events == old(events) && riskScore == old(riskScore) && threatLevel == old(threatLevel)
      ensures isStreaming == old(isStreaming) && eps == old(eps) && timeline == old(timeline)
      ensures aiReasoning == old(aiReasoning) && isAnalyzing == old(isAnalyzing)
      ensures mitigationActive == old(mitigationActive)
      ensures playbookStep == old(playbookStep) && stats == old(stats) && counter == old(counter)
      ensures lastAnalysis == old(lastAnalysis) && idNums == old(idNums)
    {
      scenario := s;
    }

    /** Pausing or resuming the feed. */
    method SetStreaming(on: bool)
      modifies this
      ensures isStreaming == on
      ensures events == old(events) && riskScore == old(riskScore) && threatLevel == old(threatLevel)
      ensures scenario == old(scenario) && eps == old(eps) && timeline == old(timeline)
      ensures aiReasoning == old(aiReasoning) && isAnalyzing == old(isAnalyzing)
      ensures mitigationActive == old(mitigationActive)
      ensures playbookStep == old(playbookStep) && stats == old(stats) && counter == old(counter)
      ensures lastAnalysis == old(lastAnalysis) && idNums == old(idNums)
    {
      isStreaming := on;
    }

    /** resetSystem: ledger, score, level, scenario, reasoning, mitigation and
        statistics go back to their initial values. The id counter, the last
        analysis time, the flight flag, the feed state and the timeline are kept. */
    method ResetSystem()
      requires |timeline| <= TIMELINE_CAP
      modifies this
      ensures Valid()
      ensures events == [] && riskScore == INITIAL_RISK && threatLevel == LevelNormal
      ensures scenario == NormalFlow && aiReasoning == INITIAL_REASONING
      ensures !mitigationActive && playbookStep == None && stats == INITIAL_STATS
      ensures counter == old(counter) && lastAnalysis == old(lastAnalysis) && timeline == old(timeline)
      ensures isAnalyzing == old(isAnalyzing) && isStreaming == old(isStreaming) && eps == old(eps)
    {
      InitialStatsInRange();
      events := [];
      idNums := [];
      riskScore := INITIAL_RISK;
      threatLevel := LevelNormal;
      scenario := NormalFlow;
      playbookStep := None;
      stats := INITIAL_STATS;
      RestoreBaseline();
    }

    /** The baseline reasoning returns and mitigation ends. */
    method RestoreBaseline()
      modifies this
      ensures aiReasoning == INITIAL_REASONING && !mitigationActive
      ensures events == old(events) && riskScore == old(riskScore) && threatLevel == old(threatLevel)
      ensures isStreaming == old(isStreaming) && eps == old(eps) && timeline == old(timeline)
      ensures isAnalyzing == old(isAnalyzing) && scenario == old(scenario)
      ensures playbookStep == old(playbookStep) && stats == old(stats) && counter == old(counter)
      ensures lastAnalysis == old(lastAnalysis) && idNums == old(idNums)
    {
      aiReasoning := INITIAL_REASONING;
      mitigationActive := false;
    }

    /** The reset button: resetSystem, then the risk effect if the score changed. */
    method Reset(timeLabel: string)
      requires Valid()
      modifies this
      ensures Valid()
      ensures events == [] && riskScore == INITIAL_RISK && threatLevel == LevelNormal
      ensures scenario == NormalFlow && aiReasoning == INITIAL_REASONING
      ensures !mitigationActive && playbookStep == None && stats == INITIAL_STATS
      ensures counter == old(counter) && lastAnalysis == old(lastAnalysis)
      ensures isAnalyzing == old(isAnalyzing) && isStreaming == old(isStreaming) && eps == old(eps)
      ensures old(riskScore) != INITIAL_RISK ==>
        timeline == Last(old(timeline) + [TimelineData(timeLabel, INITIAL_RISK)], TIMELINE_CAP)
      ensures old(riskScore) == INITIAL_RISK ==> timeline == old(timeline)
    {
      var prevRisk := riskScore;
      ResetSystem();
      RiskEffect(prevRisk, timeLabel);
    }

    /** handleExecuteMitigation: mitigation on, the four steps shown in order, then
        PROTECTION_VERIFIED, then no step. Returns the steps as shown. */
    method ExecuteMitigation() returns (shown: seq<string>)
      modifies this
      ensures mitigationActive && playbookStep == None
      ensures shown == MITIGATION_STEPS + [PROTECTION_VERIFIED]
      ensures events == old(events) && riskScore == old(riskScore) && threatLevel == old(threatLevel)
      ensures isStreaming == old(isStreaming) && eps == old(eps) && timeline == old(timeline)
      ensures aiReasoning == old(aiReasoning) && isAnalyzing == old(isAnalyzing) && scenario == old(scenario)
      ensures stats == old(stats) && counter == old(counter)
      ensures lastAnalysis == old(lastAnalysis) && idNums == old(idNums)
    {
      mitigationActive := true;
      shown := [];
      var i := 0;
      while i < |MITIGATION_STEPS|
        invariant 0 <= i <= |MITIGATION_STEPS|
        invariant shown == MITIGATION_STEPS[..i]
        invariant mitigationActive
        invariant events == old(events) && riskScore == old(riskScore) && threatLevel == old(threatLevel)
        invariant isStreaming == old(isStreaming) && eps == old(eps) && timeline == old(timeline)
        invariant aiReasoning == old(aiReasoning) && isAnalyzing == old(isAnalyzing) && scenario == old(scenario)
        invariant stats == old(stats) && counter == old(counter)
        invariant lastAnalysis == old(lastAnalysis) && idNums == old(idNums)
      {
        playbookStep := Some(MITIGATION_STEPS[i]);
        shown := shown + [MITIGATION_STEPS[i]];
        i := i + 1;
      }
      playbookStep := Some(PROTECTION_VERIFIED);
      shown := shown + [PROTECTION_VERIFIED];
      playbookStep := None;
    }
  }
}
