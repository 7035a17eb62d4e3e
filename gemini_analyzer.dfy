/** The threat analyzer: healthy-flow events get a fixed verdict, the model's
    JSON reply is unwrapped from markdown fences and decoded, and any failure on
    the way falls back to the rule-based verdict. The model call and the JSON
    decoder are outside the model; their outcomes are inputs. */
module GeminiAnalyzer {
  import opened Wrappers
  import opened Seqs
  import opened Text
  import opened BackendTypes
  import MitreMapping

  const JSON_FENCE := "```json"
  const FENCE := "```"

  /** The fenced block marker starts with the plain fence, so wherever it occurs the plain fence does too. */
  lemma JsonFenceHoldsFence(s: string)
    requires Contains(s, JSON_FENCE)
    ensures Contains(s, FENCE)
  {
    var i :| 0 <= i <= |s| && OccursAt(s, JSON_FENCE, i);
    assert s[i..i + 3] == s[i..i + 7][..3];
    assert OccursAt(s, FENCE, i);
  }

  /** The markdown unwrapping of analyze: with a "```json" block, the text after
      its first marker up to the next fence; else with a plain fence, the text
      between the first two fences; else the text unchanged. */
  function StripFences(text: string): (r: string)
    ensures !Contains(r, FENCE)
    ensures !Contains(text, FENCE) ==> r == text
  {
    if Contains(text, JSON_FENCE) then
      JsonFenceHoldsFence(text);
      Split(Split(text, JSON_FENCE)[1], FENCE)[0]
    else if Contains(text, FENCE) then Split(Split(text, FENCE)[1], FENCE)[0]
    else
      assert !Contains(text, JSON_FENCE);
      text
  }

  lemma NoBacktickNoFence(s: string, w: string)
    requires '`' !in s && |w| > 0 && w[0] == '`'
    ensures !Contains(s, w)
  {
    forall j | 0 <= j <= |s|
      ensures !OccursAt(s, w, j)
    {
      if j + |w| <= |s| {
        assert s[j..j + |w|][0] == s[j];
      }
    }
  }

  /** A marker that starts with a backquote is first found right after a prefix without backquotes. */
  lemma FirstMarkerAfter(a: string, w: string, b: string)
    requires '`' !in a && |w| > 0 && w[0] == '`'
    ensures IndexOf(a + w + b, w) == Some(|a|)
  {
    var s := a + w + b;
    assert s[|a|..|a| + |w|] == w;
    assert OccursAt(s, w, |a|);
    forall j | 0 <= j < |a|
      ensures !OccursAt(s, w, j)
    {
      assert s[j..j + |w|][0] == a[j];
    }
    match IndexOf(s, w)
    case None =>
    case Some(v) =>
      assert !(v < |a|);
  }

  /** The second piece of a split is the first piece of what follows the first separator. */
  lemma SplitSecond(s: string, sep: string, i: nat)
    requires |sep| > 0 && IndexOf(s, sep) == Some(i)
    ensures |Split(s, sep)| >= 2 && Split(s, sep)[1] == Split(s[i + |sep|..], sep)[0]
  {
    var tail := Split(s[i + |sep|..], sep);
    var r := Split(s, sep);
    assert r == [s[..i]] + tail;
  }

  /** In the body of a fenced block without further backquotes, the "```json"
      marker can only occur where the closing fence starts. */
  lemma MarkerOnlyAtClosingFence(body: string, tail: string)
    requires '`' !in body && '`' !in tail
    ensures IndexOf(body + FENCE + tail, JSON_FENCE).None? ||
      IndexOf(body + FENCE + tail, JSON_FENCE) == Some(|body|)
  {
    var rest := body + FENCE + tail;
    forall j | 0 <= j <= |rest| && j != |body|
      ensures !OccursAt(rest, JSON_FENCE, j)
    {
      if j + 7 <= |rest| {
        var m := rest[j..j + 7];
        assert m[0] == rest[j] && m[1] == rest[j + 1] && m[2] == rest[j + 2];
        assert j < |body| ==> rest[j] == body[j];
        assert j >= |body| + 3 ==> rest[j] == tail[j - |body| - 3];
        assert j + 2 >= |body| + 3 ==> rest[|body| + 3] == tail[0];
      }
    }
  }

  /** A reply that is a "```json" block (nothing with backquotes before, inside or
      after it) is unwrapped to exactly the block's body. */
  lemma StripJsonBlock(before: string, body: string, after: string)
    requires '`' !in before && '`' !in body && '`' !in after
    ensures StripFences(before + JSON_FENCE + body + FENCE + after) == body
  {
    var rest := body + FENCE + after;
    assert before + JSON_FENCE + rest == before + JSON_FENCE + body + FENCE + after;
    PieceAfterMarker(before, rest);
    ClosingFencePiece(body, after);
  }

  /** After a first "```json" marker, the second piece of the split is the first
      piece of the rest. */
  lemma PieceAfterMarker(before: string, rest: string)
    requires '`' !in before
    ensures Contains(before + JSON_FENCE + rest, JSON_FENCE)
    ensures Split(before + JSON_FENCE + rest, JSON_FENCE)[1] == Split(rest, JSON_FENCE)[0]
  {
    var text := before + JSON_FENCE + rest;
    FirstMarkerAfter(before, JSON_FENCE, rest);
    ContainsIndexOf(text, JSON_FENCE);
    SplitSecond(text, JSON_FENCE, |before|);
    assert text[|before| + 7..] == rest;
  }

  /** Whether or not a "```json" marker follows the block's body, the part kept
      ends at the closing fence. */
  lemma ClosingFencePiece(body: string, after: string)
    requires '`' !in body && '`' !in after
    ensures Split(Split(body + FENCE + after, JSON_FENCE)[0], FENCE)[0] == body
  {
    var rest := body + FENCE + after;
    FirstMarkerAfter(body, FENCE, after);
    assert rest[..|body|] == body;
    MarkerOnlyAtClosingFence(body, after);
    ContainsIndexOf(rest, JSON_FENCE);
    if IndexOf(rest, JSON_FENCE).Some? {
      NoBacktickNoFence(body, FENCE);
    } else {
      ContainsIndexOf(rest, FENCE);
    }
  }

  /** Without a "```json" marker, a reply that is a plain fenced block is unwrapped
      to exactly the text between its two fences. */
  lemma StripPlainBlock(before: string, body: string, after: string)
    requires '`' !in before && '`' !in body && '`' !in after
    requires !Contains(before + FENCE + body + FENCE + after, JSON_FENCE)
    ensures StripFences(before + FENCE + body + FENCE + after) == body
  {
    var rest := body + FENCE + after;
    var text := before + FENCE + rest;
    assert text == before + FENCE + body + FENCE + after;
    FirstMarkerAfter(before, FENCE, rest);
    ContainsIndexOf(text, FENCE);
    SplitSecond(text, FENCE, |before|);
    assert text[|before| + 3..] == rest;
    FirstMarkerAfter(body, FENCE, after);
    ContainsIndexOf(rest, FENCE);
    assert rest[..|body|] == body;
    NoBacktickNoFence(body, FENCE);
  }

  /** The fields of the model's JSON answer that analyze reads; a missing or null
      "mitre_attack_id" is None. */
  datatype RawAnalysis = RawAnalysis(
    severity: string,
    threatType: string,
    confidence: real,
    description: string,
    contextualAnalysis: string,
    contributingSignals: seq<string>,
    recommendedActions: seq<string>,
    mitreAttackId: Option<string>)

  /** The outcome of the model call: its reply text, or an error it raised. */
  datatype ModelReply = Replied(text: string) | CallFailed

  /** The technique name attached to a model answer: looked up only for a
      non-empty id, and None for an unknown one. */
  function MitreName(mitreId: Option<string>): (name: Option<string>)
    ensures name.Some? <==>
      mitreId.Some? && mitreId.value != "" && MitreMapping.BaseId(mitreId.value) in MitreMapping.KNOWN_IDS
    ensures mitreId.Some? && mitreId.value != "" ==> name == MitreMapping.TechniqueName(mitreId.value)
  {
    if mitreId.Some? && mitreId.value != "" then MitreMapping.TechniqueName(mitreId.value) else None
  }

  /** The decoded reply: the JSON decoder (`decode`, None where it raises) is applied
      to the unwrapped, stripped reply text. */
  function Decoded(reply: ModelReply, decode: string -> Option<RawAnalysis>): Option<RawAnalysis> {
    match reply
    case CallFailed => None
    case Replied(text) => decode(Strip(StripFences(text)))
  }

  /** The model's verdict, or None wherever analyze's try block raises: the call
      fails, the JSON does not decode, or a severity or threat type is not an
      enum value. */
  function ModelAnswer(reply: ModelReply, decode: string -> Option<RawAnalysis>): (r: Option<Analysis>)
    ensures Decoded(reply, decode).None? ==> r.None?
    ensures r.Some? <==> (Decoded(reply, decode).Some? &&
      ParseSeverity(Decoded(reply, decode).value.severity).Some? &&
      ParseThreatType(Decoded(reply, decode).value.threatType).Some?)
    ensures r.Some? ==>
      var raw := Decoded(reply, decode).value;
      SeverityValue(r.value.severity) == raw.severity &&
      TypeValue(r.value.threatType) == raw.threatType &&
      r.value.confidence == raw.confidence &&
      r.value.description == raw.description &&
      r.value.contextualAnalysis == raw.contextualAnalysis &&
      r.value.contributingSignals == raw.contributingSignals &&
      r.value.recommendedActions == raw.recommendedActions &&
      r.value.mitreAttackId == raw.mitreAttackId &&
      r.value.mitreAttackName == MitreName(raw.mitreAttackId) &&
      r.value.auditRef == "VERTEX-AI-GEMINI"
  {
    match Decoded(reply, decode)
    case None => None
    case Some(raw) =>
      match (ParseSeverity(raw.severity), ParseThreatType(raw.threatType))
      case (Some(severity), Some(threatType)) =>
        Some(Analysis(severity, threatType, raw.confidence, raw.description, raw.contextualAnalysis,
          raw.contributingSignals, raw.recommendedActions, raw.mitreAttackId,
          MitreName(raw.mitreAttackId), "VERTEX-AI-GEMINI"))
      case _ => None
  }

  /** `event.get("event_type", "unknown").lower()`. */
  function EventTypeKey(event: RawEvent): string {
    Lower(event.eventType.GetOr("unknown"))
  }

  /** `s.replace(a, b)` for single characters. */
  function ReplaceChar(s: string, a: char, b: char): (r: string)
    ensures |r| == |s|
    ensures a != b ==> a !in r
    ensures forall i :: 0 <= i < |s| && s[i] != a ==> r[i] == s[i]
  {
    seq(|s|, i requires 0 <= i < |s| => if s[i] == a then b else s[i])
  }

  const NORMAL_CONTEXT := "Routine operation - baseline network activity within normal parameters"
  const NORMAL_SIGNALS := ["Standard traffic pattern", "Known source", "Expected behavior"]
  const NORMAL_ACTIONS := ["Continue monitoring", "No action required"]
  const FALLBACK_CONTEXT := "Fallback analysis - AI engine temporarily unavailable"
  const FALLBACK_ACTIONS := ["Review event manually", "Check related events"]

  /** The fixed verdict for a healthy-flow event. */
  function ForcedNormal(event: RawEvent): (a: Analysis)
    ensures a.severity == Info && a.threatType == NormalTraffic && a.confidence == 0.95
    ensures a.mitreAttackId.None? && a.mitreAttackName.None? && a.auditRef == "HEALTHY-FLOW"
    ensures a.description == "Normal " + ReplaceChar(EventTypeKey(event), '_', ' ') + " activity"
  {
    Analysis(Info, NormalTraffic, 0.95,
      "Normal " + ReplaceChar(EventTypeKey(event), '_', ' ') + " activity",
      NORMAL_CONTEXT, NORMAL_SIGNALS, NORMAL_ACTIONS, None, None, "HEALTHY-FLOW")
  }

  /** The event types both fallback tables know, in the order written. */
  const EVENT_TYPE_KEYS: seq<string> := [
    "brute_force", "sql_injection", "ddos", "ransomware", "malware", "port_scan",
    "authentication", "login_attempt", "api_request", "firewall_event",
    "normal_traffic", "data_access", "network_traffic"]

  const SEVERITY_MAP: seq<(string, SeverityLevel)> := [
    ("brute_force", Critical), ("sql_injection", Critical), ("ddos", Critical),
    ("ransomware", Critical), ("malware", Critical), ("port_scan", High),
    ("authentication", Medium), ("login_attempt", Info), ("api_request", Info),
    ("firewall_event", Info), ("normal_traffic", Info), ("data_access", Info),
    ("network_traffic", Info)]

  const THREAT_TYPE_MAP: seq<(string, ThreatType)> := [
    ("brute_force", BruteForce), ("sql_injection", SqlInjection), ("ddos", DdosAttack),
    ("ransomware", Ransomware), ("malware", Malware), ("port_scan", PortScan),
    ("authentication", Authentication), ("login_attempt", Authentication),
    ("api_request", ApiRequest), ("firewall_event", FirewallEvent),
    ("normal_traffic", NormalTraffic), ("data_access", ApiRequest),
    ("network_traffic", NetworkAnomaly)]

  /** Both tables have the same thirteen keys, each once. */
  lemma FallbackTablesShareKeys()
    ensures |EVENT_TYPE_KEYS| == 13 && NoDup(EVENT_TYPE_KEYS)
    ensures Keys(SEVERITY_MAP) == EVENT_TYPE_KEYS && Keys(THREAT_TYPE_MAP) == EVENT_TYPE_KEYS
  {
  }

  /** `severity_map.get(key, MEDIUM)`. */
  function FallbackSeverity(key: string): (severity: SeverityLevel)
    ensures key !in EVENT_TYPE_KEYS ==> severity == Medium
  {
    FallbackTablesShareKeys();
    LookupOr(SEVERITY_MAP, key, Medium)
  }

  /** `threat_type_map.get(key, AUTHENTICATION)`. */
  function FallbackType(key: string): (threatType: ThreatType)
    ensures key !in EVENT_TYPE_KEYS ==> threatType == Authentication
  {
    FallbackTablesShareKeys();
    LookupOr(THREAT_TYPE_MAP, key, Authentication)
  }

  /** The rule-based verdict used when the model is missing or fails. */
  function RuleBased(event: RawEvent): (a: Analysis)
    ensures a.confidence == 0.5 && a.auditRef == "FALLBACK-ENGINE"
    ensures a.mitreAttackId.None? && a.mitreAttackName.None?
    ensures a.contributingSignals == [event.sourceIp.GetOr("unknown")]
    ensures EventTypeKey(event) !in EVENT_TYPE_KEYS ==> a.severity == Medium && a.threatType == Authentication
    ensures a.description == "Event detected: " + EventTypeKey(event)
  {
    var key := EventTypeKey(event);
    Analysis(FallbackSeverity(key), FallbackType(key), 0.5,
      "Event detected: " + key,
      FALLBACK_CONTEXT, [event.sourceIp.GetOr("unknown")], FALLBACK_ACTIONS,
      None, None, "FALLBACK-ENGINE")
  }

  /** The five attack kinds listed first are CRITICAL and get their own threat type. */
  lemma RuleBasedAttacksCritical(event: RawEvent)
    requires EventTypeKey(event) in EVENT_TYPE_KEYS[..5]
    ensures RuleBased(event).severity == Critical
    ensures RuleBased(event).threatType in {BruteForce, SqlInjection, DdosAttack, Ransomware, Malware}
  {
    AttackSeverity(EventTypeKey(event));
    AttackType(EventTypeKey(event));
  }

  /** The severity table gives CRITICAL to the five attack kinds. */
  lemma AttackSeverity(key: string)
    requires key in EVENT_TYPE_KEYS[..5]
    ensures FallbackSeverity(key) == Critical
  {
    var i :| 0 <= i < 5 && EVENT_TYPE_KEYS[i] == key;
    var front := SEVERITY_MAP[..5];
    assert front[i].0 == key;
    FindInFront(front, SEVERITY_MAP[5..], key);
    assert front + SEVERITY_MAP[5..] == SEVERITY_MAP;
  }

  /** The type table gives the five attack kinds their own threat types. */
  lemma AttackType(key: string)
    requires key in EVENT_TYPE_KEYS[..5]
    ensures FallbackType(key) in {BruteForce, SqlInjection, DdosAttack, Ransomware, Malware}
  {
    var i :| 0 <= i < 5 && EVENT_TYPE_KEYS[i] == key;
    var front := THREAT_TYPE_MAP[..5];
    assert front[i].0 == key;
    FindInFront(front, THREAT_TYPE_MAP[5..], key);
    assert front + THREAT_TYPE_MAP[5..] == THREAT_TYPE_MAP;
  }

  predicate IsNormalScenario(event: RawEvent) {
    event.scenario == Some("normal")
  }

  /** The model is consulted (and the request counted) only for an event outside
      the healthy flow when a model is configured. */
  predicate ConsultsModel(event: RawEvent, configured: bool) {
    !IsNormalScenario(event) && configured
  }

  /** The verdict analyze returns. The audit reference tells the three paths apart,
      and analyze never raises: every failure of the model path gives the fallback. */
  function Verdict(event: RawEvent, configured: bool, reply: ModelReply,
                   decode: string -> Option<RawAnalysis>): (a: Analysis)
    ensures a.auditRef == "HEALTHY-FLOW" <==> IsNormalScenario(event)
    ensures a.auditRef == "VERTEX-AI-GEMINI" <==>
      ConsultsModel(event, configured) && ModelAnswer(reply, decode).Some?
    ensures a.auditRef == "FALLBACK-ENGINE" <==>
      !IsNormalScenario(event) && (!configured || ModelAnswer(reply, decode).None?)
    ensures IsNormalScenario(event) ==> a == ForcedNormal(event)
    ensures a.auditRef == "FALLBACK-ENGINE" ==> a == RuleBased(event)
    ensures a.auditRef == "VERTEX-AI-GEMINI" ==> a == ModelAnswer(reply, decode).value
  {
    if IsNormalScenario(event) then ForcedNormal(event)
    else if !configured then RuleBased(event)
    else ModelAnswer(reply, decode).GetOr(RuleBased(event))
  }

  /** GeminiThreatAnalyzer: whether a model was configured, and the count of
      requests sent to it. */
  class ThreatAnalyzer {
    const modelConfigured: bool
    var requestCount: nat

    /** A model is configured when a real project id is set and initialisation
        (`initSucceeds`, the SDK's outcome) did not raise. */
    constructor(projectId: string, initSucceeds: bool)
      ensures modelConfigured <==> projectId != "" && projectId != "your-project-id" && initSucceeds
      ensures requestCount == 0
    {
      modelConfigured := projectId != "" && projectId != "your-project-id" && initSucceeds;
      requestCount := 0;
    }

    /** analyze: `reply` is what the model call returns, `decode` the JSON decoder. */
    method Analyze(event: RawEvent, reply: ModelReply, decode: string -> Option<RawAnalysis>)
      returns (a: Analysis)
      modifies this`requestCount
      ensures a == Verdict(event, modelConfigured, reply, decode)
      ensures requestCount == old(requestCount) + (if ConsultsModel(event, modelConfigured) then 1 else 0)
    {
      if IsNormalScenario(event) {
        return ForcedNormal(event);
      }
      if !modelConfigured {
        return RuleBased(event);
      }
      requestCount := requestCount + 1;
      var answer := ModelAnswer(reply, decode);
      if answer.Some? {
        a := answer.value;
      } else {
        a := RuleBased(event);
      }
    }
  }
}
