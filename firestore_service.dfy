/** The back end's in-memory store of threats and alerts: newest first, threats
    capped at 1000, alerts updated in place, and per-severity and per-type counts. */
module FirestoreService {
  import opened Wrappers
  import opened Seqs
  import opened BackendTypes

  const MAX_THREATS := 1000

  /** The alert status values get_active_alerts counts as active. */
  const ACTIVE_STATUSES: seq<string> := ["NEW", "ACKNOWLEDGED", "INVESTIGATING"]

  predicate IsActive(a: Alert) {
    a.status in ACTIVE_STATUSES
  }

  /** Python truthiness of an optional string. */
  predicate Truthy(s: Option<string>) {
    s.Some? && s.value != ""
  }

  /** The position of the first alert with the given id. */
  function FirstAlertIndex(alerts: seq<Alert>, alertId: string): (r: Option<nat>)
    ensures r.Some? ==> r.value < |alerts| && alerts[r.value].id == alertId
    ensures r.Some? ==> forall j :: 0 <= j < r.value ==> alerts[j].id != alertId
    ensures r.None? <==> forall j :: 0 <= j < |alerts| ==> alerts[j].id != alertId
  {
    if |alerts| == 0 then None
    else if alerts[0].id == alertId then Some(0)
    else
      match FirstAlertIndex(alerts[1..], alertId)
      case None => None
      case Some(k) => Some(k + 1)
  }

  /** The alert with its status replaced and, for a non-empty analyst id, assigned to that analyst at `now`. */
  function WithStatus(alert: Alert, status: string, analystId: Option<string>, now: string): (r: Alert)
    ensures r.id == alert.id && r.status == status
    ensures Truthy(analystId) ==> r.assignedTo == analystId && r.assignedAt == Some(now)
    ensures !Truthy(analystId) ==> r == alert.(status := status)
  {
    if Truthy(analystId) then alert.(status := status, assignedTo := analystId, assignedAt := Some(now))
    else alert.(status := status)
  }

  /** The alert list after update_alert_status: the first alert with the id
      updated, or the list unchanged when no alert has it. */
  function AlertsAfterUpdate(alerts: seq<Alert>, alertId: string, status: string,
                             analystId: Option<string>, now: string): (r: seq<Alert>)
    ensures |r| == |alerts|
    ensures forall j :: 0 <= j < |alerts| && alerts[j].id != alertId ==> r[j] == alerts[j]
    ensures forall j :: 0 <= j < |alerts| ==> r[j].id == alerts[j].id
  {
    match FirstAlertIndex(alerts, alertId)
    case None => alerts
    case Some(k) => alerts[k := WithStatus(alerts[k], status, analystId, now)]
  }

  /** The threats whose severity value is the given one. */
  function HasSeverity(severity: string): Threat -> bool {
    (t: Threat) => SeverityValue(t.severity) == severity
  }

  /** The threats of a severity, read as the severity value the dictionaries
      hold: every threat of that severity, as often as it is stored, in store
      order, and no other. */
  function OfSeverity(threats: seq<Threat>, severity: string): (r: seq<Threat>)
    ensures forall k :: 0 <= k < |r| ==> r[k] in threats && SeverityValue(r[k].severity) == severity
    ensures IsSubsequence(r, threats)
    ensures forall t :: multiset(r)[t] == if SeverityValue(t.severity) == severity then multiset(threats)[t] else 0
  {
    FilterIsSubsequence(threats, HasSeverity(severity));
    forall t ensures multiset(Filter(threats, HasSeverity(severity)))[t] ==
      if SeverityValue(t.severity) == severity then multiset(threats)[t] else 0
    {
      FilterMultiplicity(threats, HasSeverity(severity), t);
    }
    Filter(threats, HasSeverity(severity))
  }

  function Severities(threats: seq<Threat>): (r: seq<SeverityLevel>)
    ensures |r| == |threats| && forall k :: 0 <= k < |threats| ==> r[k] == threats[k].severity
  {
    seq(|threats|, k requires 0 <= k < |threats| => threats[k].severity)
  }

  function ThreatTypes(threats: seq<Threat>): (r: seq<ThreatType>)
    ensures |r| == |threats| && forall k :: 0 <= k < |threats| ==> r[k] == threats[k].threatType
  {
    seq(|threats|, k requires 0 <= k < |threats| => threats[k].threatType)
  }

  /** One counting pass: after it, `keys` lists the distinct elements of
      `s[..next]` in first-seen order. */
  lemma KeysStep<T>(s: seq<T>, i: nat, next: nat, keys: seq<T>)
    requires next == i + 1 && next <= |s|
    requires keys == DistinctKeys(s[..i])
    ensures DistinctKeys(s[..next]) == if s[i] in keys then keys else keys + [s[i]]
  {
    assert s[..next][..i] == s[..i];
  }

  /** One counting pass: after it, `counts` holds how often each element of
      `s[..next]` occurs. */
  lemma CountsStep<T>(s: seq<T>, i: nat, next: nat, counts: map<T, nat>)
    requires next == i + 1 && next <= |s|
    requires forall x :: x in counts <==> x in s[..i]
    requires forall x :: x in counts ==> counts[x] == multiset(s[..i])[x]
    ensures var after := counts[s[i] := (if s[i] in counts then counts[s[i]] else 0) + 1];
      (forall x :: x in after <==> x in s[..next]) &&
      (forall x :: x in after ==> after[x] == multiset(s[..next])[x])
  {
    var e := s[i];
    assert s[..next] == s[..i] + [e];
    var after := counts[e := (if e in counts then counts[e] else 0) + 1];
    forall x ensures x in after <==> x in s[..next] {
      assert x in s[..next] <==> x in s[..i] || x == e;
    }
    forall x | x in after ensures after[x] == multiset(s[..next])[x] {
      assert multiset(s[..next]) == multiset(s[..i]) + multiset{e};
      if x != e {
        assert x in counts;
      } else if e !in counts {
        assert e !in s[..i];
      }
    }
  }

  /** The counting loop of get_threat_stats over a list of keys. */
  method CountBy<T(==)>(s: seq<T>) returns (keys: seq<T>, counts: map<T, nat>)
    ensures keys == DistinctKeys(s)
    ensures forall x :: x in counts <==> x in s
    ensures forall x :: x in counts ==> counts[x] == multiset(s)[x]
  {
    keys, counts := [], map[];
    var i := 0;
    while i < |s|
      invariant 0 <= i <= |s|
      invariant keys == DistinctKeys(s[..i])
      invariant forall x :: x in counts <==> x in s[..i]
      invariant forall x :: x in counts ==> counts[x] == multiset(s[..i])[x]
    {
      var next := i + 1;
      KeysStep(s, i, next, keys);
      CountsStep(s, i, next, counts);
      var e := s[i];
      assert e in keys <==> e in counts;
      if e !in keys {
        keys := keys + [e];
      }
      counts := counts[e := (if e in counts then counts[e] else 0) + 1];
      i := next;
    }
    assert s[..i] == s;
  }

  /** What get_threat_stats returns. The distributions keep the keys' first-seen order. */
  datatype ThreatStats = ThreatStats(
    totalThreats: nat,
    severityKeys: seq<SeverityLevel>,
    severityDistribution: map<SeverityLevel, nat>,
    typeKeys: seq<ThreatType>,
    typeDistribution: map<ThreatType, nat>)

  class FirestoreService {
    var threats: seq<Threat>
    var alerts: seq<Alert>

    predicate Valid()
      reads this`threats
    {
      |threats| <= MAX_THREATS
    }

    constructor()
      ensures Valid() && threats == [] && alerts == []
    {
      threats, alerts := [], [];
    }

    /** store_threat: newest first; beyond 1000 the oldest are dropped. */
    method StoreThreat(threat: Threat)
      requires Valid()
      modifies this`threats
      ensures Valid()
      ensures threats == Take([threat] + old(threats), MAX_THREATS)
      ensures threats[0] == threat
    {
      threats := [threat] + threats;
      if |threats| > MAX_THREATS {
        threats := threats[..MAX_THREATS];
      }
    }

    /** get_threat: the most recently stored threat with the id, or None. */
    method GetThreat(threatId: string) returns (r: Option<Threat>)
      ensures r.None? <==> forall k :: 0 <= k < |threats| ==> threats[k].id != threatId
      ensures r.Some? ==> r.value.id == threatId
      ensures r.Some? ==>
        (exists k :: 0 <= k < |threats| && threats[k] == r.value &&
          forall j :: 0 <= j < k ==> threats[j].id != threatId)
    {
      var i := 0;
      while i < |threats|
        invariant 0 <= i <= |threats|
        invariant forall j :: 0 <= j < i ==> threats[j].id != threatId
      {
        if threats[i].id == threatId {
          return Some(threats[i]);
        }
        i := i + 1;
      }
      return None;
    }

    /** get_recent_threats: with a non-empty severity only the threats of that
        severity, newest first, then the first `limit` of them (Python slice). */
    function GetRecentThreats(limit: int, severity: Option<string>): (r: seq<Threat>)
      reads this`threats
      ensures forall k :: 0 <= k < |r| ==> r[k] in threats
      ensures IsSubsequence(r, threats)
      ensures !Truthy(severity) ==> r == PyPrefix(threats, limit)
      ensures Truthy(severity) ==> forall k :: 0 <= k < |r| ==> SeverityValue(r[k].severity) == severity.value
      ensures Truthy(severity) ==> FirstMatches(r, threats, HasSeverity(severity.value))
      ensures Truthy(severity) && 0 <= limit ==> |r| == Min(limit, |OfSeverity(threats, severity.value)|)
      ensures Truthy(severity) && limit < 0 ==> |r| == Max(0, |OfSeverity(threats, severity.value)| + limit)
      ensures 0 <= limit ==> |r| <= limit
    {
      if Truthy(severity) then
        var sev := severity.value;
        FilteredPrefixIsSubsequence(threats, HasSeverity(sev), limit);
        FilterPrefixFirstMatches(threats, HasSeverity(sev), limit);
        PyPrefix(OfSeverity(threats, sev), limit)
      else
        FilteredPrefixIsSubsequence(threats, (t: Threat) => true, limit);
        FilterAll(threats, (t: Threat) => true);
        PyPrefix(threats, limit)
    }

    /** store_alert: newest first, no cap. */
    method StoreAlert(alert: Alert)
      modifies this`alerts
      ensures alerts == [alert] + old(alerts)
    {
      alerts := [alert] + alerts;
    }

    /** get_active_alerts: the alerts whose status is NEW, ACKNOWLEDGED or
        INVESTIGATING, newest first, then the first `limit` of them. */
    function GetActiveAlerts(limit: int): (r: seq<Alert>)
      reads this`alerts
      ensures forall k :: 0 <= k < |r| ==> r[k] in alerts && r[k].status in ACTIVE_STATUSES
      ensures IsSubsequence(r, alerts)
      ensures FirstMatches(r, alerts, IsActive)
      ensures 0 <= limit ==> |r| == Min(limit, |Filter(alerts, IsActive)|)
      ensures limit < 0 ==> |r| == Max(0, |Filter(alerts, IsActive)| + limit)
    {
      FilteredPrefixIsSubsequence(alerts, IsActive, limit);
      FilterPrefixFirstMatches(alerts, IsActive, limit);
      PyPrefix(Filter(alerts, IsActive), limit)
    }

    /** update_alert_status: the first alert with the id gets the status and, for a
        non-empty analyst id, the assignment stamped `now`; false and no change
        when no alert has the id. */
    method UpdateAlertStatus(alertId: string, status: string, analystId: Option<string>, now: string)
      returns (found: bool)
      modifies this`alerts
      ensures found <==> exists k :: 0 <= k < |old(alerts)| && old(alerts)[k].id == alertId
      ensures alerts == AlertsAfterUpdate(old(alerts), alertId, status, analystId, now)
      ensures !found ==> alerts == old(alerts)
    {
      var i := 0;
      while i < |alerts|
        invariant 0 <= i <= |alerts| && alerts == old(alerts)
        invariant forall j :: 0 <= j < i ==> alerts[j].id != alertId
      {
        if alerts[i].id == alertId {
          alerts := alerts[i := WithStatus(alerts[i], status, analystId, now)];
          return true;
        }
        i := i + 1;
      }
      return false;
    }

    /** get_threat_stats: the total, and how many threats there are of each
        severity and of each type. */
    method GetThreatStats() returns (stats: ThreatStats)
      ensures stats.totalThreats == |threats|
      ensures stats.severityKeys == DistinctKeys(Severities(threats))
      ensures forall s :: s in stats.severityDistribution <==> s in Severities(threats)
      ensures forall s :: s in stats.severityDistribution ==>
        stats.severityDistribution[s] == multiset(Severities(threats))[s]
      ensures stats.typeKeys == DistinctKeys(ThreatTypes(threats))
      ensures forall t :: t in stats.typeDistribution <==> t in ThreatTypes(threats)
      ensures forall t :: t in stats.typeDistribution ==>
        stats.typeDistribution[t] == multiset(ThreatTypes(threats))[t]
    {
      var severityKeys, severityCounts := CountBy(Severities(threats));
      var typeKeys, typeCounts := CountBy(ThreatTypes(threats));
      stats := ThreatStats(|threats|, severityKeys, severityCounts, typeKeys, typeCounts);
    }
  }

  /** Each distribution adds up to the total: every threat is counted once. */
  lemma DistributionsAddUp(threats: seq<Threat>)
    ensures SumOfCounts(DistinctKeys(Severities(threats)), Severities(threats)) == |threats|
    ensures SumOfCounts(DistinctKeys(ThreatTypes(threats)), ThreatTypes(threats)) == |threats|
  {
    DistinctKeysCountsSum(Severities(threats));
    DistinctKeysCountsSum(ThreatTypes(threats));
  }
}
