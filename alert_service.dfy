/** Alerts raised from threats: their priority, their creation into the store,
    and the acknowledge and resolve transitions. */
module AlertService {
  import opened Wrappers
  import opened BackendTypes
  import FirestoreService

  /** _determine_priority. */
  function DeterminePriority(severity: SeverityLevel, riskScore: int): (p: AlertPriority)
    ensures severity == Critical ==> p == P1
    ensures severity == High ==> (p == P1 <==> riskScore >= 80) && (p == P2 <==> riskScore < 80)
    ensures severity == Medium ==> (p == P2 <==> riskScore >= 60) && (p == P3 <==> riskScore < 60)
    ensures p == P4 <==> severity == Low || severity == Info
  {
    match severity
    case Critical => P1
    case High => if riskScore >= 80 then P1 else P2
    case Medium => if riskScore >= 60 then P2 else P3
    case _ => P4
  }

  /** For a fixed severity, a higher risk score never gives a less urgent priority. */
  lemma PriorityMonotoneInRisk(severity: SeverityLevel, lower: int, higher: int)
    requires lower <= higher
    ensures Urgency(DeterminePriority(severity, lower)) <= Urgency(DeterminePriority(severity, higher))
  {
  }

  /** For a fixed risk score, a more severe threat never gives a less urgent priority. */
  lemma PriorityMonotoneInSeverity(a: SeverityLevel, b: SeverityLevel, riskScore: int)
    requires SeverityRank(a) <= SeverityRank(b)
    ensures Urgency(DeterminePriority(a, riskScore)) <= Urgency(DeterminePriority(b, riskScore))
  {
  }

  /** The alert create_alert builds for a threat; `alertId` and `createdAt` are the
      generated id and the clock reading. */
  function AlertFor(threat: Threat, alertId: string, createdAt: string): (a: Alert)
    ensures a.id == alertId && a.threatId == threat.id && a.createdAt == createdAt
    ensures a.status == StatusValue(New) && a.severity == SeverityValue(threat.severity)
    ensures a.priority == DeterminePriority(threat.severity, threat.riskScore)
    ensures a.title == TypeValue(threat.threatType) + ": " + threat.description
    ensures a.description == threat.contextualAnalysis
    ensures a.assignedTo.None? && a.assignedAt.None?
    ensures a.sourceIp == threat.sourceIp && a.sourceCountry == threat.sourceCountry
    ensures a.mitreAttackId == threat.mitreAttackId
  {
    Alert(alertId, threat.id, TypeValue(threat.threatType) + ": " + threat.description,
      threat.contextualAnalysis, SeverityValue(threat.severity),
      DeterminePriority(threat.severity, threat.riskScore), StatusValue(New), createdAt,
      None, None, threat.sourceIp, threat.sourceCountry, threat.mitreAttackId)
  }

  /** resolve_alert's status: RESOLVED for the resolution "RESOLVED", FALSE_POSITIVE for any other. */
  function ResolutionStatus(resolution: string): (status: string)
    ensures status == "RESOLVED" <==> resolution == "RESOLVED"
    ensures status == "FALSE_POSITIVE" <==> resolution != "RESOLVED"
  {
    if resolution == "RESOLVED" then StatusValue(Resolved) else StatusValue(FalsePositive)
  }

  class AlertService {
    const db: FirestoreService.FirestoreService

    constructor(db: FirestoreService.FirestoreService)
      ensures this.db == db
    {
      this.db := db;
    }

    /** create_alert: the alert is stored at the front of the store's alerts. */
    method CreateAlert(threat: Threat, alertId: string, createdAt: string) returns (alert: Alert)
      modifies db`alerts
      ensures alert == AlertFor(threat, alertId, createdAt)
      ensures db.alerts == [alert] + old(db.alerts)
    {
      alert := AlertFor(threat, alertId, createdAt);
      db.StoreAlert(alert);
    }

    /** acknowledge_alert: status ACKNOWLEDGED, assigned to the analyst at `now`;
        false and no change for an unknown id. */
    method AcknowledgeAlert(alertId: string, analystId: string, now: string) returns (success: bool)
      modifies db`alerts
      ensures success <==> exists k :: 0 <= k < |old(db.alerts)| && old(db.alerts)[k].id == alertId
      ensures db.alerts == FirestoreService.AlertsAfterUpdate(old(db.alerts), alertId,
        StatusValue(Acknowledged), Some(analystId), now)
      ensures !success ==> db.alerts == old(db.alerts)
    {
      success := db.UpdateAlertStatus(alertId, StatusValue(Acknowledged), Some(analystId), now);
    }

    /** resolve_alert: status from the resolution, assigned to the analyst at `now`;
        false and no change for an unknown id. */
    method ResolveAlert(alertId: string, analystId: string, resolution: string, now: string)
      returns (success: bool)
      modifies db`alerts
      ensures success <==> exists k :: 0 <= k < |old(db.alerts)| && old(db.alerts)[k].id == alertId
      ensures db.alerts == FirestoreService.AlertsAfterUpdate(old(db.alerts), alertId,
        ResolutionStatus(resolution), Some(analystId), now)
      ensures !success ==> db.alerts == old(db.alerts)
    {
      success := db.UpdateAlertStatus(alertId, ResolutionStatus(resolution), Some(analystId), now);
    }
  }

  /** After an update of a known id, the first alert with that id carries the new
      status; every other alert is unchanged. */
  lemma UpdateSetsStatus(alerts: seq<Alert>, alertId: string, status: string, analystId: Option<string>, now: string)
    requires FirestoreService.FirstAlertIndex(alerts, alertId).Some?
    ensures var k := FirestoreService.FirstAlertIndex(alerts, alertId).value;
      var r := FirestoreService.AlertsAfterUpdate(alerts, alertId, status, analystId, now);
      r[k].status == status && forall j :: 0 <= j < |alerts| && j != k ==> r[j] == alerts[j]
  {
  }
}
