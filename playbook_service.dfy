/** Automated response playbooks: the three built-in playbooks, their execution
    against a threat, and the history of executions. */
module PlaybookService {
  import opened Wrappers
  import opened Seqs
  import opened BackendTypes

  /** One step of a playbook. */
  datatype PlaybookAction = PlaybookAction(
    actionId: string,
    actionType: string,
    description: string,
    parameters: map<string, int>,
    timeoutSeconds: int)

  /** An automated response playbook; the trigger conditions map a condition
      name to its value. */
  datatype Playbook = Playbook(
    id: string,
    name: string,
    description: string,
    triggerConditions: map<string, string>,
    actions: seq<PlaybookAction>,
    autoExecute: bool,
    createdAt: string,
    updatedAt: string)

  datatype PlaybookStatus = Pending | Running | Completed | Failed

  /** The record of one execution. */
  datatype PlaybookExecution = PlaybookExecution(
    executionId: string,
    playbookId: string,
    threatId: string,
    status: PlaybookStatus,
    startedAt: string,
    completedAt: Option<string>,
    actionsExecuted: seq<string>,
    actionsFailed: seq<string>,
    errorMessage: Option<string>)

  const DEFAULT_TIMEOUT_SECONDS := 30

  const BRUTE_FORCE_ID := "pb-brute-001"
  const DDOS_ID := "pb-ddos-001"
  const SQL_INJECTION_ID := "pb-sql-001"

  /** The playbook ids in the order they are declared. */
  const PLAYBOOK_IDS: seq<string> := [BRUTE_FORCE_ID, DDOS_ID, SQL_INJECTION_ID]

  function Action(actionId: string, actionType: string, description: string,
                  parameters: map<string, int>): PlaybookAction {
    PlaybookAction(actionId, actionType, description, parameters, DEFAULT_TIMEOUT_SECONDS)
  }

  function Trigger(threatType: string, minSeverity: string): map<string, string> {
    map["threat_type" := threatType, "min_severity" := minSeverity]
  }

  /** The two actions of each built-in playbook. */
  const BRUTE_FORCE_ACTIONS: seq<PlaybookAction> :=
    [Action("1", "block_ip", "Block source IP at firewall", map[]),
     Action("2", "rotate_credentials", "Force password reset for targeted accounts", map[])]
  const DDOS_ACTIONS: seq<PlaybookAction> :=
    [Action("1", "enable_rate_limiting", "Enable aggressive rate limiting", map["rate_limit" := 10]),
     Action("2", "block_ip_range", "Block attacking IP range", map[])]
  const SQL_INJECTION_ACTIONS: seq<PlaybookAction> :=
    [Action("1", "update_waf_rules", "Update WAF with SQL injection patterns", map[]),
     Action("2", "block_ip", "Block attacker IP", map[])]

  const BRUTE_FORCE_NAME := "Brute Force Mitigation"
  const BRUTE_FORCE_DESCRIPTION := "Automated response to brute force attacks"
  const DDOS_NAME := "DDoS Protection"
  const DDOS_DESCRIPTION := "Activate DDoS protection measures"
  const SQL_INJECTION_NAME := "SQL Injection Response"
  const SQL_INJECTION_DESCRIPTION := "Response to SQL injection attempts"

  /** _initialize_playbooks: three playbooks keyed by their own ids, each with
      two actions numbered "1" and "2"; only the SQL injection one waits for
      manual approval. */
  function InitialPlaybooks(now: string): (playbooks: map<string, Playbook>)
    ensures playbooks.Keys == {BRUTE_FORCE_ID, DDOS_ID, SQL_INJECTION_ID}
    ensures forall id :: id in playbooks ==> playbooks[id].id == id
    ensures forall id :: id in playbooks ==> (playbooks[id].autoExecute <==> id != SQL_INJECTION_ID)
    ensures forall id :: id in playbooks ==>
      ActionIds(playbooks[id].actions) == ["1", "2"] && playbooks[id].createdAt == now
  {
    assert BRUTE_FORCE_ID != DDOS_ID && BRUTE_FORCE_ID != SQL_INJECTION_ID && DDOS_ID != SQL_INJECTION_ID by {
      assert BRUTE_FORCE_ID[3] == 'b' && DDOS_ID[3] == 'd' && SQL_INJECTION_ID[3] == 's';
    }
    assert ActionIds(BRUTE_FORCE_ACTIONS) == ActionIds(DDOS_ACTIONS) == ActionIds(SQL_INJECTION_ACTIONS) == ["1", "2"];
    map[BRUTE_FORCE_ID := Playbook(BRUTE_FORCE_ID, BRUTE_FORCE_NAME, BRUTE_FORCE_DESCRIPTION,
                            Trigger("BRUTE_FORCE", "HIGH"), BRUTE_FORCE_ACTIONS, true, now, now),
        DDOS_ID := Playbook(DDOS_ID, DDOS_NAME, DDOS_DESCRIPTION,
                     Trigger("DDOS_ATTACK", "CRITICAL"), DDOS_ACTIONS, true, now, now),
        SQL_INJECTION_ID := Playbook(SQL_INJECTION_ID, SQL_INJECTION_NAME, SQL_INJECTION_DESCRIPTION,
                              Trigger("SQL_INJECTION", "HIGH"), SQL_INJECTION_ACTIONS, false, now, now)]
  }

  /** The action ids of a list of actions, in order. */
  function ActionIds(actions: seq<PlaybookAction>): (ids: seq<string>)
    ensures |ids| == |actions| && forall k :: 0 <= k < |actions| ==> ids[k] == actions[k].actionId
  {
    seq(|actions|, k requires 0 <= k < |actions| => actions[k].actionId)
  }

  /** One step of the action loop: the ids of a one-longer prefix. */
  lemma ActionIdsStep(actions: seq<PlaybookAction>, i: nat, next: nat)
    requires next == i + 1 && next <= |actions|
    ensures ActionIds(actions[..next]) == ActionIds(actions[..i]) + [actions[i].actionId]
  {
  }

  /** _execute_action: the action is simulated and returns normally, so it is
      always reported as executed. */
  method ExecuteAction(action: PlaybookAction, threat: Threat) returns (succeeded: bool)
    ensures succeeded
  {
    succeeded := true;
  }

  class PlaybookService {
    const playbooks: map<string, Playbook>
    var executions: seq<PlaybookExecution>

    /** The playbooks are the built-in three. */
    predicate Valid() {
      playbooks.Keys == {BRUTE_FORCE_ID, DDOS_ID, SQL_INJECTION_ID}
    }

    /** `now` is the clock reading stamped on the playbooks. */
    constructor(now: string)
      ensures Valid() && playbooks == InitialPlaybooks(now) && executions == []
    {
      playbooks := InitialPlaybooks(now);
      executions := [];
    }

    /** execute_playbook: an unknown id fails and records nothing; otherwise every
        action runs in order and lands among the executed ones, the run ends
        COMPLETED and exactly one record is appended. `executionId`, `startedAt`
        and `completedAt` are the generated id and the clock readings. */
    method ExecutePlaybook(playbookId: string, threat: Threat, executionId: string,
                           startedAt: string, completedAt: string)
      returns (r: Result<PlaybookExecution, string>)
      modifies this`executions
      ensures playbookId !in playbooks <==> r.Failure?
      ensures r.Failure? ==> r.error == "Playbook not found: " + playbookId && executions == old(executions)
      ensures r.Success? ==>
        var e := r.value;
        e.executionId == executionId && e.playbookId == playbookId && e.threatId == threat.id &&
        e.status == Completed && e.startedAt == startedAt && e.completedAt == Some(completedAt) &&
        e.errorMessage.None?
      ensures r.Success? ==>
        r.value.actionsExecuted == ActionIds(playbooks[playbookId].actions) && r.value.actionsFailed == []
      ensures r.Success? ==> executions == old(executions) + [r.value]
    {
      if playbookId !in playbooks {
        return Failure("Playbook not found: " + playbookId);
      }
      var playbook := playbooks[playbookId];
      var executed: seq<string> := [];
      var failed: seq<string> := [];
      var i := 0;
      while i < |playbook.actions|
        invariant 0 <= i <= |playbook.actions|
        invariant executed == ActionIds(playbook.actions[..i]) && failed == []
        invariant executions == old(executions)
      {
        var next := i + 1;
        ActionIdsStep(playbook.actions, i, next);
        var action := playbook.actions[i];
        var ok := ExecuteAction(action, threat);
        if ok {
          executed := executed + [action.actionId];
        } else {
          failed := failed + [action.actionId];
        }
        i := next;
      }
      assert playbook.actions[..i] == playbook.actions;
      var execution := PlaybookExecution(executionId, playbookId, threat.id, Completed, startedAt,
        Some(completedAt), executed, failed, None);
      executions := executions + [execution];
      return Success(execution);
    }

    /** get_playbooks: every playbook, in declaration order. */
    function GetPlaybooks(): (r: seq<Playbook>)
      requires Valid()
      ensures |r| == |PLAYBOOK_IDS|
      ensures forall k :: 0 <= k < |r| ==> r[k] == playbooks[PLAYBOOK_IDS[k]]
      ensures forall id :: id in playbooks ==> playbooks[id] in r
    {
      [playbooks[BRUTE_FORCE_ID], playbooks[DDOS_ID], playbooks[SQL_INJECTION_ID]]
    }

    /** get_execution_history: the first `limit` records, that is the oldest
      ones (a negative limit drops that many from the end, as Python slicing does). */
    function GetExecutionHistory(limit: int): (r: seq<PlaybookExecution>)
      reads this`executions
      ensures IsSubsequence(r, executions)
      ensures |r| <= |executions| && r == executions[..|r|]
      ensures 0 <= limit ==> |r| == Min(limit, |executions|)
      ensures limit < 0 ==> |r| == Max(0, |executions| + limit)
    {
      PrefixIsSubsequence(executions, |PyPrefix(executions, limit)|);
      PyPrefix(executions, limit)
    }
  }
}
