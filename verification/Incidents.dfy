/**
The incident API over one incident: run, approve, read with the lazy SLA timeout, close.

Each handler is a method on the incident's record, proved equal to a function of the whole desk: the incident row
with its audit log, the graph thread, the remediation store and the service memory.  The functions also say what is
left when the process dies part way; `_apply_result` is one transaction, so it happens whole or not at all.
*/
module Incidents {
  import opened Wrappers
  import opened CanonicalJson
  import opened Policy
  import opened Remediation
  import opened Schemas
  import opened Idempotency
  import opened Nodes
  import opened Durable
  import Memory
  import MemoryLedger

  datatype IncidentStatus = Open | Running | AwaitingApproval | Closed(status: Option<Status>)

  /** The interrupt's payload. */
  datatype Pending = Pending(action: Action, service: string, diagnosis: string, confidence: real)

  datatype AuditArguments =
    | ToolArguments(input: Json)
    | RequestArguments(pending: Pending, processId: string)
    | DecisionArguments(decision: Option<Decision>, processId: string)

  datatype AuditResult = ToolJson(json: Option<Json>) | RemediationJson(remediation: Option<Remediated>)

  datatype AuditRow = AuditRow(step: int, toolName: string, arguments: AuditArguments, result: AuditResult,
                               error: Option<string>, createdAt: int)

  datatype Incident = Incident(
    status: IncidentStatus,
    diagnosis: Option<Diagnosis>,
    stepsUsed: Option<int>,
    cost: Option<real>,
    startedAt: Option<int>,
    completedAt: Option<int>,
    pendingApproval: Option<Pending>,
    awaitingSince: Option<int>,
    audit: seq<AuditRow>)

  const OPENED := Incident(Open, None, None, None, None, None, None, None, [])

  /** One incident's settings, service and graph dependencies. */
  datatype Env = Env(deps: Deps, serviceId: int, incidentId: int, minConfidence: real, slaSeconds: int)

  // ------------------------------------------------------ investigation result

  datatype Ending = Paused(pending: Pending) | Finished(status: Option<Status>)

  datatype InvestigationResult = InvestigationResult(
    ending: Ending,
    diagnosis: Option<Diagnosis>,
    evidence: seq<ToolRecord>,
    steps: int,
    cost: real,
    verdict: Option<Verdict>,
    remediation: Option<Remediated>,
    approval: Option<Decision>)

  function PendingOf(deps: Deps, d: Diagnosis): Pending { Pending(d.action, deps.service, d.text, d.confidence) }

  function ResultOf(deps: Deps, th: Thread): InvestigationResult {
    var s := th.state;
    if AwaitsAnswer(th)
    then InvestigationResult(Paused(PendingOf(deps, s.diagnosis.value)), s.diagnosis, s.evidence, s.steps, s.cost,
                             None, None, None)
    else InvestigationResult(Finished(s.status), s.diagnosis, s.evidence, s.steps, s.cost,
                             s.verdict, s.remediation, s.approval)
  }

  // ------------------------------------------------------------ applying it

  const REQUESTED := "approval_requested"
  const DECIDED := "approval_decision"

  function EvidenceRow(r: ToolRecord, now: int): AuditRow {
    AuditRow(r.step, r.toolName, ToolArguments(r.arguments), ToolJson(r.result), r.error, now)
  }

  function RequestRow(step: int, pending: Pending, processId: string, now: int): AuditRow {
    AuditRow(step, REQUESTED, RequestArguments(pending, processId), ToolJson(None), None, now)
  }

  function DecisionRow(r: InvestigationResult, processId: string, now: int): AuditRow {
    AuditRow(r.steps, DECIDED, DecisionArguments(r.approval, processId), RemediationJson(r.remediation), None, now)
  }

  /** The cursor is the number of all rows written so far. */
  function WithNewEvidence(audit: seq<AuditRow>, trail: seq<ToolRecord>, now: int): seq<AuditRow> {
    var written := |audit|;
    audit + seq(if written < |trail| then |trail| - written else 0,
                (i: nat) requires written + i < |trail| => EvidenceRow(trail[written + i], now))
  }

  datatype Settlement = Settlement(incident: Incident, table: Memory.Table)

  function CloseRow(env: Env, r: InvestigationResult, now: int): Option<Memory.MemoryRow> {
    Memory.ConfirmedRow(env.serviceId, env.incidentId, r.diagnosis, r.verdict, r.approval, env.minConfidence, now)
  }

  /** Memory is written at close only, and consolidated only when something was written. */
  ghost function Remembered(env: Env, table: Memory.Table, r: InvestigationResult, now: int): Memory.Table {
    match CloseRow(env, r, now) case None => table case Some(row) => MemoryLedger.Close(table, row)
  }

  ghost function Applied(env: Env, c: Incident, table: Memory.Table, r: InvestigationResult, now: int,
                         processId: string): Settlement
  {
    var audit := WithNewEvidence(c.audit, r.evidence, now);
    match r.ending
    case Paused(pending) =>
      Settlement(c.(status := AwaitingApproval, pendingApproval := Some(pending), awaitingSince := Some(now),
                    stepsUsed := Some(r.steps), cost := Some(r.cost),
                    audit := audit + [RequestRow(r.steps, pending, processId, now)]),
                 table)
    case Finished(status) =>
      Settlement(Incident(Closed(status), r.diagnosis, Some(r.steps), Some(r.cost), c.startedAt, Some(now), None, None,
                          audit + if c.status == AwaitingApproval then [DecisionRow(r, processId, now)] else []),
                 Remembered(env, table, r, now))
  }

  // ------------------------------------------------------------- one request

  datatype Desk = Desk(incident: Incident, thread: Thread, store: Store, table: Memory.Table)

  /** How far an invocation of the graph got: to its rest, nowhere, or it died at a point of some node. */
  datatype Outcome = Clean | Unstarted | Died(nodes: nat, point: Point)

  function Invoked(deps: Deps, d: Durable, outcome: Outcome): Durable {
    match outcome
    case Clean => Rest(deps, d)
    case Unstarted => d
    case Died(nodes, point) => PartWay(deps, d, nodes, point)
  }

  /** What is durable once an invocation ended: with a result the incident is settled, without one it is left alone. */
  ghost function Settled(env: Env, k: Desk, d: Durable, outcome: Outcome, now: int, processId: string): Desk {
    var d' := Invoked(env.deps, d, outcome);
    if outcome == Clean && AtRest(d'.thread) then
      var s := Applied(env, k.incident, k.table, ResultOf(env.deps, d'.thread), now, processId);
      Desk(s.incident, d'.thread, d'.store, s.table)
    else Desk(k.incident, d'.thread, d'.store, k.table)
  }

  ghost function Resumed(env: Env, k: Desk, decision: Decision, outcome: Outcome, now: int, processId: string): Desk {
    var th := if outcome == Unstarted then k.thread else Answer(k.thread, decision);
    Settled(env, k, Durable(th, k.store), outcome, now, processId)
  }

  ghost function Ran(env: Env, k: Desk, now: int, outcome: Outcome, later: int, processId: string): Desk {
    if k.incident.status != Open then k else
    var c := k.incident.(status := Running, startedAt := Some(now));
    Settled(env, k.(incident := c), Durable(START, k.store), outcome, later, processId)
  }

  const TIMEOUT_DECISION := Decision(false, "system:sla-timeout", JObj([]), true)

  predicate Overdue(env: Env, c: Incident, now: int) {
    c.status == AwaitingApproval && c.awaitingSince.Some? && now - c.awaitingSince.value >= env.slaSeconds
  }

  /** The lazy check before every read and every approval. */
  ghost function TimeoutChecked(env: Env, k: Desk, now: int, outcome: Outcome, later: int, processId: string): Desk {
    if Overdue(env, k.incident, now) then Resumed(env, k, TIMEOUT_DECISION, outcome, later, processId) else k
  }

  /** The API's own check of an approval's params, against the action the pause asked about. */
  predicate ParamsAccepted(env: Env, c: Incident, decision: Decision) {
    decision.approved && c.pendingApproval.Some? && TakesParams(c.pendingApproval.value.action) ==>
      ValidateParams(c.pendingApproval.value.action, decision.params, env.deps.boolOf).Some?
  }

  ghost function Decided(env: Env, k: Desk, decision: Decision, outcome: Outcome, now: int, processId: string): Desk {
    if k.incident.status != AwaitingApproval || !ParamsAccepted(env, k.incident, decision) then k
    else Resumed(env, k, decision, outcome, now, processId)
  }

  datatype Response = Done | Conflict(status: IncidentStatus) | InvalidParams | Failed

  // ------------------------------------------------------------ the handlers

  class IncidentRecord {
    var status: IncidentStatus
    var diagnosis: Option<Diagnosis>
    var stepsUsed: Option<int>
    var cost: Option<real>
    var startedAt: Option<int>
    var completedAt: Option<int>
    var pendingApproval: Option<Pending>
    var awaitingSince: Option<int>
    var audit: seq<AuditRow>
    /** The checkpointer's entry for this incident's thread. */
    var thread: Thread

    constructor ()
      ensures View() == OPENED && thread == START
    {
      status, diagnosis, stepsUsed, cost, startedAt := Open, None, None, None, None;
      completedAt, pendingApproval, awaitingSince, audit := None, None, None, [];
      thread := START;
    }

    function View(): Incident
      reads this
    {
      Incident(status, diagnosis, stepsUsed, cost, startedAt, completedAt, pendingApproval, awaitingSince, audit)
    }

    ghost function Around(ledger: RemediationLedger, memory: Memory.ServiceMemory): Desk
      reads this, ledger, memory
    {
      Desk(View(), thread, ledger.View(), memory.table)
    }

    method PersistNewEvidence(trail: seq<ToolRecord>, now: int)
      modifies this`audit
      ensures audit == WithNewEvidence(old(audit), trail, now)
      ensures |audit| == (if |old(audit)| < |trail| then |trail| else |old(audit)|) && old(audit) <= audit
      ensures forall j :: |old(audit)| <= j < |audit| ==>
        audit[j] == AuditRow(trail[j].step, trail[j].toolName, ToolArguments(trail[j].arguments),
                             ToolJson(trail[j].result), trail[j].error, now)
    {
      var written := |audit|;
      var i := written;
      while i < |trail|
        invariant written <= i && (written <= |trail| ==> i <= |trail|) && (|trail| < written ==> i == written)
        invariant |audit| == i && audit[..written] == old(audit)
        invariant forall j :: written <= j < i ==> audit[j] == EvidenceRow(trail[j], now)
      {
        audit := audit + [EvidenceRow(trail[i], now)];
        i := i + 1;
      }
      assert audit == audit[..written] + audit[written..];
    }

    method ApplyResult(env: Env, memory: Memory.ServiceMemory, r: InvestigationResult, now: int, processId: string)
      requires MemoryLedger.Sound(memory.table)
      modifies this, memory
      ensures Settlement(View(), memory.table) == Applied(env, old(View()), old(memory.table), r, now, processId)
      ensures thread == old(thread)
    {
      PersistNewEvidence(r.evidence, now);
      if r.ending.Paused? {
        status := AwaitingApproval;
        pendingApproval, awaitingSince := Some(r.ending.pending), Some(now);
        stepsUsed, cost := Some(r.steps), Some(r.cost);
        audit := audit + [RequestRow(r.steps, r.ending.pending, processId, now)];
        return;
      }
      if status == AwaitingApproval {
        audit := audit + [DecisionRow(r, processId, now)];
      }
      status := Closed(r.ending.status);
      diagnosis, stepsUsed, cost := r.diagnosis, Some(r.steps), Some(r.cost);
      completedAt, pendingApproval, awaitingSince := Some(now), None, None;
      var written := memory.WriteConfirmed(env.serviceId, env.incidentId, r.diagnosis, r.verdict, r.approval,
                                           env.minConfidence, now);
      if written {
        MemoryLedger.WriteSound(old(memory.table), CloseRow(env, r, now).value);
        var removed := memory.Consolidate(env.serviceId);
      }
    }

    /** `resume_investigation`, and its result applied when it returns one. */
    method Resume(env: Env, ledger: RemediationLedger, memory: Memory.ServiceMemory, decision: Decision, now: int,
                  processId: string)
      returns (raised: bool)
      requires MemoryLedger.Sound(memory.table)
      modifies this, ledger, memory
      ensures Around(ledger, memory) == Resumed(env, old(Around(ledger, memory)), decision, Clean, now, processId)
    {
      var calls;
      thread, raised, calls := RunToRest(env.deps, Answer(thread, decision), ledger);
      if !raised {
        ApplyResult(env, memory, ResultOf(env.deps, thread), now, processId);
      }
    }

    method MaybeApplyApprovalTimeout(env: Env, ledger: RemediationLedger, memory: Memory.ServiceMemory, now: int,
                                     later: int, processId: string)
      requires MemoryLedger.Sound(memory.table)
      modifies this, ledger, memory
      ensures Around(ledger, memory) == TimeoutChecked(env, old(Around(ledger, memory)), now, Clean, later, processId)
      ensures !(old(status) == AwaitingApproval && old(awaitingSince).Some?
                && now - old(awaitingSince).value >= env.slaSeconds) ==>
        Around(ledger, memory) == old(Around(ledger, memory))
    {
      if status != AwaitingApproval || awaitingSince.None? {
        return;
      }
      if now - awaitingSince.value < env.slaSeconds {
        return;
      }
      var raised := Resume(env, ledger, memory, TIMEOUT_DECISION, later, processId);
    }

    method RunIncident(env: Env, ledger: RemediationLedger, memory: Memory.ServiceMemory, now: int, later: int,
                       processId: string)
      returns (response: Response)
      requires MemoryLedger.Sound(memory.table)
      modifies this, ledger, memory
      ensures Around(ledger, memory) == Ran(env, old(Around(ledger, memory)), now, Clean, later, processId)
      ensures response.Conflict? <==> old(status) != Open
      ensures old(status) != Open ==>
        response == Conflict(old(status)) && Around(ledger, memory) == old(Around(ledger, memory))
    {
      if status != Open {
        return Conflict(status);
      }
      status, startedAt := Running, Some(now);
      var raised, calls;
      thread, raised, calls := RunToRest(env.deps, START, ledger);
      if raised {
        return Failed;
      }
      ApplyResult(env, memory, ResultOf(env.deps, thread), later, processId);
      response := Done;
    }

    method DecideApproval(env: Env, ledger: RemediationLedger, memory: Memory.ServiceMemory, decision: Decision,
                          now: int, later: int, processId: string)
      returns (response: Response)
      requires MemoryLedger.Sound(memory.table)
      modifies this, ledger, memory
      ensures var checked := TimeoutChecked(env, old(Around(ledger, memory)), now, Clean, later, processId);
        Around(ledger, memory) == Decided(env, checked, decision, Clean, later, processId)
        && (response.Conflict? <==> checked.incident.status != AwaitingApproval)
        && (response.InvalidParams? <==>
              checked.incident.status == AwaitingApproval && !ParamsAccepted(env, checked.incident, decision))
      ensures old(status) != AwaitingApproval ==>
        response == Conflict(old(status)) && Around(ledger, memory) == old(Around(ledger, memory))
      ensures old(status) == AwaitingApproval && old(awaitingSince).Some? && old(pendingApproval).Some?
              && now - old(awaitingSince).value < env.slaSeconds ==>
        var a := old(pendingApproval).value.action;
        !response.Conflict?
        && (response.InvalidParams? <==>
              decision.approved && a in {RollbackDeployment, ToggleFeatureFlag}
              && ValidateParams(a, decision.params, env.deps.boolOf).None?)
    {
      CheckedSound(env, Around(ledger, memory), now, later, processId);
      MaybeApplyApprovalTimeout(env, ledger, memory, now, later, processId);
      if status != AwaitingApproval {
        return Conflict(status);
      }
      if decision.approved && pendingApproval.Some? && TakesParams(pendingApproval.value.action) {
        if ValidateParams(pendingApproval.value.action, decision.params, env.deps.boolOf).None? {
          return InvalidParams;
        }
      }
      var raised := Resume(env, ledger, memory, decision, later, processId);
      response := if raised then Failed else Done;
    }
  }

  lemma AppliedSound(env: Env, c: Incident, table: Memory.Table, r: InvestigationResult, now: int, processId: string)
    requires MemoryLedger.Sound(table)
    ensures MemoryLedger.Sound(Applied(env, c, table, r, now, processId).table)
  {
    if r.ending.Finished? && CloseRow(env, r, now).Some? {
      var row := CloseRow(env, r, now).value;
      MemoryLedger.WriteSound(table, row);
      MemoryLedger.ConsolidatedClean(Memory.Write(table, row), row.service);
    }
  }

  lemma CheckedSound(env: Env, k: Desk, now: int, later: int, processId: string)
    requires MemoryLedger.Sound(k.table)
    ensures MemoryLedger.Sound(TimeoutChecked(env, k, now, Clean, later, processId).table)
  {
    if Overdue(env, k.incident, now) {
      var d' := Rest(env.deps, Durable(Answer(k.thread, TIMEOUT_DECISION), k.store));
      AppliedSound(env, k.incident, k.table, ResultOf(env.deps, d'.thread), later, processId);
    }
  }
}
