/** What one incident's row, audit log and thread look like at each status, and that every request keeps it so. */
module Lifecycle {
  import opened Wrappers
  import opened Policy
  import opened Remediation
  import opened Schemas
  import opened Nodes
  import opened Durable
  import opened Investigation
  import opened Permission
  import opened Incidents
  import opened World

  // ------------------------------------------------------------- audit log

  /** The row repeats the record, field by field. */
  predicate IsEvidence(row: AuditRow, record: ToolRecord) {
    && row.step == record.step && row.toolName == record.toolName
    && row.arguments == ToolArguments(record.arguments) && row.result == ToolJson(record.result)
    && row.error == record.error
  }

  /** What is put to a human: the action, the service it would act on, and the diagnosis behind it. */
  predicate Asks(pending: Pending, service: string, d: Diagnosis) {
    && pending.action == d.action && pending.service == service
    && pending.diagnosis == d.text && pending.confidence == d.confidence
  }

  predicate IsRequest(row: AuditRow, step: int, service: string, d: Diagnosis) {
    && row.step == step && row.toolName == "approval_requested"
    && row.arguments.RequestArguments? && Asks(row.arguments.pending, service, d)
    && row.result == ToolJson(None) && row.error == None
  }

  predicate IsDecision(row: AuditRow, s: GraphState) {
    && row.step == s.steps && row.toolName == "approval_decision"
    && row.arguments.DecisionArguments? && row.arguments.decision == s.approval
    && row.result == RemediationJson(s.remediation) && row.error == None
  }

  /** The whole evidence trail in order, then the request of a pause, then the decision that resolved it. */
  ghost predicate AuditLog(deps: Deps, audit: seq<AuditRow>, th: Thread, extra: nat) {
    var trail := th.state.evidence;
    && |audit| == |trail| + extra
    && (forall i :: 0 <= i < |trail| ==> IsEvidence(audit[i], trail[i]))
    && (extra >= 1 ==> th.state.diagnosis.Some?
                       && IsRequest(audit[|trail|], th.state.steps, deps.service, th.state.diagnosis.value))
    && (extra >= 2 ==> IsDecision(audit[|trail| + 1], th.state))
  }

  lemma NewEvidence(audit: seq<AuditRow>, trail: seq<ToolRecord>, now: int)
    ensures |audit| >= |trail| ==> WithNewEvidence(audit, trail, now) == audit
    ensures var all := WithNewEvidence([], trail, now);
      |all| == |trail| && forall i :: 0 <= i < |trail| ==> IsEvidence(all[i], trail[i])
  {
    var all := WithNewEvidence([], trail, now);
    assert forall i :: 0 <= i < |trail| ==> all[i] == EvidenceRow(trail[i], now);
  }

  // ---------------------------------------------------------------- shape

  /** At or past `evaluate_policy` with an action that needs approval. */
  ghost predicate Approvable(th: Thread) {
    && th.next in {AtEvaluate, AtDecide, AtEnd} && HasDiagnosis(th.state)
    && Evaluate(th.state.diagnosis.value.action) == RequireApproval
  }

  /** Rows a closed incident has beyond its evidence: a request and a decision exactly when approval was needed. */
  function Extra(s: GraphState): nat { if s.verdict == Some(RequireApproval) then 2 else 0 }

  ghost predicate Shape(env: Env, c: Incident, th: Thread) {
    match c.status
    case Open => c == OPENED && th == START
    case Running => c.startedAt.Some? && c == OPENED.(status := Running, startedAt := c.startedAt)
    case AwaitingApproval =>
      && c.startedAt.Some? && c.completedAt.None? && c.awaitingSince.Some? && c.diagnosis.None?
      && Approvable(th)
      && c.pendingApproval.Some? && Asks(c.pendingApproval.value, env.deps.service, th.state.diagnosis.value)
      && c.stepsUsed == Some(th.state.steps) && c.cost == Some(th.state.cost)
      && AuditLog(env.deps, c.audit, th, 1)
    case Closed(status) =>
      && c.startedAt.Some? && c.completedAt.Some? && c.awaitingSince.None? && c.pendingApproval.None?
      && th.next == AtEnd && status.Some? && status == th.state.status && c.diagnosis == th.state.diagnosis
      && c.stepsUsed == Some(th.state.steps) && c.cost == Some(th.state.cost)
      && AuditLog(env.deps, c.audit, th, Extra(th.state))
  }

  ghost predicate CaseOk(env: Env, c: Incident, th: Thread) {
    Shape(env, c, th) && Sound(env.deps, th) && ValidAnswer(env, th)
  }

  lemma PausedShape(env: Env, c: Incident, table: Memory.Table, th: Thread, now: int, processId: string)
    requires AwaitsAnswer(th) && HasDiagnosis(th.state)
    requires c.startedAt.Some? && c == OPENED.(status := Running, startedAt := c.startedAt)
    ensures Shape(env, Applied(env, c, table, ResultOf(env.deps, th), now, processId).incident, th)
  {
    var trail := th.state.evidence;
    NewEvidence(c.audit, trail, now);
    var all := WithNewEvidence([], trail, now);
    var row := RequestRow(th.state.steps, PendingOf(env.deps, th.state.diagnosis.value), processId, now);
    assert (all + [row])[|trail|] == row;
    assert forall i :: 0 <= i < |trail| ==> (all + [row])[i] == all[i];
  }

  /** Closing straight from `running`: nobody was asked. */
  lemma FinishedShape(env: Env, c: Incident, table: Memory.Table, th: Thread, now: int, processId: string)
    requires th.next == AtEnd && Phase(env.deps, th) && th.answer.None?
    requires c.startedAt.Some? && c == OPENED.(status := Running, startedAt := c.startedAt)
    ensures Shape(env, Applied(env, c, table, ResultOf(env.deps, th), now, processId).incident, th)
  {
    NewEvidence(c.audit, th.state.evidence, now);
    assert Extra(th.state) == 0;
    var all := WithNewEvidence([], th.state.evidence, now);
    assert all + [] == all;
  }

  /** Closing a pause: the decision row follows the request row. */
  lemma DecidedShape(env: Env, c: Incident, table: Memory.Table, th: Thread, now: int, processId: string)
    requires th.next == AtEnd && Phase(env.deps, th) && Shape(env, c, th) && c.status == AwaitingApproval
    ensures Shape(env, Applied(env, c, table, ResultOf(env.deps, th), now, processId).incident, th)
  {
    var trail := th.state.evidence;
    NewEvidence(c.audit, trail, now);
    assert Extra(th.state) == 2;
    var row := DecisionRow(ResultOf(env.deps, th), processId, now);
    var audit := c.audit + [row];
    assert audit[|trail| + 1] == row && audit[|trail|] == c.audit[|trail|];
    assert forall i :: 0 <= i < |trail| ==> audit[i] == c.audit[i];
  }

  /** A paused incident's row fits any later state of its thread. */
  lemma FrozenShape(env: Env, c: Incident, th: Thread, th': Thread)
    requires Shape(env, c, th) && c.status == AwaitingApproval && Frozen(th, th')
    ensures Shape(env, c, th')
  {
  }

  // --------------------------------------------------------- each request

  ghost predicate DeskOk(env: Env, k: Desk) {
    CaseOk(env, k.incident, k.thread) && AccountedFor(env.deps, Durable(k.thread, k.store))
  }

  lemma RanOk(env: Env, k: Desk, now: int, outcome: Outcome, later: int, processId: string)
    requires DeskOk(env, k)
    ensures DeskOk(env, Ran(env, k, now, outcome, later, processId))
  {
    if k.incident.status == Open {
      var d := Durable(START, k.store);
      var d' := Invoked(env.deps, d, outcome);
      InvokedKeeps(env, d, outcome);
      InvokedFreezes(env, d, outcome);
      var c := k.incident.(status := Running, startedAt := Some(now));
      if outcome == Clean && AtRest(d'.thread) {
        if AwaitsAnswer(d'.thread) {
          PausedShape(env, c, k.table, d'.thread, later, processId);
        } else {
          FinishedShape(env, c, k.table, d'.thread, later, processId);
        }
      }
    }
  }

  lemma HappenKeeps(deps: Deps, d: Durable, ev: Event)
    requires Sound(deps, d.thread) && AccountedFor(deps, d) && !ev.Foreign?
    ensures Sound(deps, Happen(deps, d, ev).thread) && AccountedFor(deps, Happen(deps, d, ev))
  {
    HappenKeepsSound(deps, d, ev);
    var lost: nat :| Accounted(deps, d, lost);
    HappenAccounted(deps, d, ev, lost);
  }

  /** Once somebody answers, a pause has an answer, be it the new one or one recorded before. */
  lemma AnswerThere(deps: Deps, th: Thread, decision: Decision)
    requires Approvable(th) && Phase(deps, th)
    ensures Answer(th, decision).answer.Some? && Frozen(th, Answer(th, decision))
  {
  }

  lemma AnswerKeeps(env: Env, k: Desk, decision: Decision)
    requires DeskOk(env, k) && k.incident.status == AwaitingApproval
    requires decision.approved ==>
      ValidateParams(k.thread.state.diagnosis.value.action, decision.params, env.deps.boolOf).Some?
    ensures var th := Answer(k.thread, decision);
      DeskOk(env, k.(thread := th)) && th.answer.Some?
  {
    HappenKeeps(env.deps, Durable(k.thread, k.store), Resume(decision));
    AnswerThere(env.deps, k.thread, decision);
    FrozenShape(env, k.incident, k.thread, Answer(k.thread, decision));
  }

  /** Answered, a paused thread runs to its end. */
  lemma AnsweredEnds(env: Env, d: Durable)
    requires Approvable(d.thread) && d.thread.answer.Some?
    ensures Rest(env.deps, d).thread.next == AtEnd
  {
    RestRests(env.deps, d);
    InvokedFreezes(env, d, Clean);
  }

  /** An invocation on an answered pause closes the incident when it comes back, and else leaves its row alone. */
  lemma SettledOk(env: Env, k: Desk, outcome: Outcome, now: int, processId: string)
    requires DeskOk(env, k) && k.incident.status == AwaitingApproval && (outcome == Clean ==> k.thread.answer.Some?)
    ensures var k' := Settled(env, k, Durable(k.thread, k.store), outcome, now, processId);
      DeskOk(env, k') && (if outcome == Clean then k'.incident.status.Closed? else k'.incident == k.incident)
  {
    var d := Durable(k.thread, k.store);
    var d' := Invoked(env.deps, d, outcome);
    InvokedKeeps(env, d, outcome);
    InvokedFreezes(env, d, outcome);
    FrozenShape(env, k.incident, k.thread, d'.thread);
    if outcome == Clean {
      AnsweredEnds(env, d);
      DecidedShape(env, k.incident, k.table, d'.thread, now, processId);
    }
  }

  lemma ResumedOk(env: Env, k: Desk, decision: Decision, outcome: Outcome, now: int, processId: string)
    requires DeskOk(env, k) && k.incident.status == AwaitingApproval
    requires decision.approved ==>
      ValidateParams(k.thread.state.diagnosis.value.action, decision.params, env.deps.boolOf).Some?
    ensures var k' := Resumed(env, k, decision, outcome, now, processId);
      DeskOk(env, k') && (if outcome == Clean then k'.incident.status.Closed? else k'.incident == k.incident)
  {
    if outcome == Unstarted {
      SettledOk(env, k, outcome, now, processId);
    } else {
      var answered := k.(thread := Answer(k.thread, decision));
      AnswerKeeps(env, k, decision);
      SettledOk(env, answered, outcome, now, processId);
    }
  }

  lemma CheckedOk(env: Env, k: Desk, now: int, outcome: Outcome, later: int, processId: string)
    requires DeskOk(env, k)
    ensures DeskOk(env, TimeoutChecked(env, k, now, outcome, later, processId))
  {
    if Overdue(env, k.incident, now) {
      ResumedOk(env, k, TIMEOUT_DECISION, outcome, later, processId);
    }
  }

  /** The API checked the params against the very action the thread is paused on. */
  lemma AcceptedParamsValid(env: Env, c: Incident, th: Thread, decision: Decision)
    requires Shape(env, c, th) && c.status == AwaitingApproval && ParamsAccepted(env, c, decision)
    ensures th.state.diagnosis.Some?
    ensures decision.approved ==>
      ValidateParams(th.state.diagnosis.value.action, decision.params, env.deps.boolOf).Some?
  {
  }

  lemma DecidedOk(env: Env, k: Desk, decision: Decision, outcome: Outcome, now: int, processId: string)
    requires DeskOk(env, k)
    ensures DeskOk(env, Decided(env, k, decision, outcome, now, processId))
  {
    if k.incident.status == AwaitingApproval && ParamsAccepted(env, k.incident, decision) {
      AcceptedParamsValid(env, k.incident, k.thread, decision);
      ResumedOk(env, k, decision, outcome, now, processId);
    }
  }

  lemma ReenteredOk(env: Env, k: Desk, id: nat, fate: Fate)
    requires DeskOk(env, k)
    ensures DeskOk(env, Served(env, k, Reenter(id, fate)))
  {
    if k.incident.status != Open {
      var d := Durable(k.thread, k.store);
      HappenKeeps(env.deps, d, Attempt(fate));
      assert Happen(env.deps, d, Attempt(fate)) == Enter(env.deps, d, fate);
      EnterKeepsAnswer(env.deps, d, fate);
      EnteredShape(env, k.incident, d, fate);
    }
  }

  lemma EnteredShape(env: Env, c: Incident, d: Durable, fate: Fate)
    requires CaseOk(env, c, d.thread) && c.status != Open
    ensures Shape(env, c, Enter(env.deps, d, fate).thread) && ValidAnswer(env, Enter(env.deps, d, fate).thread)
  {
    var th' := Enter(env.deps, d, fate).thread;
    EnterKeepsAnswer(env.deps, d, fate);
    if d.thread.next != AtGather {
      EnterFreezes(env.deps, d, fate);
      if c.status == AwaitingApproval { FrozenShape(env, c, d.thread, th'); }
      if c.status.Closed? { assert th' == d.thread; }
    }
  }

  lemma ServedOk(env: Env, k: Desk, q: Request)
    requires DeskOk(env, k) && (q.Run? || q.Read? || q.Approve? || q.Reenter?)
    ensures DeskOk(env, Served(env, k, q))
  {
    match q
    case Run(_, now, outcome, later, processId) => RanOk(env, k, now, outcome, later, processId);
    case Read(_, now, timeout, later, processId) => CheckedOk(env, k, now, timeout, later, processId);
    case Approve(_, approved, actor, params, now, timeout, _, outcome, later, processId) =>
      CheckedOk(env, k, now, timeout, later, processId);
      DecidedOk(env, TimeoutChecked(env, k, now, timeout, later, processId), Decision(approved, actor, params, false),
                outcome, later, processId);
    case Reenter(id, fate) => ReenteredOk(env, k, id, fate);
  }
}
