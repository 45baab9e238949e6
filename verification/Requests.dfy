/** What each API request does to the world, spelled out: times, answers, rows and runs. */
module Requests {
  import opened Wrappers
  import opened CanonicalJson
  import opened Policy
  import opened Remediation
  import opened Schemas
  import opened Idempotency
  import opened Nodes
  import opened Durable
  import opened Investigation
  import opened CrashTransparency
  import opened Permission
  import opened Incidents
  import opened World
  import opened Lifecycle
  import opened Histories
  import opened Guarantees
  import opened SlaSafety

  // ------------------------------------------------------------- on one desk

  /** Closed at `at` on `answer`: one decision row appended, stamped with time and process. */
  ghost predicate ClosedOn(c: Incident, c': Incident, th': Thread, answer: Decision, at: int, processId: string) {
    && c'.status.Closed? && c'.completedAt == Some(at) && th'.next == AtEnd
    && th'.answer == Some(answer) && th'.state.approval == Some(answer)
    && |c'.audit| == |c.audit| + 1 && c'.audit[..|c.audit|] == c.audit
    && var row := c'.audit[|c.audit|];
    && row.toolName == "approval_decision" && row.arguments == DecisionArguments(Some(answer), processId)
    && row.result == RemediationJson(th'.state.remediation) && row.createdAt == at
  }

  /** An answer that was there is kept; otherwise the one offered is recorded. */
  function Settling(th: Thread, offered: Decision): Decision {
    match th.answer case Some(recorded) => recorded case None => offered
  }

  lemma SettlingIsAnswer(env: Env, k: Desk, offered: Decision)
    requires DeskOk(env, k) && k.incident.status == AwaitingApproval
    ensures Answer(k.thread, offered).answer == Some(Settling(k.thread, offered))
    ensures AwaitsAnswer(k.thread) <==> k.thread.answer.None?
  {
    AnswerThere(env.deps, k.thread, offered);
  }

  lemma ClosingRow(env: Env, c: Incident, th': Thread, table: Memory.Table, answer: Decision, at: int,
                   processId: string)
    requires Shape(env, c, th') && c.status == AwaitingApproval && Phase(env.deps, th')
    requires th'.next == AtEnd && th'.answer == Some(answer)
    ensures var c' := Applied(env, c, table, ResultOf(env.deps, th'), at, processId).incident;
      ClosedOn(c, c', th', answer, at, processId)
  {
    NewEvidence(c.audit, th'.state.evidence, at);
    var row := DecisionRow(ResultOf(env.deps, th'), processId, at);
    assert (c.audit + [row])[|c.audit|] == row && (c.audit + [row])[..|c.audit|] == c.audit;
  }

  /** An answered pause, run on, ends as the same pause on the same answer. */
  lemma AnsweredRest(env: Env, k: Desk)
    requires DeskOk(env, k) && k.incident.status == AwaitingApproval && k.thread.answer.Some?
    ensures var th' := Rest(env.deps, Durable(k.thread, k.store)).thread;
      th'.next == AtEnd && th'.answer == k.thread.answer && Phase(env.deps, th') && Shape(env, k.incident, th')
  {
    var d := Durable(k.thread, k.store);
    InvokedKeeps(env, d, Clean);
    InvokedFreezes(env, d, Clean);
    AnsweredEnds(env, d);
    FrozenShape(env, k.incident, k.thread, Rest(env.deps, d).thread);
  }

  /** A resume that comes back closes the pause on the recorded answer, or else on the one offered. */
  lemma ResumeCloses(env: Env, k: Desk, offered: Decision, at: int, processId: string)
    requires DeskOk(env, k) && k.incident.status == AwaitingApproval
    requires offered.approved ==>
      ValidateParams(k.thread.state.diagnosis.value.action, offered.params, env.deps.boolOf).Some?
    ensures var k' := Resumed(env, k, offered, Clean, at, processId);
      && Durable(k'.thread, k'.store) == Rest(env.deps, Durable(Answer(k.thread, offered), k.store))
      && ClosedOn(k.incident, k'.incident, k'.thread, Settling(k.thread, offered), at, processId)
  {
    var answered := k.(thread := Answer(k.thread, offered));
    AnswerKeeps(env, k, offered);
    SettlingIsAnswer(env, k, offered);
    AnsweredRest(env, answered);
    var th' := Rest(env.deps, Durable(answered.thread, k.store)).thread;
    ClosingRow(env, k.incident, th', k.table, Settling(k.thread, offered), at, processId);
  }

  /** Denied, nothing runs and nothing is recorded as remediation. */
  lemma DenialRunsNothing(env: Env, k: Desk, offered: Decision)
    requires DeskOk(env, k) && k.incident.status == AwaitingApproval && k.thread.answer.None? && !offered.approved
    ensures var d' := Rest(env.deps, Durable(Answer(k.thread, offered), k.store));
      d'.store == k.store && d'.thread.state.remediation.None?
  {
    var d := Durable(Answer(k.thread, offered), k.store);
    SettlingIsAnswer(env, k, offered);
    DeniedIsQuiet(env, k, offered);
    QuietInvocation(env.deps, d, Clean);
    AnswerKeeps(env, k, offered);
    InvokedKeeps(env, d, Clean);
    InvokedFreezes(env, d, Clean);
    AnsweredEnds(env, d);
  }

  /** Past `evaluate_policy` a run to rest changes nothing but the status. */
  lemma RestFromDecide(deps: Deps, d: Durable)
    requires d.thread.next == AtDecide
    ensures var d' := Rest(deps, d);
      d'.store == d.store && d'.thread.state.remediation == d.thread.state.remediation
  {
    var e := Enter(deps, d, Whole);
    EnterRank(deps, d, Whole);
    assert Rest(deps, d) == Rest(deps, e) == e;
  }

  /** Approved, the remediation runs once, with the validated params, and its row and result are recorded. */
  lemma ApprovalRuns(env: Env, k: Desk, offered: Decision)
    requires DeskOk(env, k) && k.incident.status == AwaitingApproval && k.thread.answer.None? && offered.approved
    requires ValidateParams(k.thread.state.diagnosis.value.action, offered.params, env.deps.boolOf).Some?
    ensures var a := k.thread.state.diagnosis.value.action;
      var valid := ValidateParams(a, offered.params, env.deps.boolOf).value;
      var run := Execution(env.deps.threadId, ActionName(a), env.deps.service, valid);
      var call := ApprovedCall(env.deps.service, a, offered.params, env.deps.boolOf);
      var d' := Rest(env.deps, Durable(Answer(k.thread, offered), k.store));
      && call.Some?
      && d'.store.runs == k.store.runs + [run]
      && d'.store.rows == k.store.rows[RunKey(run) := RowOf(run, call.value.result)] && RunKey(run) !in k.store.rows
      && d'.thread.state.remediation == Some(Remediated(call.value.result, false))
  {
    var d := Durable(Answer(k.thread, offered), k.store);
    SettlingIsAnswer(env, k, offered);
    AnswerKeeps(env, k, offered);
    NoPlanBefore(env.deps, k.thread);
    FreshPlan(env, k, k.(thread := d.thread));
    EnterRank(env.deps, d, Whole);
    var e := Enter(env.deps, d, Whole);
    EnterStore(env.deps, d);
    PendingIsPlan(env.deps, d.thread);
    assert Rest(env.deps, d) == Rest(env.deps, e);
    ClaimedNow(env.deps, d);
    RestFromDecide(env.deps, e);
  }

  lemma ClaimedNow(deps: Deps, d: Durable)
    requires PendingPlan(deps, d.thread).Some?
    ensures var call := PendingPlan(deps, d.thread).value;
      var claim := Claimed(d.store, RunOf(deps, call), call.result);
      var e := Enter(deps, d, Whole);
      e.thread.next == AtDecide && e.thread.state.remediation == Some(Remediated(claim.result, claim.deduplicated))
  {
  }

  // --------------------------------------------------------------- reads

  lemma UnchangedStep(envs: nat -> Env, w: World, q: Request)
    requires AboutIncident(q) && q.id in w.cases && Served(envs(q.id), DeskOf(w, q.id), q) == DeskOf(w, q.id)
    ensures Step(envs, w, q) == w
  {
    StepCase(envs, w, q, q.id);
    assert PutBack(w, q.id, DeskOf(w, q.id)).cases == w.cases;
  }

  /** In any history a read of anything but a pause that has reached the SLA leaves the world as it is. */
  lemma EarlyReadChangesNothing(envs: nat -> Env, requests: seq<Request>, q: Request)
    requires Configured(envs) && q.Read? && q.id in After(envs, requests).cases
    requires var c := After(envs, requests).cases[q.id].incident;
      c.status == AwaitingApproval ==> c.awaitingSince.Some? && q.now - c.awaitingSince.value < envs(q.id).slaSeconds
    ensures Step(envs, After(envs, requests), q) == After(envs, requests)
  {
    UnchangedStep(envs, After(envs, requests), q);
  }

  /** The timeout's own answer. */
  const DENIAL := Decision(false, "system:sla-timeout", JObj([]), true)

  /**
  In any history a read of a pause that has reached the SLA, if its check comes back, closes the incident: on the
  answer recorded before, or on the timeout's denial, and then nothing runs.
  */
  lemma DueReadCloses(envs: nat -> Env, requests: seq<Request>, q: Request)
    requires Configured(envs) && q.Read? && q.timeout == Clean && q.id in After(envs, requests).cases
    requires var c := After(envs, requests).cases[q.id].incident;
      c.status == AwaitingApproval && c.awaitingSince.Some? && q.now - c.awaitingSince.value >= envs(q.id).slaSeconds
    ensures var w, w' := After(envs, requests), Step(envs, After(envs, requests), q);
      var k, k' := w.cases[q.id], w'.cases[q.id];
      && ClosedOn(k.incident, k'.incident, k'.thread, Settling(k.thread, DENIAL), q.later, q.processId)
      && (k.thread.answer.None? ==> w'.store == w.store && k'.thread.state.remediation.None?)
  {
    var w := After(envs, requests);
    var env, k := envs(q.id), DeskOf(w, q.id);
    CaseAfter(envs, requests, q.id);
    StepCase(envs, w, q, q.id);
    ResumeCloses(env, k, TIMEOUT_DECISION, q.later, q.processId);
    if k.thread.answer.None? { DenialRunsNothing(env, k, TIMEOUT_DECISION); }
  }

  // ------------------------------------------------------------ decisions

  /** The API takes a denial as it is, and an approval with params that validate for the paused action. */
  predicate Acceptable(env: Env, a: Action, q: Request)
    requires q.Approve?
  {
    !q.approved || ValidateParams(a, q.params, env.deps.boolOf).Some?
  }

  function Offered(q: Request): Decision
    requires q.Approve?
  {
    Decision(q.approved, q.actor, q.params, false)
  }

  lemma TimelyDecided(env: Env, k: Desk, q: Request)
    requires DeskOk(env, k) && q.Approve? && k.incident.status == AwaitingApproval && k.incident.awaitingSince.Some?
    requires q.now - k.incident.awaitingSince.value < env.slaSeconds
    ensures var a := k.thread.state.diagnosis.value.action;
      Served(env, k, q) ==
        if Acceptable(env, a, q) then Resumed(env, k, Offered(q), q.outcome, q.later, q.processId) else k
  {
    ExecutableByPolicy(k.thread.state.diagnosis.value.action);
  }

  /** In any history, before the SLA, what is not acceptable changes nothing. */
  lemma UnacceptableChangesNothing(envs: nat -> Env, requests: seq<Request>, q: Request)
    requires Configured(envs) && q.Approve? && q.id in After(envs, requests).cases
    requires var c := After(envs, requests).cases[q.id].incident;
      c.status == AwaitingApproval && c.awaitingSince.Some? && q.now - c.awaitingSince.value < envs(q.id).slaSeconds
    ensures var th := After(envs, requests).cases[q.id].thread;
      && th.state.diagnosis.Some?
      && (!Acceptable(envs(q.id), th.state.diagnosis.value.action, q) ==>
            Step(envs, After(envs, requests), q) == After(envs, requests))
  {
    var w := After(envs, requests);
    CaseAfter(envs, requests, q.id);
    TimelyDecided(envs(q.id), DeskOf(w, q.id), q);
    if !Acceptable(envs(q.id), w.cases[q.id].thread.state.diagnosis.value.action, q) { UnchangedStep(envs, w, q); }
  }

  /** In any history a decision on anything but a pause is refused and changes nothing. */
  lemma DecisionNeedsAPause(envs: nat -> Env, requests: seq<Request>, q: Request)
    requires Configured(envs) && q.Approve? && q.id in After(envs, requests).cases
    requires After(envs, requests).cases[q.id].incident.status != AwaitingApproval
    ensures Step(envs, After(envs, requests), q) == After(envs, requests)
  {
    UnchangedStep(envs, After(envs, requests), q);
  }

  /**
  In any history a decision within the SLA that the API accepts and that comes back closes the incident: on what was
  decided, or on the answer an earlier request had recorded.
  */
  lemma DecisionCloses(envs: nat -> Env, requests: seq<Request>, q: Request)
    requires Configured(envs) && q.Approve? && q.outcome == Clean && q.id in After(envs, requests).cases
    requires var c := After(envs, requests).cases[q.id].incident;
      c.status == AwaitingApproval && c.awaitingSince.Some? && q.now - c.awaitingSince.value < envs(q.id).slaSeconds
    requires var d := After(envs, requests).cases[q.id].thread.state.diagnosis;
      d.Some? && Acceptable(envs(q.id), d.value.action, q)
    ensures var w, w' := After(envs, requests), Step(envs, After(envs, requests), q);
      ClosedOn(w.cases[q.id].incident, w'.cases[q.id].incident, w'.cases[q.id].thread,
               Settling(w.cases[q.id].thread, Offered(q)), q.later, q.processId)
  {
    var w := After(envs, requests);
    CaseAfter(envs, requests, q.id);
    StepCase(envs, w, q, q.id);
    TimelyDecided(envs(q.id), DeskOf(w, q.id), q);
    ResumeCloses(envs(q.id), DeskOf(w, q.id), Offered(q), q.later, q.processId);
  }

  /** A denial, on a pause nobody had answered, runs nothing. */
  lemma DenialIsCarriedOut(envs: nat -> Env, requests: seq<Request>, q: Request)
    requires Configured(envs) && q.Approve? && q.outcome == Clean && q.id in After(envs, requests).cases && !q.approved
    requires var c := After(envs, requests).cases[q.id].incident;
      c.status == AwaitingApproval && c.awaitingSince.Some? && q.now - c.awaitingSince.value < envs(q.id).slaSeconds
    requires After(envs, requests).cases[q.id].thread.answer.None?
    ensures var w, w' := After(envs, requests), Step(envs, After(envs, requests), q);
      w'.store == w.store && w'.cases[q.id].thread.state.remediation.None?
      && w'.cases[q.id].thread.answer == Some(Decision(false, q.actor, q.params, false))
  {
    var w := After(envs, requests);
    CaseAfter(envs, requests, q.id);
    StepCase(envs, w, q, q.id);
    TimelyDecided(envs(q.id), DeskOf(w, q.id), q);
    ResumeCloses(envs(q.id), DeskOf(w, q.id), Offered(q), q.later, q.processId);
    DenialRunsNothing(envs(q.id), DeskOf(w, q.id), Offered(q));
  }

  /** An approval, on a pause nobody had answered, runs the paused action once, with the validated params. */
  lemma ApprovalIsCarriedOut(envs: nat -> Env, requests: seq<Request>, q: Request)
    requires Configured(envs) && q.Approve? && q.outcome == Clean && q.id in After(envs, requests).cases && q.approved
    requires var c := After(envs, requests).cases[q.id].incident;
      c.status == AwaitingApproval && c.awaitingSince.Some? && q.now - c.awaitingSince.value < envs(q.id).slaSeconds
    requires var th := After(envs, requests).cases[q.id].thread;
      th.answer.None? && th.state.diagnosis.Some?
      && ValidateParams(th.state.diagnosis.value.action, q.params, envs(q.id).deps.boolOf).Some?
    ensures var env, w, w' := envs(q.id), After(envs, requests), Step(envs, After(envs, requests), q);
      var a := w.cases[q.id].thread.state.diagnosis.value.action;
      var valid := ValidateParams(a, q.params, env.deps.boolOf).value;
      var run := Execution(ThreadId(q.id), ActionName(a), env.deps.service, valid);
      var call := ApprovedCall(env.deps.service, a, q.params, env.deps.boolOf);
      && call.Some? && RunKey(run) !in w.store.rows
      && w'.store.runs == w.store.runs + [run]
      && w'.store.rows == w.store.rows[RunKey(run) := Row(ThreadId(q.id), ActionName(a), env.deps.service, valid,
                                                          call.value.result)]
      && w'.cases[q.id].thread.state.remediation == Some(Remediated(call.value.result, false))
  {
    var w := After(envs, requests);
    CaseAfter(envs, requests, q.id);
    StepCase(envs, w, q, q.id);
    TimelyDecided(envs(q.id), DeskOf(w, q.id), q);
    ResumeCloses(envs(q.id), DeskOf(w, q.id), Offered(q), q.later, q.processId);
    ApprovalRuns(envs(q.id), DeskOf(w, q.id), Offered(q));
  }
}
