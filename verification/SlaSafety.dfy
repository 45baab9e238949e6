/** What the lazy approval timeout may and may not do. */
module SlaSafety {
  import opened Remediation
  import opened Idempotency
  import opened Nodes
  import opened Durable
  import opened CrashTransparency
  import opened Permission
  import opened Incidents
  import opened World
  import opened Lifecycle
  import opened Guarantees

  /** After a check that came back, no overdue pause is left, and an overdue one is closed. */
  lemma CheckLeavesNothingOverdue(env: Env, k: Desk, now: int, later: int, processId: string)
    requires DeskOk(env, k)
    ensures var k' := TimeoutChecked(env, k, now, Clean, later, processId);
      && !Overdue(env, k'.incident, now)
      && (Overdue(env, k.incident, now) ==> k'.incident.status.Closed?)
  {
    if Overdue(env, k.incident, now) {
      ResumedOk(env, k, TIMEOUT_DECISION, Clean, later, processId);
    }
  }

  /** A human decision that comes too late is a read: what it says has no effect at all. */
  lemma LateDecision(env: Env, k: Desk, q: Request)
    requires DeskOk(env, k) && q.Approve? && Overdue(env, k.incident, q.now) && q.timeout == Clean
    ensures Served(env, k, q) == Served(env, k, Read(q.id, q.now, Clean, q.later, q.processId))
    ensures Served(env, k, q).incident.status.Closed?
  {
    CheckLeavesNothingOverdue(env, k, q.now, q.later, q.processId);
  }

  /** An earlier request recorded an approval, died, and the remediation has no committed row yet. */
  predicate ApprovalOutstanding(env: Env, k: Desk) {
    && k.thread.next == AtEvaluate && k.thread.answer.Some? && k.thread.answer.value.approved
    && var plan := Plan(env.deps, k.thread); plan.Some? && RunKey(plan.value) !in k.store.rows
  }

  /** At or past `evaluate_policy`, with nothing planned or the plan's row committed. */
  predicate Quiet(deps: Deps, d: Durable) {
    && d.thread.next in {AtEvaluate, AtDecide, AtEnd}
    && (Plan(deps, d.thread).Some? ==> RunKey(Plan(deps, d.thread).value) in d.store.rows)
  }

  /** Attempts on a quiet thread leave the store alone and the thread quiet. */
  lemma {:induction false} QuietAttempts(deps: Deps, d: Durable, events: seq<Event>)
    requires Attempts(events) && Quiet(deps, d)
    ensures Sched(deps, d, events).store == d.store && Quiet(deps, Sched(deps, d, events))
    decreases |events|
  {
    if events != [] {
      QuietAttempt(deps, d, events[0].fate);
      QuietAttempts(deps, Enter(deps, d, events[0].fate), events[1..]);
    }
  }

  lemma QuietAttempt(deps: Deps, d: Durable, fate: Fate)
    requires Quiet(deps, d)
    ensures Enter(deps, d, fate).store == d.store && Quiet(deps, Enter(deps, d, fate))
  {
    EnterRuns(deps, d, fate);
    EnterKeepsPlan(deps, d, fate);
    PendingIsPlan(deps, d.thread);
    assert Plan(deps, Enter(deps, d, fate).thread) == Plan(deps, d.thread);
  }

  lemma QuietInvocation(deps: Deps, d: Durable, outcome: Outcome)
    requires Quiet(deps, d)
    ensures Invoked(deps, d, outcome).store == d.store && Quiet(deps, Invoked(deps, d, outcome))
  {
    var events := InvokedIsSched(deps, d, outcome);
    QuietAttempts(deps, d, events);
  }

  /** A pause that nobody answered plans nothing, and nothing either once it is denied. */
  lemma DeniedIsQuiet(env: Env, k: Desk, decision: Decision)
    requires AwaitsAnswer(k.thread) && !decision.approved
    ensures Quiet(env.deps, Durable(k.thread, k.store))
    ensures Quiet(env.deps, Durable(Answer(k.thread, decision), k.store))
  {
  }

  /** A pause that was answered is quiet unless an approval is outstanding. */
  lemma AnsweredIsQuiet(env: Env, k: Desk)
    requires DeskOk(env, k) && k.incident.status == AwaitingApproval
    requires !AwaitsAnswer(k.thread) && !ApprovalOutstanding(env, k)
    ensures Quiet(env.deps, Durable(k.thread, k.store))
  {
    var lost: nat :| Accounted(env.deps, Durable(k.thread, k.store), lost);
  }

  /** Resuming with the timeout's denial, or the answer that was there, runs nothing and leaves the thread quiet. */
  lemma DenialQuiet(env: Env, k: Desk, outcome: Outcome)
    requires DeskOk(env, k) && k.incident.status == AwaitingApproval && !ApprovalOutstanding(env, k)
    ensures var d' := Invoked(env.deps, Durable(Answer(k.thread, TIMEOUT_DECISION), k.store), outcome);
      d'.store == k.store && Quiet(env.deps, d') && !AwaitsAnswer(d'.thread)
  {
    var d := Durable(Answer(k.thread, TIMEOUT_DECISION), k.store);
    if AwaitsAnswer(k.thread) { DeniedIsQuiet(env, k, TIMEOUT_DECISION); } else { AnsweredIsQuiet(env, k); }
    QuietInvocation(env.deps, d, outcome);
    InvokedFreezes(env, d, outcome);
    AnswerThere(env.deps, k.thread, TIMEOUT_DECISION);
  }

  /** However far its resume got, a timeout runs no executor unless an earlier approval was left outstanding. */
  lemma TimeoutQuiet(env: Env, k: Desk, now: int, outcome: Outcome, later: int, processId: string)
    requires DeskOk(env, k) && !ApprovalOutstanding(env, k)
    ensures TimeoutChecked(env, k, now, outcome, later, processId).store == k.store
    ensures var k' := TimeoutChecked(env, k, now, outcome, later, processId);
      Overdue(env, k.incident, now) && outcome != Unstarted ==>
        !AwaitsAnswer(k'.thread) && Quiet(env.deps, Durable(k'.thread, k'.store))
  {
    if Overdue(env, k.incident, now) && outcome != Unstarted {
      DenialQuiet(env, k, outcome);
    }
  }

  /** A decision on a pause that already has its answer, and is quiet, runs nothing. */
  lemma DecisionQuiet(env: Env, k: Desk, decision: Decision, outcome: Outcome, now: int, processId: string)
    requires !AwaitsAnswer(k.thread) && Quiet(env.deps, Durable(k.thread, k.store))
    ensures Decided(env, k, decision, outcome, now, processId).store == k.store
  {
    assert Answer(k.thread, decision) == k.thread;
    QuietInvocation(env.deps, Durable(k.thread, k.store), outcome);
  }

  /**
  An approval past the SLA runs a remediation only if the timeout's own resume failed before its denial was recorded,
  or an earlier approval was outstanding.
  */
  lemma LateApproval(env: Env, k: Desk, q: Request)
    requires DeskOk(env, k) && q.Approve? && Overdue(env, k.incident, q.now)
    requires q.timeout != Unstarted && !ApprovalOutstanding(env, k)
    ensures Served(env, k, q).store == k.store
  {
    var checked := TimeoutChecked(env, k, q.now, q.timeout, q.later, q.processId);
    TimeoutQuiet(env, k, q.now, q.timeout, q.later, q.processId);
    DecisionQuiet(env, checked, Decision(q.approved, q.actor, q.params, false), q.outcome, q.later, q.processId);
  }

  /** One that comes back runs an executor exactly when an overdue pause had an approval outstanding. */
  lemma TimeoutRuns(env: Env, k: Desk, now: int, later: int, processId: string)
    requires DeskOk(env, k)
    ensures TimeoutChecked(env, k, now, Clean, later, processId).store.runs != k.store.runs
       <==> Overdue(env, k.incident, now) && ApprovalOutstanding(env, k)
  {
    if !ApprovalOutstanding(env, k) {
      TimeoutQuiet(env, k, now, Clean, later, processId);
    } else if Overdue(env, k.incident, now) {
      OutstandingRuns(env, k);
    }
  }

  lemma OutstandingRuns(env: Env, k: Desk)
    requires DeskOk(env, k) && k.incident.status == AwaitingApproval && ApprovalOutstanding(env, k)
    ensures Answer(k.thread, TIMEOUT_DECISION) == k.thread
    ensures |Rest(env.deps, Durable(k.thread, k.store)).store.runs| > |k.store.runs|
  {
    var d := Durable(k.thread, k.store);
    EnterRank(env.deps, d, Whole);
    var d' := Enter(env.deps, d, Whole);
    EnterStore(env.deps, d);
    PendingIsPlan(env.deps, k.thread);
    assert d'.store.runs == k.store.runs + [Plan(env.deps, k.thread).value];
    InvokedGrows(env.deps, d', Clean);
  }

  /**
  How an approval comes to be outstanding: at any open pause, an approval with valid params whose request dies right
  after its answer was recorded.  The next overdue check then carries the approval out.
  */
  lemma CrashedApprovalIsCarriedOut(env: Env, k: Desk, approve: Request, read: Request)
    requires DeskOk(env, k) && k.incident.status == AwaitingApproval && AwaitsAnswer(k.thread)
    requires approve.Approve? && approve.approved && approve.outcome == Died(0, BeforeExecutor)
    requires !Overdue(env, k.incident, approve.now)
    requires ParamsAccepted(env, k.incident, Decision(true, approve.actor, approve.params, false))
    requires read.Read? && read.timeout == Clean && Overdue(env, k.incident, read.now)
    ensures var k1 := Served(env, k, approve);
      && k1.incident == k.incident && k1.store == k.store
      && |Served(env, k1, read).store.runs| > |k.store.runs|
  {
    var k1 := Served(env, k, approve);
    AnswerRecorded(env, k, approve);
    ServedOk(env, k, approve);
    NoPlanBefore(env.deps, k.thread);
    FreshPlan(env, k, k1);
    CarriedOut(env, k1, read);
  }

  lemma AnswerRecorded(env: Env, k: Desk, approve: Request)
    requires k.incident.status == AwaitingApproval && AwaitsAnswer(k.thread)
    requires approve.Approve? && approve.outcome == Died(0, BeforeExecutor) && !Overdue(env, k.incident, approve.now)
    requires ParamsAccepted(env, k.incident, Decision(approve.approved, approve.actor, approve.params, false))
    ensures Served(env, k, approve)
         == k.(thread := Answer(k.thread, Decision(approve.approved, approve.actor, approve.params, false)))
  {
    var decision := Decision(approve.approved, approve.actor, approve.params, false);
    var d := Durable(Answer(k.thread, decision), k.store);
    assert PartWay(env.deps, d, 0, BeforeExecutor) == Enter(env.deps, d, Stopped(BeforeExecutor)) == d;
  }

  lemma CarriedOut(env: Env, k: Desk, read: Request)
    requires DeskOk(env, k) && ApprovalOutstanding(env, k)
    requires read.Read? && read.timeout == Clean && Overdue(env, k.incident, read.now)
    ensures |Served(env, k, read).store.runs| > |k.store.runs|
  {
    OutstandingRuns(env, k);
    assert Served(env, k, read).store == Rest(env.deps, Durable(k.thread, k.store)).store;
  }

  /** Where nothing was planned nothing was committed, so a plan that appears is outstanding. */
  lemma FreshPlan(env: Env, k: Desk, k1: Desk)
    requires DeskOk(env, k) && Plan(env.deps, k.thread).None? && DeskOk(env, k1) && k1.store == k.store
    requires k1.thread.next == AtEvaluate && k1.thread.answer.Some? && k1.thread.answer.value.approved
    requires Approvable(k1.thread)
    ensures ApprovalOutstanding(env, k1)
  {
    var plan := Plan(env.deps, k1.thread);
    PlanIsJustified(env.deps, k1.thread, plan.value);
    var lost: nat :| Accounted(env.deps, Durable(k.thread, k.store), lost);
    if RunKey(plan.value) in k.store.rows {
      OwnKey(k.store.rows, plan.value);
      assert Own(k.store.rows, env.deps.threadId, RunKey(plan.value));
    }
  }

  // ------------------------------------------------------------ every history

  /** After a read whose check came back, no overdue pause is left, and an overdue one is closed. */
  lemma NothingOverdueAfterRead(envs: nat -> Env, requests: seq<Request>, q: Request)
    requires Configured(envs) && q.Read? && q.timeout == Clean && q.id in After(envs, requests).cases
    ensures var w, w' := After(envs, requests), Step(envs, After(envs, requests), q);
      && !Overdue(envs(q.id), w'.cases[q.id].incident, q.now)
      && (Overdue(envs(q.id), w.cases[q.id].incident, q.now) ==> w'.cases[q.id].incident.status.Closed?)
  {
    var w := After(envs, requests);
    CaseAfter(envs, requests, q.id);
    StepCase(envs, w, q, q.id);
    CheckLeavesNothingOverdue(envs(q.id), DeskOf(w, q.id), q.now, q.later, q.processId);
  }

  /** In any history a human decision that comes too late leaves the whole world as a read would. */
  lemma LateDecisionIsARead(envs: nat -> Env, requests: seq<Request>, q: Request)
    requires Configured(envs) && q.Approve? && q.timeout == Clean && q.id in After(envs, requests).cases
    requires Overdue(envs(q.id), After(envs, requests).cases[q.id].incident, q.now)
    ensures Step(envs, After(envs, requests), q)
         == Step(envs, After(envs, requests), Read(q.id, q.now, Clean, q.later, q.processId))
  {
    var w := After(envs, requests);
    var read := Read(q.id, q.now, Clean, q.later, q.processId);
    CaseAfter(envs, requests, q.id);
    StepCase(envs, w, q, q.id);
    StepCase(envs, w, read, q.id);
    LateDecision(envs(q.id), DeskOf(w, q.id), q);
  }

  /**
  In any history a read runs a remediation only for an approval an earlier request left outstanding, however far its
  timeout got; one that comes back does so exactly when such a pause is overdue.
  */
  lemma TimeoutRunsExactlyWhen(envs: nat -> Env, requests: seq<Request>, q: Request)
    requires Configured(envs) && q.Read? && q.id in After(envs, requests).cases
    ensures var w := After(envs, requests);
      var ran := Step(envs, w, q).store.runs != w.store.runs;
      && (ran ==> ApprovalOutstanding(envs(q.id), DeskOf(w, q.id)))
      && (q.timeout == Clean ==>
            (ran <==> && Overdue(envs(q.id), w.cases[q.id].incident, q.now)
                      && ApprovalOutstanding(envs(q.id), DeskOf(w, q.id))))
  {
    var w := After(envs, requests);
    var env, k := envs(q.id), DeskOf(w, q.id);
    CaseAfter(envs, requests, q.id);
    StepCase(envs, w, q, q.id);
    if !ApprovalOutstanding(env, k) { TimeoutQuiet(env, k, q.now, q.timeout, q.later, q.processId); }
    TimeoutRuns(env, k, q.now, q.later, q.processId);
  }

  /**
  In any history a late approval runs a remediation only if the timeout's own resume failed before its denial was
  recorded, or an earlier approval was outstanding.
  */
  lemma LateApprovalRunsOnlyIf(envs: nat -> Env, requests: seq<Request>, q: Request)
    requires Configured(envs) && q.Approve? && q.id in After(envs, requests).cases
    requires Overdue(envs(q.id), After(envs, requests).cases[q.id].incident, q.now)
    ensures var w := After(envs, requests);
      Step(envs, w, q).store.runs != w.store.runs ==>
        q.timeout == Unstarted || ApprovalOutstanding(envs(q.id), DeskOf(w, q.id))
  {
    var w := After(envs, requests);
    CaseAfter(envs, requests, q.id);
    StepCase(envs, w, q, q.id);
    if q.timeout != Unstarted && !ApprovalOutstanding(envs(q.id), DeskOf(w, q.id)) {
      LateApproval(envs(q.id), DeskOf(w, q.id), q);
    }
  }
}
