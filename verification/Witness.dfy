/** One history: the model calls a tool that does not exist by an approval row's name, and asks for a rollback. */
module Witness {
  import opened Wrappers
  import opened CanonicalJson
  import opened Policy
  import opened Remediation
  import opened ChatClient
  import opened Schemas
  import opened Idempotency
  import opened Nodes
  import opened Durable
  import opened Incidents
  import opened World
  import opened Lifecycle
  import opened Guarantees
  import opened SlaSafety

  const ROLLBACK: Diagnosis := Submission("bad deployment", ["error rate"], 0.9, RollbackDeployment)

  const FORGED := ToolUseBlock("1", REQUESTED, JObj([]))
  const SUBMITTED := ToolUseBlock("2", SUBMIT, JObj([]))
  const CALLS := [FORGED, SUBMITTED]

  function Dependencies(id: nat): Deps {
    Deps(ThreadId(id), "checkout", 8, 1.0, "claude-sonnet-5", 2, (_, _) => Answered(Response(CALLS, 0, 0)),
         _ => Ok(ROLLBACK), _ => JNull, (_, _) => UnknownTool("Unknown tool."), (_, _) => [], _ => None)
  }

  function Environment(id: nat): Env { Env(Dependencies(id), 1, id, 0.5, 900) }

  const ENVIRONMENTS: nat -> Env := (id: nat) => Environment(id)

  lemma WitnessConfigured()
    ensures Configured(ENVIRONMENTS)
  {
  }

  const PARAMS := JObj([Field("target_version", JStr("v1"))])

  /** The reply is always the same turn; the run pauses for approval. */
  const STARTED := [Create(0), Run(0, 0, Clean, 0, "p")]
  const CRASHED := Request.Approve(0, true, "on-call", PARAMS, 10, Clean, true, Died(0, BeforeExecutor), 10, "p")
  const LATE_READ := Read(0, 900, Clean, 900, "q")

  /** The one turn: the unknown tool's record, then the valid submission's. */
  lemma OneTurn(deps: Deps)
    requires deps == Dependencies(0)
    ensures Gather(deps, INITIAL_STATE).Wrote?
    ensures var s := Merge(INITIAL_STATE, Gather(deps, INITIAL_STATE).update);
      && s.diagnosis == Some(ROLLBACK) && s.providerError.None?
      && |s.evidence| == 2 && s.evidence[0].toolName == REQUESTED
  {
    assert SettlesAt(Replies(deps, INITIAL_STATE.messages), 0, deps.maxRetries) == 0;
    assert ModelReply(deps, INITIAL_STATE.messages) == Answered(Response(CALLS, 0, 0));
    assert CALLS[..1] == [FORGED] && [FORGED][..0] == [];
    assert ToolUses([FORGED]) == [FORGED];
    assert ToolUses(CALLS) == [FORGED] + [SUBMITTED] == CALLS;
    assert RunBlocks(deps, 1, [FORGED]) == RunBlock(deps, 1, FORGED, EMPTY_ROUND);
    assert RunBlocks(deps, 1, CALLS) == RunBlock(deps, 1, SUBMITTED, RunBlocks(deps, 1, [FORGED]));
    assert |SUBMIT| == 16 && |REQUESTED| == 18;
  }

  lemma OneStep(deps: Deps, d: Durable)
    requires !AtRest(d.thread) && !Stuck(deps, d.thread)
    ensures Rest(deps, d) == Rest(deps, Enter(deps, d, Whole))
  {
  }

  /** A diagnosis that needs approval goes straight to the pause. */
  lemma ToThePause(deps: Deps, d: Durable)
    requires d.thread.next == AtHypothesize && d.thread.state.diagnosis == Some(ROLLBACK) && d.thread.answer.None?
    ensures var r := Rest(deps, d);
      AwaitsAnswer(r.thread) && r.store == d.store && r.thread.state.diagnosis == Some(ROLLBACK)
      && r.thread.state.evidence == d.thread.state.evidence
  {
    var d2 := Enter(deps, d, Whole);
    var d3 := Enter(deps, d2, Whole);
    OneStep(deps, d);
    OneStep(deps, d2);
    assert AwaitsAnswer(d3.thread);
  }

  lemma FirstNode(deps: Deps, store: Store, g: Gathered)
    requires g == Gather(deps, INITIAL_STATE) && g.Wrote?
    requires var s := Merge(INITIAL_STATE, g.update); s.diagnosis == Some(ROLLBACK) && s.providerError.None?
    ensures !Stuck(deps, START)
    ensures Enter(deps, Durable(START, store), Whole)
         == Durable(Thread(AtHypothesize, Merge(INITIAL_STATE, g.update), None), store)
  {
  }

  /** The run stops at its interrupt, with nothing executed and a forged name in its evidence trail. */
  ghost predicate Pauses(deps: Deps) {
    var d := Rest(deps, Durable(START, NO_STORE));
    AwaitsAnswer(d.thread) && d.store == NO_STORE && d.thread.state.diagnosis == Some(ROLLBACK)
    && |d.thread.state.evidence| == 2 && d.thread.state.evidence[0].toolName == REQUESTED
  }

  lemma RunPauses(deps: Deps)
    requires Gather(deps, INITIAL_STATE).Wrote?
    requires var s := Merge(INITIAL_STATE, Gather(deps, INITIAL_STATE).update);
      && s.diagnosis == Some(ROLLBACK) && s.providerError.None?
      && |s.evidence| == 2 && s.evidence[0].toolName == REQUESTED
    ensures Pauses(deps)
  {
    FirstNode(deps, NO_STORE, Gather(deps, INITIAL_STATE));
    OneStep(deps, Durable(START, NO_STORE));
    ToThePause(deps, Enter(deps, Durable(START, NO_STORE), Whole));
  }

  lemma ConcretePauses(deps: Deps)
    requires deps == Dependencies(0)
    ensures Pauses(deps)
  {
    OneTurn(deps);
    RunPauses(deps);
  }

  /** Created and run on an empty store: awaiting approval since time 0, the audit log naming the forged row. */
  lemma StartedDesk(env: Env, k: Desk)
    requires Pauses(env.deps) && k == Ran(env, Desk(OPENED, START, NO_STORE, EMPTY.table), 0, Clean, 0, "p")
    ensures k.incident.status == AwaitingApproval && k.incident.awaitingSince == Some(0) && k.store == NO_STORE
    ensures AwaitsAnswer(k.thread) && k.thread.state.diagnosis == Some(ROLLBACK)
    ensures |k.thread.state.evidence| == 2 && k.thread.state.evidence[0].toolName == REQUESTED
    ensures k.incident.pendingApproval == Some(PendingOf(env.deps, ROLLBACK))
  {
  }

  lemma StartedWorld(envs: nat -> Env)
    requires Configured(envs) && Pauses(envs(0).deps)
    ensures var w := After(envs, STARTED);
      && 0 in w.cases
      && DeskOf(w, 0) == Ran(envs(0), Desk(OPENED, START, NO_STORE, EMPTY.table), 0, Clean, 0, "p")
  {
    assert STARTED[1..] == [Run(0, 0, Clean, 0, "p")] && STARTED[1..][1..] == [];
    var w1 := Step(envs, EMPTY, STARTED[0]);
    assert w1.cases == map[0 := Case(OPENED, START)];
    var q := STARTED[1];
    assert Step(envs, w1, q) == PutBack(w1, 0, Served(envs(0), DeskOf(w1, 0), q));
    assert After(envs, STARTED) == Serve(envs, w1, [q]) == Step(envs, w1, q);
  }

  lemma ServeTwo(envs: nat -> Env, w: World, q1: Request, q2: Request)
    requires Touches(q1, 0) && Touches(q2, 0) && 0 in w.cases
    ensures var k1 := Served(envs(0), DeskOf(w, 0), q1);
      var w' := Serve(envs, w, [q1, q2]);
      0 in w'.cases && DeskOf(w', 0) == Served(envs(0), k1, q2)
  {
    assert [q1, q2][1..] == [q2] && [q2][1..] == [];
    StepCase(envs, w, q1, 0);
    var w1 := Step(envs, w, q1);
    StepCase(envs, w1, q2, 0);
    assert Serve(envs, w, [q1, q2]) == Serve(envs, w1, [q2]) == Step(envs, w1, q2);
  }

  /** Nothing ran when the approving request died; the overdue read afterwards ran the remediation. */
  ghost predicate TimeoutExecutes(envs: nat -> Env) {
    && After(envs, STARTED).store == NO_STORE
    && |After(envs, STARTED + [CRASHED, LATE_READ]).store.runs| > 0
    && LATE_READ.now - 0 >= envs(0).slaSeconds
  }

  lemma CarriedOutFrom(env: Env, k: Desk)
    requires DeskOk(env, k) && k.incident.status == AwaitingApproval && k.incident.awaitingSince == Some(0)
    requires AwaitsAnswer(k.thread) && k.thread.state.diagnosis == Some(ROLLBACK) && env.slaSeconds == 900
    ensures |Served(env, Served(env, k, CRASHED), LATE_READ).store.runs| > |k.store.runs|
  {
    assert Get(PARAMS, "target_version") == Some(JStr("v1"));
    assert ParamsAccepted(env, k.incident, Decision(true, "on-call", PARAMS, false));
    CrashedApprovalIsCarriedOut(env, k, CRASHED, LATE_READ);
  }

  lemma TimeoutExecutesFrom(envs: nat -> Env)
    requires Configured(envs) && Pauses(envs(0).deps) && envs(0).slaSeconds == 900
    ensures TimeoutExecutes(envs)
  {
    var w := After(envs, STARTED);
    var k := DeskOf(w, 0);
    StartedWorld(envs);
    StartedDesk(envs(0), k);
    CaseAfter(envs, STARTED, 0);
    CarriedOutFrom(envs(0), k);
    ServeConcat(envs, EMPTY, STARTED, [CRASHED, LATE_READ]);
    ServeTwo(envs, w, CRASHED, LATE_READ);
  }

  /** The audit log of the run cannot be told from approval rows by tool name. */
  ghost predicate NameMisleads(envs: nat -> Env) {
    var w := After(envs, STARTED);
    && 0 in w.cases
    && var audit := w.cases[0].incident.audit; |audit| >= 2 && NonApproval(audit) != audit[..2]
  }

  lemma NameMisleadsFrom(envs: nat -> Env)
    requires Configured(envs) && Pauses(envs(0).deps)
    ensures NameMisleads(envs)
  {
    var k := DeskOf(After(envs, STARTED), 0);
    StartedWorld(envs);
    StartedDesk(envs(0), k);
    EvidenceByName(envs, STARTED, 0);
    assert Reserved(k.thread.state.evidence[0].toolName);
  }

  /** Both happen in one concrete configuration. */
  lemma ConcreteHistory()
    ensures Configured(ENVIRONMENTS) && TimeoutExecutes(ENVIRONMENTS) && NameMisleads(ENVIRONMENTS)
  {
    WitnessConfigured();
    var envs := ENVIRONMENTS;
    assert envs(0) == Environment(0);
    ConcretePauses(envs(0).deps);
    TimeoutExecutesFrom(envs);
    NameMisleadsFrom(envs);
  }
}
