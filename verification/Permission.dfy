/**
What a thread may run, and how often, over every schedule of attempts, crash points and answers.

Every run carries a thread's own plan: the one call that its checkpointed diagnosis and its recorded answer ask
for.  The executor runs before its row is committed, so each attempt that stops in between costs one extra run.
*/
module Permission {
  import opened Wrappers
  import opened CanonicalJson
  import opened Policy
  import opened Remediation
  import opened Idempotency
  import opened Nodes
  import opened Durable
  import opened Investigation
  import opened CrashTransparency
  import GuardSchedules

  /** The one run a thread past `classify_risk` may make. */
  function Plan(deps: Deps, th: Thread): Option<Execution> {
    if th.next in {AtEvaluate, AtDecide, AtEnd} && th.state.diagnosis.Some? then
      (match PlanFor(deps, th.state.diagnosis.value.action, th.answer)
       case None => None
       case Some(call) => Some(RunOf(deps, call)))
    else None
  }

  /** The checkpoint names the action of the run, and policy permits it on the recorded answer. */
  ghost predicate Justified(deps: Deps, th: Thread, run: Execution) {
    && run.threadId == deps.threadId && run.target == deps.service
    && th.next in {AtEvaluate, AtDecide, AtEnd} && th.state.diagnosis.Some?
    && var a := th.state.diagnosis.value.action;
    && run.actionType == ActionName(a) && Executable(a) && Permitted(a, th.answer, deps.boolOf, run.params)
  }

  lemma PlanIsJustified(deps: Deps, th: Thread, run: Execution)
    requires Plan(deps, th) == Some(run)
    ensures Justified(deps, th, run) && Wf(run.params)
  {
    PlannedCallIsPermitted(deps.service, th.state.diagnosis.value.action, th.answer, deps.boolOf);
  }

  predicate Committed(deps: Deps, d: Durable) {
    Plan(deps, d.thread).Some? && RunKey(Plan(deps, d.thread).value) in d.store.rows
  }

  ghost predicate RunsPlanned(runs: seq<Execution>, threadId: string, plan: Option<Execution>) {
    forall i :: 0 <= i < |runs| && runs[i].threadId == threadId ==> plan == Some(runs[i])
  }

  ghost predicate RowsPlanned(rows: Table, threadId: string, plan: Option<Execution>) {
    forall k :: Own(rows, threadId, k) ==> plan.Some? && k == RunKey(plan.value)
  }

  /** Past `evaluate_policy` the plan's row is there, with the result the checkpoint recorded. */
  ghost predicate ResultKept(deps: Deps, d: Durable) {
    Plan(deps, d.thread).Some? && d.thread.next in {AtDecide, AtEnd} ==>
      var key := RunKey(Plan(deps, d.thread).value);
      key in d.store.rows && d.thread.state.remediation.Some?
      && d.store.rows[key].result == d.thread.state.remediation.value.result
  }

  /** Own runs and own rows are the plan's. */
  ghost predicate OnlyPlanned(deps: Deps, d: Durable) {
    && RunsPlanned(d.store.runs, deps.threadId, Plan(deps, d.thread))
    && RowsPlanned(d.store.rows, deps.threadId, Plan(deps, d.thread))
    && ResultKept(deps, d)
  }

  function OwnRuns(runs: seq<Execution>, threadId: string): nat {
    if runs == [] then 0
    else OwnRuns(runs[..|runs| - 1], threadId) + if runs[|runs| - 1].threadId == threadId then 1 else 0
  }

  lemma OwnRunsAppend(runs: seq<Execution>, run: Execution, threadId: string)
    ensures OwnRuns(runs + [run], threadId) == OwnRuns(runs, threadId) + if run.threadId == threadId then 1 else 0
  {
    assert (runs + [run])[..|runs|] == runs;
  }

  /** Runs whose row never came: attempts that stopped between the executor and the commit. */
  function Lost(deps: Deps, d: Durable, ev: Event): nat {
    if ev == Attempt(Stopped(AfterExecutor)) && Happen(deps, d, ev).store.runs != d.store.runs then 1 else 0
  }

  function LostAlong(deps: Deps, d: Durable, events: seq<Event>): nat
    decreases |events|
  {
    if events == [] then 0 else Lost(deps, d, events[0]) + LostAlong(deps, Happen(deps, d, events[0]), events[1..])
  }

  ghost predicate Counted(deps: Deps, d: Durable, lost: nat) {
    OwnRuns(d.store.runs, deps.threadId) == lost + if Committed(deps, d) then 1 else 0
  }

  /** One executor run, its row committed or lost. */
  function Made(s: Store, run: Execution, result: Json, lost: bool): Store {
    Store(if lost then s.rows else s.rows[RunKey(run) := RowOf(run, result)], s.runs + [run])
  }

  /** What one entry does to the store: nothing, or a run of the pending call whose key is still free. */
  lemma EnterRuns(deps: Deps, d: Durable, fate: Fate)
    ensures var d', call := Enter(deps, d, fate), PendingPlan(deps, d.thread);
      || d'.store == d.store
      || (call.Some? && RunKey(RunOf(deps, call.value)) !in d.store.rows
          && d'.store == Made(d.store, RunOf(deps, call.value), call.value.result, fate == Stopped(AfterExecutor)))
  {
    if fate == Whole {
      EnterStore(deps, d);
    } else if !AtRest(d.thread) {
      StoppedStore(deps, d, fate.point);
    }
  }

  lemma StoppedStore(deps: Deps, d: Durable, point: Point)
    ensures !AtRest(d.thread) ==> Enter(deps, d, Stopped(point)) == Durable(d.thread, StoreWhenStopped(deps, d, point))
    ensures var s', call := StoreWhenStopped(deps, d, point), PendingPlan(deps, d.thread);
      !AtRest(d.thread) && s' != d.store ==>
        (call.Some? && RunKey(RunOf(deps, call.value)) !in d.store.rows
         && s' == Made(d.store, RunOf(deps, call.value), call.value.result, point == AfterExecutor))
  {
  }

  /** Stopping at a point inside the node is crashing at that step of the guard's attempt. */
  lemma StopIsGuardCrash(deps: Deps, d: Durable, point: Point, s: GuardSchedules.State)
    requires !AtRest(d.thread) && PendingPlan(deps, d.thread).Some? && s.store == d.store
    ensures var call := PendingPlan(deps, d.thread).value;
      var attempt := GuardSchedules.CutShort(|s.attempts|, RunOf(deps, call), call.result,
                                             point == AfterExecutor, point == AfterCommit);
      Enter(deps, d, Stopped(point)).store == GuardSchedules.Exec(s, attempt).store
  {
    var call := PendingPlan(deps, d.thread).value;
    GuardSchedules.CutShortLeaves(s, RunOf(deps, call), call.result, point == AfterExecutor, point == AfterCommit);
  }

  lemma PendingIsPlan(deps: Deps, th: Thread)
    ensures var call := PendingPlan(deps, th);
      call.Some? ==> th.next == AtEvaluate && Plan(deps, th) == Some(RunOf(deps, call.value))
  {
  }

  /** Past `classify_risk` the plan is fixed but for the answer. */
  lemma EnterKeepsPlan(deps: Deps, d: Durable, fate: Fate)
    ensures d.thread.next in {AtEvaluate, AtDecide, AtEnd} ==>
      (Enter(deps, d, fate).thread.next in {AtEvaluate, AtDecide, AtEnd}
       && Enter(deps, d, fate).thread.state.diagnosis == d.thread.state.diagnosis
       && Enter(deps, d, fate).thread.answer == d.thread.answer)
  {
  }

  lemma NoPlanBefore(deps: Deps, th: Thread)
    requires th.next !in {AtEvaluate, AtDecide, AtEnd} || AwaitsAnswer(th)
    ensures Plan(deps, th).None?
  {
    if AwaitsAnswer(th) {
      PlannedCallIsPermitted(deps.service, th.state.diagnosis.value.action, th.answer, deps.boolOf);
    }
  }

  lemma MadePlanned(s: Store, run: Execution, result: Json, lost: bool)
    requires RunsPlanned(s.runs, run.threadId, Some(run)) && RowsPlanned(s.rows, run.threadId, Some(run))
    ensures var s' := Made(s, run, result, lost);
      RunsPlanned(s'.runs, run.threadId, Some(run)) && RowsPlanned(s'.rows, run.threadId, Some(run))
  {
    var s' := Made(s, run, result, lost);
    forall k | Own(s'.rows, run.threadId, k) ensures k == RunKey(run) {
      assert k == RunKey(run) || Own(s.rows, run.threadId, k);
    }
  }

  lemma MadeCounted(deps: Deps, d: Durable, run: Execution, result: Json, lost: bool, n: nat)
    requires Counted(deps, d, n) && Plan(deps, d.thread) == Some(run) && RunKey(run) !in d.store.rows
    ensures Counted(deps, Durable(d.thread, Made(d.store, run, result, lost)), n + if lost then 1 else 0)
  {
    PlanIsJustified(deps, d.thread, run);
    OwnRunsAppend(d.store.runs, run, deps.threadId);
  }

  /** Entering whole past the claim records its result. */
  lemma EvaluateRecords(deps: Deps, d: Durable)
    requires d.thread.next == AtEvaluate && !AtRest(d.thread) && PendingPlan(deps, d.thread).Some?
    ensures var d', key := Enter(deps, d, Whole), RunKey(RunOf(deps, PendingPlan(deps, d.thread).value));
      key in d'.store.rows && d'.thread.state.remediation.Some?
      && d'.store.rows[key].result == d'.thread.state.remediation.value.result
  {
  }

  // ------------------------------------------------------------ every schedule

  ghost predicate Accounted(deps: Deps, d: Durable, lost: nat) {
    Keyed(d.store.rows) && OnlyPlanned(deps, d) && Counted(deps, d, lost)
  }

  lemma MadeAccounted(deps: Deps, d: Durable, d': Durable, run: Execution, result: Json, lost: bool, n: nat)
    requires Accounted(deps, d, n) && Plan(deps, d.thread) == Some(run) && RunKey(run) !in d.store.rows
    requires d'.store == Made(d.store, run, result, lost) && Plan(deps, d'.thread) == Some(run) && ResultKept(deps, d')
    ensures Accounted(deps, d', n + if lost then 1 else 0)
  {
    PlanIsJustified(deps, d.thread, run);
    MadePlanned(d.store, run, result, lost);
    MadeCounted(deps, d, run, result, lost, n);
    CommitKeyed(d.store.rows, run, result);
  }

  lemma EnterKeepsResult(deps: Deps, d: Durable, fate: Fate)
    requires PendingPlan(deps, d.thread).Some?
    ensures Plan(deps, Enter(deps, d, fate).thread) == Plan(deps, d.thread)
    ensures ResultKept(deps, Enter(deps, d, fate))
  {
    EnterKeepsPlan(deps, d, fate);
    PendingIsPlan(deps, d.thread);
    if fate == Whole {
      EvaluateRecords(deps, d);
    } else {
      EnterRank(deps, d, fate);
    }
  }

  lemma AttemptAccounted(deps: Deps, d: Durable, fate: Fate, n: nat)
    requires Accounted(deps, d, n) && Undiagnosed(d.thread)
    ensures Accounted(deps, Enter(deps, d, fate), n + Lost(deps, d, Attempt(fate)))
  {
    var d', call := Enter(deps, d, fate), PendingPlan(deps, d.thread);
    EnterRuns(deps, d, fate);
    if d'.store == d.store {
      EnterAccountedSame(deps, d, fate, n);
    } else {
      PendingIsPlan(deps, d.thread);
      EnterKeepsResult(deps, d, fate);
      MadeAccounted(deps, d, d', RunOf(deps, call.value), call.value.result, fate == Stopped(AfterExecutor), n);
    }
  }

  /** The only way to a plan is through `evaluate_policy`. */
  lemma PlanNeedsEvaluate(deps: Deps, d: Durable, fate: Fate)
    requires Undiagnosed(d.thread) && d.thread.next !in {AtEvaluate, AtDecide, AtEnd}
    ensures var th' := Enter(deps, d, fate).thread; th'.next in {AtDecide, AtEnd} ==> Plan(deps, th').None?
  {
  }

  lemma SamePlanAccounted(deps: Deps, d: Durable, d': Durable, n: nat)
    requires Accounted(deps, d, n) && d'.store == d.store && Plan(deps, d'.thread) == Plan(deps, d.thread)
    requires ResultKept(deps, d')
    ensures Accounted(deps, d', n)
  {
  }

  /** A finished node's record stays. */
  lemma ResultStaysKept(deps: Deps, d: Durable, fate: Fate)
    requires ResultKept(deps, d) && d.thread.next in {AtDecide, AtEnd}
    ensures ResultKept(deps, Enter(deps, d, fate))
  {
  }

  lemma EnterAccountedSame(deps: Deps, d: Durable, fate: Fate, n: nat)
    requires Accounted(deps, d, n) && Undiagnosed(d.thread) && Enter(deps, d, fate).store == d.store
    ensures Accounted(deps, Enter(deps, d, fate), n)
  {
    var d' := Enter(deps, d, fate);
    if d.thread.next in {AtEvaluate, AtDecide, AtEnd} {
      EnterKeepsPlan(deps, d, fate);
      if d.thread.next in {AtDecide, AtEnd} {
        ResultStaysKept(deps, d, fate);
      } else if PendingPlan(deps, d.thread).Some? {
        EnterKeepsResult(deps, d, fate);
      }
      SamePlanAccounted(deps, d, d', n);
    } else {
      PlanNeedsEvaluate(deps, d, fate);
      PlanAppears(deps, d, d'.thread, n);
    }
  }

  /** Where no plan was, there is no own row, so a new plan's key is free. */
  lemma PlanAppears(deps: Deps, d: Durable, th': Thread, n: nat)
    requires Accounted(deps, d, n) && Plan(deps, d.thread).None?
    requires th'.next in {AtDecide, AtEnd} ==> Plan(deps, th').None?
    ensures Accounted(deps, Durable(th', d.store), n)
  {
    var plan := Plan(deps, th');
    if plan.Some? {
      PlanIsJustified(deps, th', plan.value);
      if RunKey(plan.value) in d.store.rows {
        OwnKey(d.store.rows, plan.value);
        assert Own(d.store.rows, deps.threadId, RunKey(plan.value));
      }
    }
  }

  lemma ForeignPlanned(s: Store, run: Execution, result: Json, lost: bool, threadId: string, plan: Option<Execution>)
    requires RunsPlanned(s.runs, threadId, plan) && RowsPlanned(s.rows, threadId, plan)
    requires run.threadId != threadId && RunKey(run) !in s.rows
    ensures var s' := Made(s, run, result, lost);
      RunsPlanned(s'.runs, threadId, plan) && RowsPlanned(s'.rows, threadId, plan)
      && OwnRuns(s'.runs, threadId) == OwnRuns(s.runs, threadId)
  {
    OwnRunsAppend(s.runs, run, threadId);
    var s' := Made(s, run, result, lost);
    forall k | Own(s'.rows, threadId, k) ensures plan.Some? && k == RunKey(plan.value) {
      assert Own(s.rows, threadId, k);
    }
  }

  /** Another thread's key is never this thread's. */
  lemma KeysApart(run: Execution, other: Execution)
    requires Wf(run.params) && Wf(other.params) && run.threadId != other.threadId
    ensures RunKey(run) != RunKey(other)
  {
    KeyInjective(run.threadId, run.actionType, run.target, run.params,
                 other.threadId, other.actionType, other.target, other.params);
  }

  /** A run of another thread, committed or lost, leaves a thread's account as it was. */
  lemma MadeByAnother(deps: Deps, d: Durable, run: Execution, result: Json, lost: bool, n: nat)
    requires Accounted(deps, d, n) && Wf(run.params) && run.threadId != deps.threadId && RunKey(run) !in d.store.rows
    ensures Accounted(deps, Durable(d.thread, Made(d.store, run, result, lost)), n)
  {
    CommitKeyed(d.store.rows, run, result);
    ForeignPlanned(d.store, run, result, lost, deps.threadId, Plan(deps, d.thread));
    if Plan(deps, d.thread).Some? {
      PlanIsJustified(deps, d.thread, Plan(deps, d.thread).value);
      KeysApart(run, Plan(deps, d.thread).value);
    }
  }

  lemma ForeignAccounted(deps: Deps, d: Durable, row: Row, n: nat)
    requires Accounted(deps, d, n) && Wf(row.params)
    ensures Accounted(deps, Happen(deps, d, Foreign(row)), n)
  {
    var run := Execution(row.threadId, row.actionType, row.target, row.params);
    if row.threadId != deps.threadId && RunKey(run) !in d.store.rows {
      MadeByAnother(deps, d, run, row.result, false, n);
    }
  }

  ghost predicate Undiagnosed(th: Thread) {
    th.next == AtGather ==> th.state.diagnosis.None? && th.state.providerError.None?
  }

  lemma HappenUndiagnosed(deps: Deps, d: Durable, ev: Event)
    requires Undiagnosed(d.thread)
    ensures Undiagnosed(Happen(deps, d, ev).thread)
  {
  }

  lemma HappenAccounted(deps: Deps, d: Durable, ev: Event, n: nat)
    requires Accounted(deps, d, n) && Undiagnosed(d.thread) && (ev.Foreign? ==> Wf(ev.row.params))
    ensures Accounted(deps, Happen(deps, d, ev), n + Lost(deps, d, ev))
  {
    match ev
    case Attempt(fate) => AttemptAccounted(deps, d, fate, n);
    case Foreign(row) => ForeignAccounted(deps, d, row, n);
    case Resume(decision) =>
      if AwaitsAnswer(d.thread) {
        NoPlanBefore(deps, d.thread);
        PlanAppears(deps, d, Answer(d.thread, decision), n);
      }
  }

  lemma {:induction false} SchedAccounted(deps: Deps, d: Durable, events: seq<Event>, n: nat)
    requires Accounted(deps, d, n) && Undiagnosed(d.thread) && ForeignWf(events)
    ensures Accounted(deps, Sched(deps, d, events), n + LostAlong(deps, d, events))
    decreases |events|
  {
    if events != [] {
      HappenAccounted(deps, d, events[0], n);
      HappenUndiagnosed(deps, d, events[0]);
      var d', n' := Happen(deps, d, events[0]), n + Lost(deps, d, events[0]);
      SchedAccounted(deps, d', events[1..], n');
      assert n + LostAlong(deps, d, events) == n' + LostAlong(deps, d', events[1..]);
    }
  }

  ghost predicate Untouched(store: Store, threadId: string) {
    && (forall i :: 0 <= i < |store.runs| ==> store.runs[i].threadId != threadId)
    && (forall k :: !Own(store.rows, threadId, k))
  }

  lemma {:induction false} NoOwnRuns(runs: seq<Execution>, threadId: string)
    requires forall i :: 0 <= i < |runs| ==> runs[i].threadId != threadId
    ensures OwnRuns(runs, threadId) == 0
  {
    if runs != [] {
      NoOwnRuns(runs[..|runs| - 1], threadId);
    }
  }

  lemma StartAccounted(deps: Deps, store: Store)
    requires Keyed(store.rows) && Untouched(store, deps.threadId)
    ensures Accounted(deps, Durable(START, store), 0)
  {
    NoOwnRuns(store.runs, deps.threadId);
  }

  /** Whatever the schedule, every run ever made for a thread is justified by the thread's own checkpoint. */
  lemma OnlyPermittedRuns(deps: Deps, store: Store, events: seq<Event>, i: nat)
    requires Keyed(store.rows) && Untouched(store, deps.threadId) && ForeignWf(events)
    requires var d := Sched(deps, Durable(START, store), events);
      i < |d.store.runs| && d.store.runs[i].threadId == deps.threadId
    ensures var d := Sched(deps, Durable(START, store), events); Justified(deps, d.thread, d.store.runs[i])
  {
    StartAccounted(deps, store);
    SchedAccounted(deps, Durable(START, store), events, 0);
    var d := Sched(deps, Durable(START, store), events);
    PlanIsJustified(deps, d.thread, d.store.runs[i]);
  }

  /**
  A thread's remediation runs once, plus once for each attempt lost between executor and commit; a finished
  thread records a remediation exactly when its row is committed, with the row's result.
  */
  lemma ExecutionsExact(deps: Deps, store: Store, events: seq<Event>)
    requires Keyed(store.rows) && Untouched(store, deps.threadId) && ForeignWf(events)
    ensures var d := Sched(deps, Durable(START, store), events);
      var lost := LostAlong(deps, Durable(START, store), events);
      && OwnRuns(d.store.runs, deps.threadId) == lost + (if Committed(deps, d) then 1 else 0)
      && (forall k :: Own(d.store.rows, deps.threadId, k) ==>
            Committed(deps, d) && k == RunKey(Plan(deps, d.thread).value))
      && (d.thread.next == AtEnd ==>
            (d.thread.state.remediation.Some? <==> Committed(deps, d))
            && (Committed(deps, d) ==> d.store.rows[RunKey(Plan(deps, d.thread).value)].result
                                       == d.thread.state.remediation.value.result))
  {
    StartAccounted(deps, store);
    AlwaysSound(deps, store, events);
    SchedAccounted(deps, Durable(START, store), events, 0);
    var d := Sched(deps, Durable(START, store), events);
    if d.thread.next == AtEnd && d.thread.state.diagnosis.None? {
      assert GaveUp(deps, d.thread);
    }
  }
}
