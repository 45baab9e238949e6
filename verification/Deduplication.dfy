/**
What a finished thread's remediation result says: the handler's own result for the thread's plan, and `deduplicated`
exactly when an earlier attempt had stopped after committing its row.
*/
module Deduplication {
  import opened Wrappers
  import opened CanonicalJson
  import opened Remediation
  import opened Schemas
  import opened Idempotency
  import opened Nodes
  import opened Durable
  import opened CrashTransparency
  import opened Permission

  /** The planned call, handler's result included. */
  function PlanCall(deps: Deps, th: Thread): Option<Call> {
    if th.next in {AtEvaluate, AtDecide, AtEnd} && th.state.diagnosis.Some?
    then PlanFor(deps, th.state.diagnosis.value.action, th.answer) else None
  }

  lemma CallIsPlan(deps: Deps, th: Thread)
    ensures PlanCall(deps, th).Some? <==> Plan(deps, th).Some?
    ensures PlanCall(deps, th).Some? ==> Plan(deps, th) == Some(RunOf(deps, PlanCall(deps, th).value))
  {
  }

  /** Attempts that stopped between the row's commit and the checkpoint. */
  function Cut(deps: Deps, d: Durable, ev: Event): nat {
    if ev == Attempt(Stopped(AfterCommit)) && Happen(deps, d, ev).store.rows != d.store.rows then 1 else 0
  }

  function CutAlong(deps: Deps, d: Durable, events: seq<Event>): nat
    decreases |events|
  {
    if events == [] then 0 else Cut(deps, d, events[0]) + CutAlong(deps, Happen(deps, d, events[0]), events[1..])
  }

  /** The plan's row, once there, holds the handler's result. */
  ghost predicate RowHolds(deps: Deps, d: Durable) {
    Committed(deps, d) ==>
      d.store.rows[RunKey(Plan(deps, d.thread).value)].result == PlanCall(deps, d.thread).value.result
  }

  /** Up to `evaluate_policy` a cut and a committed row go together; past it, a cut and the flag. */
  ghost predicate Flagged(deps: Deps, d: Durable, cut: nat) {
    if d.thread.next in {AtDecide, AtEnd} && Plan(deps, d.thread).Some? then
      d.thread.state.remediation.Some? && (d.thread.state.remediation.value.deduplicated <==> cut > 0)
    else Committed(deps, d) <==> cut > 0
  }

  ghost predicate Told(deps: Deps, d: Durable, cut: nat) { RowHolds(deps, d) && Flagged(deps, d, cut) }

  /** Entering whole at a pending call: the flag says whether the row was there, and the row holds the result. */
  lemma ClaimTells(deps: Deps, d: Durable)
    requires PendingPlan(deps, d.thread).Some?
    ensures var call, d' := PendingPlan(deps, d.thread).value, Enter(deps, d, Whole);
      && d'.thread.next == AtDecide && d'.thread.state.remediation.Some?
      && (d'.thread.state.remediation.value.deduplicated <==> RunKey(RunOf(deps, call)) in d.store.rows)
      && d'.store == Claimed(d.store, RunOf(deps, call), call.result).store
  {
  }

  lemma SameCall(deps: Deps, d: Durable, fate: Fate)
    requires d.thread.next in {AtEvaluate, AtDecide, AtEnd}
    ensures PlanCall(deps, Enter(deps, d, fate).thread) == PlanCall(deps, d.thread)
  {
    EnterKeepsPlan(deps, d, fate);
  }

  lemma WholeTold(deps: Deps, d: Durable, n: nat, cut: nat)
    requires Told(deps, d, cut) && PendingPlan(deps, d.thread).Some?
    ensures Told(deps, Enter(deps, d, Whole), cut)
  {
    PendingIsPlan(deps, d.thread);
    ClaimTells(deps, d);
    SameCall(deps, d, Whole);
    CallIsPlan(deps, d.thread);
    CallIsPlan(deps, Enter(deps, d, Whole).thread);
    assert PlanCall(deps, d.thread) == PendingPlan(deps, d.thread);
  }

  lemma StoppedTold(deps: Deps, d: Durable, point: Point, cut: nat)
    requires Told(deps, d, cut)
    ensures Told(deps, Enter(deps, d, Stopped(point)), cut + Cut(deps, d, Attempt(Stopped(point))))
  {
    var d' := Enter(deps, d, Stopped(point));
    EnterRank(deps, d, Stopped(point));
    EnterRuns(deps, d, Stopped(point));
    PendingIsPlan(deps, d.thread);
    CallIsPlan(deps, d.thread);
    if d'.store != d.store {
      assert PlanCall(deps, d.thread) == PendingPlan(deps, d.thread);
      StoppedWhere(deps, d, point);
    }
  }

  /** A stop that did something left a lost run, or a committed row. */
  lemma StoppedWhere(deps: Deps, d: Durable, point: Point)
    requires Enter(deps, d, Stopped(point)).store != d.store
    ensures point == AfterExecutor || point == AfterCommit
  {
  }

  /** A finished node's remediation stays. */
  lemma RemediationStays(deps: Deps, d: Durable, fate: Fate)
    requires d.thread.next in {AtDecide, AtEnd}
    ensures var d' := Enter(deps, d, fate);
      d'.store == d.store && d'.thread.state.remediation == d.thread.state.remediation
      && d'.thread.next in {AtDecide, AtEnd}
  {
  }

  lemma AttemptTold(deps: Deps, d: Durable, fate: Fate, n: nat, cut: nat)
    requires Accounted(deps, d, n) && Undiagnosed(d.thread) && Told(deps, d, cut)
    ensures Told(deps, Enter(deps, d, fate), cut + Cut(deps, d, Attempt(fate)))
  {
    if fate.Stopped? {
      StoppedTold(deps, d, fate.point, cut);
    } else if PendingPlan(deps, d.thread).Some? {
      WholeTold(deps, d, n, cut);
    } else if d.thread.next in {AtDecide, AtEnd} {
      RemediationStays(deps, d, fate);
      SameCall(deps, d, fate);
      CallIsPlan(deps, d.thread);
      CallIsPlan(deps, Enter(deps, d, fate).thread);
    } else {
      NothingPending(deps, d, fate, n, cut);
    }
  }

  lemma NothingPending(deps: Deps, d: Durable, fate: Fate, n: nat, cut: nat)
    requires Accounted(deps, d, n) && Undiagnosed(d.thread) && Told(deps, d, cut)
    requires PendingPlan(deps, d.thread).None? && d.thread.next !in {AtDecide, AtEnd}
    ensures Told(deps, Enter(deps, d, fate), cut)
  {
    var d' := Enter(deps, d, fate);
    EnterRuns(deps, d, fate);
    CallIsPlan(deps, d.thread);
    CallIsPlan(deps, d'.thread);
    if d.thread.next == AtEvaluate {
      SameCall(deps, d, fate);
      if AtRest(d.thread) { assert d' == d; }
    } else {
      PlanNeedsEvaluate(deps, d, fate);
      FreshPlanFree(deps, d, d'.thread, n);
    }
  }

  /** A plan that appears finds its key free. */
  lemma FreshPlanFree(deps: Deps, d: Durable, th': Thread, n: nat)
    requires Accounted(deps, d, n) && Plan(deps, d.thread).None?
    ensures !Committed(deps, Durable(th', d.store))
  {
    var plan := Plan(deps, th');
    if plan.Some? {
      PlanIsJustified(deps, th', plan.value);
      KeyIsOwn(d.store.rows, plan.value);
    }
  }

  lemma KeyIsOwn(rows: Table, run: Execution)
    requires Keyed(rows) && Wf(run.params)
    ensures RunKey(run) in rows ==> Own(rows, run.threadId, RunKey(run))
  {
    if RunKey(run) in rows { OwnKey(rows, run); }
  }

  lemma RowElsewhere(deps: Deps, d: Durable, key: string, row: Row, runs: seq<Execution>, cut: nat)
    requires Told(deps, d, cut) && (Plan(deps, d.thread).Some? ==> key != RunKey(Plan(deps, d.thread).value))
    ensures Told(deps, Durable(d.thread, Store(d.store.rows[key := row], runs)), cut)
  {
  }

  lemma ForeignTold(deps: Deps, d: Durable, row: Row, cut: nat)
    requires Told(deps, d, cut) && Wf(row.params)
    ensures Told(deps, Happen(deps, d, Foreign(row)), cut)
  {
    var run := Execution(row.threadId, row.actionType, row.target, row.params);
    var d' := Happen(deps, d, Foreign(row));
    if d' != d {
      if Plan(deps, d.thread).Some? {
        PlanIsJustified(deps, d.thread, Plan(deps, d.thread).value);
        KeysApart(run, Plan(deps, d.thread).value);
      }
      RowElsewhere(deps, d, RunKey(run), row, d'.store.runs, cut);
    }
  }

  lemma HappenTold(deps: Deps, d: Durable, ev: Event, n: nat, cut: nat)
    requires Accounted(deps, d, n) && Undiagnosed(d.thread) && Told(deps, d, cut)
    requires ev.Foreign? ==> Wf(ev.row.params)
    ensures Told(deps, Happen(deps, d, ev), cut + Cut(deps, d, ev))
  {
    match ev
    case Attempt(fate) => AttemptTold(deps, d, fate, n, cut);
    case Foreign(row) => ForeignTold(deps, d, row, cut);
    case Resume(decision) =>
      if AwaitsAnswer(d.thread) {
        NoPlanBefore(deps, d.thread);
        FreshPlanFree(deps, d, Answer(d.thread, decision), n);
      }
  }

  lemma {:induction false} SchedTold(deps: Deps, d: Durable, events: seq<Event>, n: nat, cut: nat)
    requires Accounted(deps, d, n) && Undiagnosed(d.thread) && Told(deps, d, cut) && ForeignWf(events)
    ensures Told(deps, Sched(deps, d, events), cut + CutAlong(deps, d, events))
    decreases |events|
  {
    if events != [] {
      HappenTold(deps, d, events[0], n, cut);
      HappenAccounted(deps, d, events[0], n);
      HappenUndiagnosed(deps, d, events[0]);
      var d', cut' := Happen(deps, d, events[0]), cut + Cut(deps, d, events[0]);
      SchedTold(deps, d', events[1..], n + Lost(deps, d, events[0]), cut');
      assert cut + CutAlong(deps, d, events) == cut' + CutAlong(deps, d', events[1..]);
    }
  }

  /**
  On every schedule: a recorded remediation is the handler's result for the plan, and it is flagged deduplicated
  exactly when some earlier attempt had committed the row and stopped before its checkpoint.
  */
  lemma FlagTellsOfACut(deps: Deps, store: Store, events: seq<Event>)
    requires Keyed(store.rows) && Untouched(store, deps.threadId) && ForeignWf(events)
    ensures var th := Sched(deps, Durable(START, store), events).thread;
      th.next in {AtDecide, AtEnd} && Plan(deps, th).Some? ==>
        && th.state.remediation.Some?
        && th.state.remediation.value.result == PlanCall(deps, th).value.result
        && (th.state.remediation.value.deduplicated <==> CutAlong(deps, Durable(START, store), events) > 0)
  {
    StartAccounted(deps, store);
    SchedTold(deps, Durable(START, store), events, 0, 0);
    SchedAccounted(deps, Durable(START, store), events, 0);
  }
}
