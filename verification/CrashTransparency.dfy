/**
A crash is invisible in what a run leaves behind.

Whatever the schedule of attempts, crash points, answers and other threads' commits, a run that completes ends
with the state and the rows of the undisturbed run given the same answer, but for the `deduplicated` flag.  The
argument needs distinct threads never to share a key, which is `Idempotency.KeyInjective`.
*/
module CrashTransparency {
  import opened Wrappers
  import opened CanonicalJson
  import opened Policy
  import opened Remediation
  import opened Schemas
  import opened Idempotency
  import opened Nodes
  import opened Durable
  import opened Investigation

  function EraseFlag(th: Thread): Thread {
    match th.state.remediation
    case None => th
    case Some(r) => th.(state := th.state.(remediation := Some(r.(deduplicated := false))))
  }

  predicate Own(rows: Table, threadId: string, key: string) { key in rows && rows[key].threadId == threadId }

  /** The two tables hold the same rows of one thread. */
  ghost predicate SameOwn(r1: Table, r2: Table, threadId: string) {
    forall k :: Own(r1, threadId, k) || Own(r2, threadId, k) ==> k in r1 && k in r2 && r1[k] == r2[k]
  }

  /** Each row sits under its own key. */
  ghost predicate Keyed(rows: Table) {
    forall k :: k in rows ==> KeyedRow(rows[k], k)
  }

  ghost predicate KeyedRow(row: Row, key: string) {
    Wf(row.params) && key == KeyOf(row.threadId, row.actionType, row.target, row.params)
  }

  /** Same thread but for the flag, same rows of its own. */
  ghost predicate Alike(deps: Deps, d1: Durable, d2: Durable) {
    && Keyed(d1.store.rows) && Keyed(d2.store.rows)
    && EraseFlag(d1.thread) == EraseFlag(d2.thread)
    && SameOwn(d1.store.rows, d2.store.rows, deps.threadId)
  }

  /** A thread's own key is taken only by a row of its own. */
  lemma OwnKey(rows: Table, run: Execution)
    requires Keyed(rows) && Wf(run.params) && RunKey(run) in rows
    ensures rows[RunKey(run)].threadId == run.threadId
  {
    var r := rows[RunKey(run)];
    KeyInjective(r.threadId, r.actionType, r.target, r.params, run.threadId, run.actionType, run.target, run.params);
  }

  lemma PlanWf(deps: Deps, a: Action, decision: Option<Decision>)
    ensures PlanFor(deps, a, decision).Some? ==> Wf(PlanFor(deps, a, decision).value.params)
  {
    PlannedCallIsPermitted(deps.service, a, decision, deps.boolOf);
  }

  lemma CommitKeyed(rows: Table, run: Execution, outcome: Json)
    requires Keyed(rows) && Wf(run.params)
    ensures Keyed(rows[RunKey(run) := RowOf(run, outcome)])
  {
    var k, row := RunKey(run), RowOf(run, outcome);
    assert KeyedRow(row, k);
  }

  lemma CommitSameOwn(r1: Table, r2: Table, threadId: string, key: string, row: Row)
    requires SameOwn(r1, r2, threadId)
    ensures SameOwn(r1[key := row], r2[key := row], threadId)
  {
  }

  /** Two stores with the same rows of a thread's own give its claim the same result and the same own rows. */
  lemma ClaimedAlike(s1: Store, s2: Store, run: Execution, outcome: Json)
    requires Keyed(s1.rows) && Keyed(s2.rows) && Wf(run.params)
    requires SameOwn(s1.rows, s2.rows, run.threadId)
    ensures var c1, c2 := Claimed(s1, run, outcome), Claimed(s2, run, outcome);
      && c1.result == c2.result && SameOwn(c1.store.rows, c2.store.rows, run.threadId)
      && Keyed(c1.store.rows) && Keyed(c2.store.rows)
  {
    var k := RunKey(run);
    if k in s1.rows {
      OwnKey(s1.rows, run);
      assert Own(s1.rows, run.threadId, k);
    } else if k in s2.rows {
      OwnKey(s2.rows, run);
      assert Own(s2.rows, run.threadId, k);
      assert false;
    } else {
      CommitSameOwn(s1.rows, s2.rows, run.threadId, k, RowOf(run, outcome));
      CommitKeyed(s1.rows, run, outcome);
      CommitKeyed(s2.rows, run, outcome);
    }
  }

  lemma SameDecisions(deps: Deps, t1: Thread, t2: Thread)
    requires EraseFlag(t1) == EraseFlag(t2)
    ensures t1.next == t2.next && t1.answer == t2.answer && t1.state.diagnosis == t2.state.diagnosis
    ensures AtRest(t1) == AtRest(t2) && AwaitsAnswer(t1) == AwaitsAnswer(t2) && Stuck(deps, t1) == Stuck(deps, t2)
    ensures Rank(deps, t1) == Rank(deps, t2)
  {
  }

  /** Entered whole, the store either stays or takes the claim of the planned call. */
  lemma EnterStore(deps: Deps, d: Durable)
    ensures var e := Enter(deps, d, Whole);
      var plan := PendingPlan(deps, d.thread);
      e.store == if plan.None? then d.store else Claimed(d.store, RunOf(deps, plan.value), plan.value.result).store
  {
  }

  /** The remediation the next entry asks for. */
  function PendingPlan(deps: Deps, th: Thread): Option<Call> {
    if th.next == AtEvaluate && !AtRest(th) && th.state.diagnosis.Some?
    then PlanFor(deps, th.state.diagnosis.value.action, th.answer) else None
  }

  lemma PendingWf(deps: Deps, th: Thread)
    ensures PendingPlan(deps, th).Some? ==> Wf(PendingPlan(deps, th).value.params)
  {
    if th.state.diagnosis.Some? { PlanWf(deps, th.state.diagnosis.value.action, th.answer); }
  }

  /** Updates equal but for the flag keep threads equal but for the flag. */
  lemma AdvanceAlike(t1: Thread, t2: Thread, u1: Update, u2: Update, next: Node)
    requires EraseFlag(t1) == EraseFlag(t2) && u1.(remediation := None) == u2.(remediation := None)
    requires u1.remediation != u2.remediation ==>
      (u1.remediation.Some? && u1.remediation.value.Some? && u2.remediation.Some? && u2.remediation.value.Some?
       && u1.remediation.value.value.result == u2.remediation.value.value.result)
    ensures EraseFlag(Advance(t1, u1, next)) == EraseFlag(Advance(t2, u2, next))
  {
  }

  lemma EvaluateThreadAlike(deps: Deps, d1: Durable, d2: Durable)
    requires EraseFlag(d1.thread) == EraseFlag(d2.thread)
    requires d1.thread.next == AtEvaluate && !AtRest(d1.thread)
    requires var plan := PendingPlan(deps, d1.thread); plan.Some? ==>
      (Claimed(d1.store, RunOf(deps, plan.value), plan.value.result).result
       == Claimed(d2.store, RunOf(deps, plan.value), plan.value.result).result)
    ensures EraseFlag(Enter(deps, d1, Whole).thread) == EraseFlag(Enter(deps, d2, Whole).thread)
  {
    var t1, t2 := d1.thread, d2.thread;
    match t1.state.diagnosis
    case None =>
      var none := NO_UPDATE.(verdict := Some(None), remediation := Some(None), approval := Some(None));
      AdvanceAlike(t1, t2, none, none, AtDecide);
    case Some(dg) =>
      var verdict := Evaluate(dg.action);
      AdvanceAlike(t1, t2, Resolve(deps, d1.store, dg, verdict, t1.answer).update,
                   Resolve(deps, d2.store, dg, verdict, t1.answer).update, AtDecide);
  }

  /** The threads stay alike when the claims, if any, return the same result. */
  lemma EnterThreadAlike(deps: Deps, d1: Durable, d2: Durable)
    requires EraseFlag(d1.thread) == EraseFlag(d2.thread)
    requires var plan := PendingPlan(deps, d1.thread); plan.Some? ==>
      (Claimed(d1.store, RunOf(deps, plan.value), plan.value.result).result
       == Claimed(d2.store, RunOf(deps, plan.value), plan.value.result).result)
    ensures EraseFlag(Enter(deps, d1, Whole).thread) == EraseFlag(Enter(deps, d2, Whole).thread)
  {
    var t1, t2 := d1.thread, d2.thread;
    SameDecisions(deps, t1, t2);
    if !AtRest(t1) {
      match t1.next
      case AtGather =>
        assert Gather(deps, t1.state) == Gather(deps, t2.state);
        if !Stuck(deps, t1) {
          var u := Gather(deps, t1.state).update;
          assert RouteAfterGather(deps, Merge(t1.state, u)) == RouteAfterGather(deps, Merge(t2.state, u));
          AdvanceAlike(t1, t2, u, u, AfterRoute(RouteAfterGather(deps, Merge(t1.state, u))));
        }
      case AtHypothesize => AdvanceAlike(t1, t2, Hypothesis(deps, t1.state), Hypothesis(deps, t2.state), AtClassify);
      case AtClassify => AdvanceAlike(t1, t2, RiskPreview(t1.state), RiskPreview(t2.state), AtEvaluate);
      case AtEvaluate => EvaluateThreadAlike(deps, d1, d2);
      case AtDecide =>
        var u := NO_UPDATE.(status := Some(Some(FinalStatus(deps, t1.state))));
        AdvanceAlike(t1, t2, u, u, AtEnd);
    }
  }

  lemma EnterAlike(deps: Deps, d1: Durable, d2: Durable)
    requires Alike(deps, d1, d2)
    ensures Alike(deps, Enter(deps, d1, Whole), Enter(deps, d2, Whole))
  {
    SameDecisions(deps, d1.thread, d2.thread);
    var plan := PendingPlan(deps, d1.thread);
    PendingWf(deps, d1.thread);
    if plan.Some? { ClaimedAlike(d1.store, d2.store, RunOf(deps, plan.value), plan.value.result); }
    EnterThreadAlike(deps, d1, d2);
    EnterStore(deps, d1);
    EnterStore(deps, d2);
  }

  lemma {:induction false} RestAlike(deps: Deps, d1: Durable, d2: Durable)
    requires Alike(deps, d1, d2)
    ensures Alike(deps, Rest(deps, d1), Rest(deps, d2))
    decreases Rank(deps, d1.thread)
  {
    SameDecisions(deps, d1.thread, d2.thread);
    if !AtRest(d1.thread) && !Stuck(deps, d1.thread) {
      EnterRank(deps, d1, Whole);
      EnterAlike(deps, d1, d2);
      RestAlike(deps, Enter(deps, d1, Whole), Enter(deps, d2, Whole));
    }
  }

  /** The undisturbed run to its end, `decision` being the answer if it pauses for one. */
  function Final(deps: Deps, d: Durable, decision: Decision): Durable {
    var r := Rest(deps, d);
    if AwaitsAnswer(r.thread) then Rest(deps, Durable(Answer(r.thread, decision), r.store)) else r
  }

  lemma FinalAlike(deps: Deps, d1: Durable, d2: Durable, decision: Decision)
    requires Alike(deps, d1, d2)
    ensures Alike(deps, Final(deps, d1, decision), Final(deps, d2, decision))
  {
    RestAlike(deps, d1, d2);
    var r1, r2 := Rest(deps, d1), Rest(deps, d2);
    SameDecisions(deps, r1.thread, r2.thread);
    if AwaitsAnswer(r1.thread) {
      RestAlike(deps, Durable(Answer(r1.thread, decision), r1.store), Durable(Answer(r2.thread, decision), r2.store));
    }
  }

  lemma {:induction false} AnsweredStays(deps: Deps, d: Durable)
    requires d.thread.answer.Some?
    ensures Rest(deps, d).thread.answer == d.thread.answer
    decreases Rank(deps, d.thread)
  {
    if !AtRest(d.thread) && !Stuck(deps, d.thread) {
      EnterRank(deps, d, Whole);
      AnsweredStays(deps, Enter(deps, d, Whole));
    }
  }

  /** What a stop leaves in the table: nothing, or the planned row committed just before the checkpoint. */
  lemma StoppedRows(deps: Deps, d: Durable, point: Point)
    ensures var d1, plan := Enter(deps, d, Stopped(point)), PendingPlan(deps, d.thread);
      && d1.thread == d.thread
      && (d1.store.rows == d.store.rows
          || (plan.Some? && RunKey(RunOf(deps, plan.value)) !in d.store.rows
              && d1.store == Claimed(d.store, RunOf(deps, plan.value), plan.value.result).store))
  {
  }

  /** Stopped between the row's commit and the checkpoint: entering again finds the row. */
  lemma CommittedAlike(deps: Deps, d1: Durable, d: Durable)
    requires Keyed(d.store.rows) && d1.thread == d.thread && PendingPlan(deps, d.thread).Some?
    requires var call := PendingPlan(deps, d.thread).value;
      d1.store == Claimed(d.store, RunOf(deps, call), call.result).store
    ensures Keyed(d1.store.rows)
    ensures Alike(deps, Enter(deps, d1, Whole), Enter(deps, d, Whole))
  {
    var call := PendingPlan(deps, d.thread).value;
    PendingWf(deps, d.thread);
    CommitKeyed(d.store.rows, RunOf(deps, call), call.result);
    EnterThreadAlike(deps, d1, d);
    EnterStore(deps, d1);
    EnterStore(deps, d);
  }

  /** Nothing is lost by entering first: the rest of the run is the same. */
  lemma EnterThenFinal(deps: Deps, d: Durable, decision: Decision)
    ensures Final(deps, Enter(deps, d, Whole), decision) == Final(deps, d, decision)
  {
    EnterRank(deps, d, Whole);
    if AtRest(d.thread) {
    } else if Stuck(deps, d.thread) {
      assert Enter(deps, d, Whole) == d;
    } else {
      assert Rest(deps, d) == Rest(deps, Enter(deps, d, Whole));
    }
  }

  lemma StoppedAlike(deps: Deps, d: Durable, point: Point, decision: Decision)
    requires Keyed(d.store.rows)
    ensures Keyed(Enter(deps, d, Stopped(point)).store.rows)
    ensures Alike(deps, Final(deps, Enter(deps, d, Stopped(point)), decision), Final(deps, d, decision))
  {
    var d1 := Enter(deps, d, Stopped(point));
    StoppedRows(deps, d, point);
    if d1.store.rows == d.store.rows {
      FinalAlike(deps, d1, d, decision);
    } else {
      CommittedAlike(deps, d1, d);
      FinalAlike(deps, Enter(deps, d1, Whole), Enter(deps, d, Whole), decision);
      EnterThenFinal(deps, d1, decision);
      EnterThenFinal(deps, d, decision);
    }
  }

  lemma ForeignAlike(deps: Deps, d: Durable, row: Row)
    requires Keyed(d.store.rows) && Wf(row.params)
    ensures Alike(deps, Happen(deps, d, Foreign(row)), d)
  {
    var run := Execution(row.threadId, row.actionType, row.target, row.params);
    CommitKeyed(d.store.rows, run, row.result);
  }

  lemma HappenTransparent(deps: Deps, d: Durable, ev: Event, decision: Decision)
    requires Keyed(d.store.rows) && (ev.Foreign? ==> Wf(ev.row.params))
    requires Happen(deps, d, ev).thread.answer.Some? ==> Happen(deps, d, ev).thread.answer == Some(decision)
    ensures Keyed(Happen(deps, d, ev).store.rows)
    ensures Alike(deps, Final(deps, Happen(deps, d, ev), decision), Final(deps, d, decision))
  {
    var d' := Happen(deps, d, ev);
    FinalAlike(deps, d, d, decision);
    match ev
    case Attempt(Stopped(point)) =>
      StoppedAlike(deps, d, point, decision);
    case Attempt(Whole) =>
      EnterAlike(deps, d, d);
      EnterThenFinal(deps, d, decision);
    case Foreign(row) =>
      ForeignAlike(deps, d, row);
      FinalAlike(deps, d', d, decision);
    case Resume(x) =>
      if AwaitsAnswer(d.thread) {
        AnsweredStays(deps, d');
      }
  }

  lemma {:induction false} AnswerKept(deps: Deps, d: Durable, events: seq<Event>)
    requires d.thread.answer.Some?
    ensures Sched(deps, d, events).thread.answer == d.thread.answer
    decreases |events|
  {
    if events != [] {
      AnswerKept(deps, Happen(deps, d, events[0]), events[1..]);
    }
  }

  ghost predicate ForeignWf(events: seq<Event>) {
    forall i :: 0 <= i < |events| && events[i].Foreign? ==> Wf(events[i].row.params)
  }

  /**
  Over every schedule: finishing the run from wherever it stands gives what the undisturbed run gives, `decision`
  being the answer that was recorded if one was.
  */
  lemma {:induction false} CrashTransparent(deps: Deps, d: Durable, events: seq<Event>, decision: Decision)
    requires Keyed(d.store.rows) && ForeignWf(events)
    requires var th := Sched(deps, d, events).thread; th.answer.Some? ==> th.answer == Some(decision)
    ensures Alike(deps, Final(deps, Sched(deps, d, events), decision), Final(deps, d, decision))
    decreases |events|
  {
    if events == [] {
      FinalAlike(deps, d, d, decision);
    } else {
      var d' := Happen(deps, d, events[0]);
      if d'.thread.answer.Some? { AnswerKept(deps, d', events[1..]); }
      HappenTransparent(deps, d, events[0], decision);
      CrashTransparent(deps, d', events[1..], decision);
    }
  }

  /** A run that completes, however often it crashed, leaves the undisturbed run's state and rows. */
  lemma CompletedRunTransparent(deps: Deps, store: Store, events: seq<Event>, decision: Decision)
    requires Keyed(store.rows) && ForeignWf(events)
    requires Sched(deps, Durable(START, store), events).thread.next == AtEnd
    requires var th := Sched(deps, Durable(START, store), events).thread;
      th.answer.Some? ==> th.answer == Some(decision)
    ensures Alike(deps, Sched(deps, Durable(START, store), events), Final(deps, Durable(START, store), decision))
  {
    CrashTransparent(deps, Durable(START, store), events, decision);
  }

  // --------------------------------------------------------- non-interference

  /** Two runs past the loop that policy must not tell apart: same action and answer, whatever the diagnosis says. */
  ghost predicate SameAction(t1: Thread, t2: Thread) {
    && t1.next == t2.next && t1.next != AtGather && t1.answer == t2.answer
    && HasDiagnosis(t1.state) && HasDiagnosis(t2.state)
    && t1.state.diagnosis.value.action == t2.state.diagnosis.value.action
    && t1.state.verdict == t2.state.verdict && t1.state.remediation == t2.state.remediation
    && t1.state.approval == t2.state.approval && t1.state.status == t2.state.status
  }

  lemma SameActionEarly(deps: Deps, t1: Thread, t2: Thread, store: Store)
    requires SameAction(t1, t2) && t1.next in {AtHypothesize, AtClassify}
    ensures var d1, d2 := Enter(deps, Durable(t1, store), Whole), Enter(deps, Durable(t2, store), Whole);
      SameAction(d1.thread, d2.thread) && d1.store == d2.store
  {
  }

  lemma SameActionLate(deps: Deps, t1: Thread, t2: Thread, store: Store)
    requires SameAction(t1, t2) && t1.next in {AtEvaluate, AtDecide, AtEnd}
    ensures var d1, d2 := Enter(deps, Durable(t1, store), Whole), Enter(deps, Durable(t2, store), Whole);
      SameAction(d1.thread, d2.thread) && d1.store == d2.store
  {
  }

  lemma SameActionStopped(deps: Deps, t1: Thread, t2: Thread, store: Store, point: Point)
    requires SameAction(t1, t2)
    ensures var d1 := Enter(deps, Durable(t1, store), Stopped(point));
      var d2 := Enter(deps, Durable(t2, store), Stopped(point));
      SameAction(d1.thread, d2.thread) && d1.store == d2.store
  {
  }

  lemma SameActionEntered(deps: Deps, t1: Thread, t2: Thread, store: Store, fate: Fate)
    requires SameAction(t1, t2)
    ensures var d1, d2 := Enter(deps, Durable(t1, store), fate), Enter(deps, Durable(t2, store), fate);
      SameAction(d1.thread, d2.thread) && d1.store == d2.store
  {
    match fate
    case Stopped(point) => SameActionStopped(deps, t1, t2, store, point);
    case Whole =>
      if t1.next in {AtHypothesize, AtClassify} {
        SameActionEarly(deps, t1, t2, store);
      } else {
        SameActionLate(deps, t1, t2, store);
      }
  }

  /** Diagnosis text, cited evidence, confidence and cost reach neither table, verdict, result nor status. */
  lemma {:induction false} NonInterference(deps: Deps, t1: Thread, t2: Thread, store: Store, events: seq<Event>)
    requires SameAction(t1, t2)
    ensures var d1, d2 := Sched(deps, Durable(t1, store), events), Sched(deps, Durable(t2, store), events);
      SameAction(d1.thread, d2.thread) && d1.store == d2.store
    decreases |events|
  {
    if events != [] {
      if events[0].Attempt? { SameActionEntered(deps, t1, t2, store, events[0].fate); }
      var d1, d2 := Happen(deps, Durable(t1, store), events[0]), Happen(deps, Durable(t2, store), events[0]);
      NonInterference(deps, d1.thread, d2.thread, d1.store, events[1..]);
    }
  }
}
