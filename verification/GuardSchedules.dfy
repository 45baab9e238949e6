/**
The idempotency guard under every interleaving and every crash.

The executor runs before its row is committed, so "at most once" is not what the guard gives.  The exact
account is `RunsAccountedFor`; `SecondRunExactlyWhen` says which step runs a remediation again.
*/
module GuardSchedules {
  import opened CanonicalJson
  import opened Idempotency

  /** Where one attempt stands.  `Lost(true)` ran its executor and never committed a row. */
  datatype Phase =
    | Started
    | Missed
    | Ran(result: Json)
    | Returned(result: Json, deduplicated: bool)
    | Lost(ran: bool)

  datatype Attempt = Attempt(run: Execution, phase: Phase)

  datatype State = State(store: Store, attempts: seq<Attempt>)

  datatype Event =
    | Begin(run: Execution)
    | LookUp(i: nat)
    | RunExecutor(i: nat, outcome: Json)
    | Commit(i: nat)
    | Crash(i: nat)

  const INITIAL := State(Store(map[], []), [])

  function Move(s: State, i: nat, phase: Phase, store: Store): State
    requires i < |s.attempts|
  {
    State(store, s.attempts[i := Attempt(s.attempts[i].run, phase)])
  }

  predicate At(s: State, i: nat, phase: Phase) {
    i < |s.attempts| && s.attempts[i].phase == phase
  }

  /** An event that is not enabled changes nothing. */
  function Step(s: State, ev: Event): State {
    match ev
    case Begin(run) => State(s.store, s.attempts + [Attempt(run, Started)])
    case LookUp(i) =>
      if !At(s, i, Started) then s else
      var key := RunKey(s.attempts[i].run);
      if key in s.store.rows then Move(s, i, Returned(s.store.rows[key].result, true), s.store)
      else Move(s, i, Missed, s.store)
    case RunExecutor(i, outcome) =>
      if !At(s, i, Missed) then s
      else Move(s, i, Ran(outcome), Store(s.store.rows, s.store.runs + [s.attempts[i].run]))
    case Commit(i) =>
      if i >= |s.attempts| || !s.attempts[i].phase.Ran? then s else
      var a := s.attempts[i];
      var key := RunKey(a.run);
      // A second insert breaks the unique key: the attempt raises and its run is lost.
      if key in s.store.rows then Move(s, i, Lost(true), s.store)
      else Move(s, i, Returned(a.phase.result, false),
                Store(s.store.rows[key := RowOf(a.run, a.phase.result)], s.store.runs))
    case Crash(i) =>
      if i >= |s.attempts| || s.attempts[i].phase.Returned? || s.attempts[i].phase.Lost? then s
      else Move(s, i, Lost(s.attempts[i].phase.Ran?), s.store)
  }

  function Exec(s: State, events: seq<Event>): State
    decreases |events|
  {
    if events == [] then s else Exec(Step(s, events[0]), events[1..])
  }

  function Count<T>(xs: seq<T>, p: T -> bool): nat {
    if xs == [] then 0 else (if p(xs[0]) then 1 else 0) + Count(xs[1..], p)
  }

  lemma {:induction false} CountAppend<T>(xs: seq<T>, x: T, p: T -> bool)
    ensures Count(xs + [x], p) == Count(xs, p) + if p(x) then 1 else 0
  {
    if xs != [] {
      CountAppend(xs[1..], x, p);
      assert (xs + [x])[1..] == xs[1..] + [x];
    }
  }

  lemma {:induction false} CountUpdate<T>(xs: seq<T>, i: nat, x: T, p: T -> bool)
    requires i < |xs|
    ensures Count(xs[i := x], p) + (if p(xs[i]) then 1 else 0) == Count(xs, p) + (if p(x) then 1 else 0)
  {
    if i == 0 {
      assert xs[0 := x][1..] == xs[1..];
    } else {
      CountUpdate(xs[1..], i - 1, x, p);
      assert xs[i := x][1..] == xs[1..][i - 1 := x];
    }
  }

  function Runs(s: State, key: string): nat {
    Count(s.store.runs, (e: Execution) => RunKey(e) == key)
  }

  function Pending(s: State, key: string): nat {
    Count(s.attempts, (a: Attempt) => RunKey(a.run) == key && a.phase.Ran?)
  }

  function LostRuns(s: State, key: string): nat {
    Count(s.attempts, (a: Attempt) => RunKey(a.run) == key && a.phase == Lost(true))
  }

  /** Attempts that reported having executed. */
  function Claims(s: State, key: string): nat {
    Count(s.attempts, (a: Attempt) => RunKey(a.run) == key && a.phase.Returned? && !a.phase.deduplicated)
  }

  function Committed(s: State, key: string): nat { if key in s.store.rows then 1 else 0 }

  ghost predicate Balanced(s: State, key: string) {
    && Runs(s, key) == Committed(s, key) + Pending(s, key) + LostRuns(s, key)
    && Claims(s, key) == Committed(s, key)
  }

  /** Everyone who got an answer got the committed one. */
  ghost predicate Agreed(s: State) {
    forall i :: 0 <= i < |s.attempts| && s.attempts[i].phase.Returned? ==>
      var key := RunKey(s.attempts[i].run);
      key in s.store.rows && s.store.rows[key].result == s.attempts[i].phase.result
  }

  lemma MoveCounts(s: State, i: nat, phase: Phase, store: Store, key: string)
    requires i < |s.attempts|
    ensures var before, after, mine := s.attempts[i].phase, phase, RunKey(s.attempts[i].run) == key;
      var s' := Move(s, i, phase, store);
      && Pending(s', key) + (if mine && before.Ran? then 1 else 0)
         == Pending(s, key) + (if mine && after.Ran? then 1 else 0)
      && LostRuns(s', key) + (if mine && before == Lost(true) then 1 else 0)
         == LostRuns(s, key) + (if mine && after == Lost(true) then 1 else 0)
      && Claims(s', key) + (if mine && before.Returned? && !before.deduplicated then 1 else 0)
         == Claims(s, key) + (if mine && after.Returned? && !after.deduplicated then 1 else 0)
  {
    var a := Attempt(s.attempts[i].run, phase);
    CountUpdate(s.attempts, i, a, (a: Attempt) => RunKey(a.run) == key && a.phase.Ran?);
    CountUpdate(s.attempts, i, a, (a: Attempt) => RunKey(a.run) == key && a.phase == Lost(true));
    CountUpdate(s.attempts, i, a, (a: Attempt) => RunKey(a.run) == key && a.phase.Returned? && !a.phase.deduplicated);
  }

  lemma BeginCounts(s: State, run: Execution, key: string)
    ensures var s' := Step(s, Begin(run));
      Pending(s', key) == Pending(s, key) && LostRuns(s', key) == LostRuns(s, key) && Claims(s', key) == Claims(s, key)
  {
    var a := Attempt(run, Started);
    CountAppend(s.attempts, a, (a: Attempt) => RunKey(a.run) == key && a.phase.Ran?);
    CountAppend(s.attempts, a, (a: Attempt) => RunKey(a.run) == key && a.phase == Lost(true));
    CountAppend(s.attempts, a, (a: Attempt) => RunKey(a.run) == key && a.phase.Returned? && !a.phase.deduplicated);
  }

  lemma StepBalanced(s: State, ev: Event, key: string)
    requires Balanced(s, key)
    ensures Balanced(Step(s, ev), key)
  {
    var s' := Step(s, ev);
    if ev.Begin? {
      BeginCounts(s, ev.run, key);
    } else if s' != s {
      MoveCounts(s, ev.i, s'.attempts[ev.i].phase, s'.store, key);
      if ev.RunExecutor? {
        CountAppend(s.store.runs, s.attempts[ev.i].run, (e: Execution) => RunKey(e) == key);
      }
    }
  }

  /** Over every schedule: runs = committed row + runs still open + runs lost, and one claim per row. */
  lemma {:induction false} RunsAccountedFor(events: seq<Event>, key: string)
    ensures var s := Exec(INITIAL, events);
      Runs(s, key) == Committed(s, key) + Pending(s, key) + LostRuns(s, key) && Claims(s, key) == Committed(s, key)
  {
    ExecBalanced(INITIAL, events, key);
  }

  lemma {:induction false} ExecBalanced(s: State, events: seq<Event>, key: string)
    requires Balanced(s, key)
    ensures Balanced(Exec(s, events), key)
    decreases |events|
  {
    if events != [] {
      StepBalanced(s, events[0], key);
      ExecBalanced(Step(s, events[0]), events[1..], key);
    }
  }

  /** Over every schedule a committed row never changes, and every answer given is the committed one. */
  lemma {:induction false} AnswersAgree(s: State, events: seq<Event>)
    requires Agreed(s)
    ensures Agreed(Exec(s, events))
    ensures forall key :: key in s.store.rows ==>
      key in Exec(s, events).store.rows && Exec(s, events).store.rows[key] == s.store.rows[key]
    decreases |events|
  {
    if events != [] {
      AnswersAgree(Step(s, events[0]), events[1..]);
    }
  }

  /** With nothing lost or open, a remediation ran once if anyone claims it, and otherwise never. */
  lemma AtMostOnceWhenSettled(events: seq<Event>, key: string)
    requires var s := Exec(INITIAL, events); Pending(s, key) == 0 && LostRuns(s, key) == 0
    ensures Runs(Exec(INITIAL, events), key) == Claims(Exec(INITIAL, events), key) <= 1
  {
    RunsAccountedFor(events, key);
  }

  /** The step that repeats a remediation: its lookup missed, yet a row is there now or an earlier run has none. */
  lemma SecondRunExactlyWhen(events: seq<Event>, i: nat, outcome: Json)
    requires At(Exec(INITIAL, events), i, Missed)
    ensures var s := Exec(INITIAL, events);
      var key := RunKey(s.attempts[i].run);
      (Runs(Step(s, RunExecutor(i, outcome)), key) >= 2) <==>
      (key in s.store.rows || Pending(s, key) + LostRuns(s, key) > 0)
  {
    var s := Exec(INITIAL, events);
    var key := RunKey(s.attempts[i].run);
    RunsAccountedFor(events, key);
    CountAppend(s.store.runs, s.attempts[i].run, (e: Execution) => RunKey(e) == key);
  }

  /** "At most once, ever" is false: a crash between executor and commit, then a second attempt. */
  lemma TwoRunsAfterCrash(e: Execution, r: Json)
    ensures var s := Exec(INITIAL, [Begin(e), LookUp(0), RunExecutor(0, r), Crash(0),
                                    Begin(e), LookUp(1), RunExecutor(1, r), Commit(1)]);
      s.store.runs == [e, e] && s.attempts == [Attempt(e, Lost(true)), Attempt(e, Returned(r, false))]
  {
    var first := [Begin(e), LookUp(0), RunExecutor(0, r), Crash(0)];
    var second := [Begin(e), LookUp(1), RunExecutor(1, r), Commit(1)];
    var mid := State(Store(map[], [e]), [Attempt(e, Lost(true))]);
    Exec4(INITIAL, first);
    assert Exec(INITIAL, first) == mid;
    Exec4(mid, second);
    ExecConcat(INITIAL, first, second);
    assert first + second == [Begin(e), LookUp(0), RunExecutor(0, r), Crash(0),
                              Begin(e), LookUp(1), RunExecutor(1, r), Commit(1)];
  }

  /** The same happens with no crash at all, when two attempts overlap. */
  lemma TwoRunsWhenOverlapping(e: Execution, r: Json)
    ensures var s := Exec(INITIAL, [Begin(e), Begin(e), LookUp(0), LookUp(1)]
                                   + [RunExecutor(0, r), RunExecutor(1, r), Commit(0), Commit(1)]);
      s.store.runs == [e, e] && s.attempts == [Attempt(e, Returned(r, false)), Attempt(e, Lost(true))]
  {
    var first := [Begin(e), Begin(e), LookUp(0), LookUp(1)];
    var second := [RunExecutor(0, r), RunExecutor(1, r), Commit(0), Commit(1)];
    Exec4(INITIAL, first);
    assert Exec(INITIAL, first) == State(Store(map[], []), [Attempt(e, Missed), Attempt(e, Missed)]);
    Exec4(Exec(INITIAL, first), second);
    ExecConcat(INITIAL, first, second);
  }

  lemma Exec4(s: State, events: seq<Event>)
    requires |events| == 4
    ensures Exec(s, events) == Step(Step(Step(Step(s, events[0]), events[1]), events[2]), events[3])
  {
    var s1 := Step(s, events[0]);
    var s2 := Step(s1, events[1]);
    var s3 := Step(s2, events[2]);
    assert events[1..][1..] == events[2..] && events[2..][1..] == events[3..];
    assert events[3..][1..] == [];
    assert Exec(s, events) == Exec(s1, events[1..]);
    assert Exec(s1, events[1..]) == Exec(s2, events[2..]);
    assert Exec(s2, events[2..]) == Exec(s3, events[3..]);
    assert Exec(s3, events[3..]) == Exec(Step(s3, events[3]), []);
  }

  lemma {:induction false} ExecConcat(s: State, xs: seq<Event>, ys: seq<Event>)
    ensures Exec(s, xs + ys) == Exec(Exec(s, xs), ys)
    decreases |xs|
  {
    if xs == [] {
      assert xs + ys == ys;
    } else {
      ExecConcat(Step(s, xs[0]), xs[1..], ys);
      assert (xs + ys)[1..] == xs[1..] + ys;
    }
  }

  /** An attempt left alone does what `Idempotency.Claimed` says. */
  lemma SoloAttempt(s: State, e: Execution, outcome: Json)
    ensures var n := |s.attempts|;
      var s' := Exec(s, [Begin(e), LookUp(n), RunExecutor(n, outcome), Commit(n)]);
      var claim := Claimed(s.store, e, outcome);
      s'.store == claim.store && |s'.attempts| == n + 1
      && s'.attempts[n].phase == Returned(claim.result, claim.deduplicated)
  {
    var n := |s.attempts|;
    Exec4(s, [Begin(e), LookUp(n), RunExecutor(n, outcome), Commit(n)]);
  }

  /** A new attempt, its look-up done. */
  function LookedUp(n: nat, e: Execution): seq<Event> { [Begin(e), LookUp(n)] }

  /** An attempt that crashes after its look-up, after its executor, or after its commit. */
  function CutShort(n: nat, e: Execution, outcome: Json, ran: bool, committed: bool): seq<Event> {
    if committed then LookedUp(n, e) + [RunExecutor(n, outcome)] + [Commit(n)] + [Crash(n)]
    else if ran then LookedUp(n, e) + [RunExecutor(n, outcome)] + [Crash(n)]
    else LookedUp(n, e) + [Crash(n)]
  }

  lemma AfterLookUp(s: State, e: Execution)
    ensures var found := RunKey(e) in s.store.rows;
      Exec(s, LookedUp(|s.attempts|, e)) == State(s.store, s.attempts + [Attempt(
        e, if found then Returned(s.store.rows[RunKey(e)].result, true) else Missed)])
  {
    var n := |s.attempts|;
    var begun := Step(s, Begin(e));
    assert LookedUp(n, e)[1..] == [LookUp(n)] && [LookUp(n)][1..] == [];
    assert Exec(s, LookedUp(n, e)) == Exec(begun, [LookUp(n)]) == Step(begun, LookUp(n));
  }

  lemma AfterExecutor(s: State, e: Execution, outcome: Json)
    ensures var looked := LookedUp(|s.attempts|, e);
      Exec(s, looked + [RunExecutor(|s.attempts|, outcome)]) ==
        if RunKey(e) in s.store.rows then Exec(s, looked)
        else State(Store(s.store.rows, s.store.runs + [e]), s.attempts + [Attempt(e, Ran(outcome))])
  {
    AfterLookUp(s, e);
    ExecLast(s, LookedUp(|s.attempts|, e), RunExecutor(|s.attempts|, outcome));
  }

  lemma AfterCommit(s: State, e: Execution, outcome: Json)
    ensures var n := |s.attempts|;
      var s' := Exec(s, LookedUp(n, e) + [RunExecutor(n, outcome)] + [Commit(n)]);
      s'.store == Claimed(s.store, e, outcome).store && |s'.attempts| == n + 1 && s'.attempts[n].phase.Returned?
  {
    var n := |s.attempts|;
    AfterLookUp(s, e);
    AfterExecutor(s, e, outcome);
    ExecLast(s, LookedUp(n, e) + [RunExecutor(n, outcome)], Commit(n));
  }

  /** What such an attempt leaves: nothing more where the row was there; else a run without a row, or both. */
  lemma CutShortLeaves(s: State, e: Execution, outcome: Json, ran: bool, committed: bool)
    ensures Exec(s, CutShort(|s.attempts|, e, outcome, ran, committed)).store ==
      if RunKey(e) in s.store.rows || !(ran || committed) then s.store
      else if committed then Claimed(s.store, e, outcome).store
      else Store(s.store.rows, s.store.runs + [e])
  {
    var n := |s.attempts|;
    if committed {
      AfterCommit(s, e, outcome);
      ExecLast(s, LookedUp(n, e) + [RunExecutor(n, outcome)] + [Commit(n)], Crash(n));
    } else if ran {
      AfterLookUp(s, e);
      AfterExecutor(s, e, outcome);
      ExecLast(s, LookedUp(n, e) + [RunExecutor(n, outcome)], Crash(n));
    } else {
      AfterLookUp(s, e);
      ExecLast(s, LookedUp(n, e), Crash(n));
    }
  }

  lemma ExecLast(s: State, events: seq<Event>, last: Event)
    ensures Exec(s, events + [last]) == Step(Exec(s, events), last)
  {
    ExecConcat(s, events, [last]);
    assert [last][1..] == [];
  }
}
