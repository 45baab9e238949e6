/** Where an incident's recorded answer, and so every approved run, comes from in a history. */
module Provenance {
  import opened Wrappers
  import opened Policy
  import opened Remediation
  import opened Durable
  import opened Incidents
  import opened World
  import opened Lifecycle
  import opened Histories
  import opened Guarantees

  // ------------------------------------------------------------ one request

  /** Answers and attempts of the thread itself. */
  ghost predicate OwnEvents(events: seq<Event>) { forall i :: 0 <= i < |events| ==> !events[i].Foreign? }

  lemma ResumedIsSched(env: Env, k: Desk, decision: Decision, outcome: Outcome, now: int, processId: string)
    returns (events: seq<Event>)
    ensures var k' := Resumed(env, k, decision, outcome, now, processId);
      Sched(env.deps, Durable(k.thread, k.store), events) == Durable(k'.thread, k'.store)
    ensures OwnEvents(events)
  {
    var d := Durable(k.thread, k.store);
    if outcome == Unstarted {
      events := [];
    } else {
      var answered := Durable(Answer(k.thread, decision), k.store);
      var rest := InvokedIsSched(env.deps, answered, outcome);
      events := [Event.Resume(decision)] + rest;
      assert events[1..] == rest;
      assert Happen(env.deps, d, events[0]) == answered;
    }
  }

  lemma CheckedIsSched(env: Env, k: Desk, now: int, outcome: Outcome, later: int, processId: string)
    returns (events: seq<Event>)
    ensures var k' := TimeoutChecked(env, k, now, outcome, later, processId);
      Sched(env.deps, Durable(k.thread, k.store), events) == Durable(k'.thread, k'.store)
    ensures OwnEvents(events)
  {
    events := [];
    if Overdue(env, k.incident, now) {
      events := ResumedIsSched(env, k, TIMEOUT_DECISION, outcome, later, processId);
    }
  }

  lemma DecidedIsSched(env: Env, k: Desk, decision: Decision, outcome: Outcome, now: int, processId: string)
    returns (events: seq<Event>)
    ensures var k' := Decided(env, k, decision, outcome, now, processId);
      Sched(env.deps, Durable(k.thread, k.store), events) == Durable(k'.thread, k'.store)
    ensures OwnEvents(events)
  {
    events := [];
    if Decided(env, k, decision, outcome, now, processId) != k {
      events := ResumedIsSched(env, k, decision, outcome, now, processId);
    }
  }

  /** Whatever a request does to a thread is a schedule of answers and attempts. */
  lemma ServedIsSched(env: Env, k: Desk, q: Request) returns (events: seq<Event>)
    requires DeskOk(env, k) && AboutIncident(q)
    ensures var k' := Served(env, k, q);
      Sched(env.deps, Durable(k.thread, k.store), events) == Durable(k'.thread, k'.store)
    ensures OwnEvents(events)
  {
    match q
    case Run(_, now, outcome, later, processId) =>
      events := [];
      if k.incident.status == Open { events := InvokedIsSched(env.deps, Durable(START, k.store), outcome); }
    case Read(_, now, timeout, later, processId) => events := CheckedIsSched(env, k, now, timeout, later, processId);
    case Approve(_, approved, actor, params, now, timeout, survives, outcome, later, processId) =>
      var checked := TimeoutChecked(env, k, now, timeout, later, processId);
      events := CheckedIsSched(env, k, now, timeout, later, processId);
      if !(Overdue(env, k.incident, now) && timeout != Clean && !survives) {
        var more := DecidedIsSched(env, checked, Decision(approved, actor, params, false), outcome, later, processId);
        SchedConcat(env.deps, Durable(k.thread, k.store), events, more);
        events := events + more;
      }
    case Reenter(_, fate) =>
      events := if k.incident.status == Open then [] else [Attempt(fate)];
      assert [Attempt(fate)][1..] == [];
  }

  lemma ResumedAnswer(env: Env, k: Desk, decision: Decision, outcome: Outcome, now: int, processId: string)
    ensures var answer := Resumed(env, k, decision, outcome, now, processId).thread.answer;
      answer == k.thread.answer || (k.thread.answer.None? && answer == Some(decision))
  {
    var th := if outcome == Unstarted then k.thread else Answer(k.thread, decision);
    InvokedFreezes(env, Durable(th, k.store), outcome);
  }

  lemma CheckedAnswer(env: Env, k: Desk, now: int, outcome: Outcome, later: int, processId: string)
    ensures var answer := TimeoutChecked(env, k, now, outcome, later, processId).thread.answer;
      answer == k.thread.answer || (k.thread.answer.None? && answer == Some(TIMEOUT_DECISION))
  {
    ResumedAnswer(env, k, TIMEOUT_DECISION, outcome, later, processId);
  }

  predicate AnswersWith(q: Request, answer: Option<Decision>) {
    q.Approve? && answer == Some(Decision(q.approved, q.actor, q.params, false))
  }

  /** An answer, once there, stays; a new one is the timeout's denial or what the request itself decided. */
  lemma ServedAnswer(env: Env, k: Desk, q: Request)
    requires DeskOk(env, k) && AboutIncident(q)
    ensures var answer := Served(env, k, q).thread.answer;
      answer == k.thread.answer
      || (k.thread.answer.None? && (answer == Some(TIMEOUT_DECISION) || AnswersWith(q, answer)))
  {
    match q
    case Run(_, now, outcome, later, processId) => InvokedFreezes(env, Durable(START, k.store), outcome);
    case Read(_, now, timeout, later, processId) => CheckedAnswer(env, k, now, timeout, later, processId);
    case Approve(_, approved, actor, params, now, timeout, _, outcome, later, processId) =>
      var checked := TimeoutChecked(env, k, now, timeout, later, processId);
      CheckedAnswer(env, k, now, timeout, later, processId);
      ResumedAnswer(env, checked, Decision(approved, actor, params, false), outcome, later, processId);
    case Reenter(_, fate) => EnterKeepsAnswer(env.deps, Durable(k.thread, k.store), fate);
  }

  // ---------------------------------------------------------- whole histories

  lemma LastStep(envs: nat -> Env, requests: seq<Request>)
    requires requests != []
    ensures var n := |requests| - 1; After(envs, requests) == Step(envs, After(envs, requests[..n]), requests[n])
  {
    var n := |requests| - 1;
    var w := After(envs, requests[..n]);
    assert requests == requests[..n] + [requests[n]];
    ServeConcat(envs, EMPTY, requests[..n], [requests[n]]);
    assert [requests[n]][1..] == [];
    assert Serve(envs, w, [requests[n]]) == Step(envs, w, requests[n]);
  }

  ghost function AnswerOf(w: World, id: nat): Option<Decision> {
    if id in w.cases then w.cases[id].thread.answer else None
  }

  lemma StepAnswer(envs: nat -> Env, w: World, q: Request, id: nat)
    requires WorldOk(envs, w)
    ensures var before, answer := AnswerOf(w, id), AnswerOf(Step(envs, w, q), id);
      answer == before
      || (before.None? && (answer == Some(TIMEOUT_DECISION) || (Touches(q, id) && AnswersWith(q, answer))))
  {
    if id in w.cases {
      StepCase(envs, w, q, id);
      if Touches(q, id) {
        assert DeskOk(envs(id), DeskOf(w, id));
        ServedAnswer(envs(id), DeskOf(w, id), q);
      }
    } else {
      StepAbsent(envs, w, q, id);
    }
  }

  lemma StepAbsent(envs: nat -> Env, w: World, q: Request, id: nat)
    requires id !in w.cases
    ensures id in Step(envs, w, q).cases ==> q == Create(id) && Step(envs, w, q).cases[id] == Case(OPENED, START)
  {
    if AboutIncident(q) && q.id in w.cases {
      StepCase(envs, w, q, q.id);
    }
  }

  /** Request `n` approved this incident, and no answer had been recorded for it before. */
  ghost predicate ApprovedAt(envs: nat -> Env, requests: seq<Request>, id: nat, n: nat) {
    && n < |requests| && requests[n].Approve? && requests[n].id == id && requests[n].approved
    && AnswerOf(After(envs, requests[..n]), id).None?
  }

  /** What the last request of a history did to an answer. */
  lemma LastAnswer(envs: nat -> Env, requests: seq<Request>, id: nat)
    requires Configured(envs) && requests != []
    ensures var n := |requests| - 1;
      var before, answer := AnswerOf(After(envs, requests[..n]), id), AnswerOf(After(envs, requests), id);
      answer == before
      || (before.None?
          && (answer == Some(TIMEOUT_DECISION) || (Touches(requests[n], id) && AnswersWith(requests[n], answer))))
  {
    var n := |requests| - 1;
    LastStep(envs, requests);
    HistoryOk(envs, requests[..n]);
    StepAnswer(envs, After(envs, requests[..n]), requests[n], id);
  }

  lemma ApprovedEarlier(envs: nat -> Env, requests: seq<Request>, m: nat, id: nat, n: nat)
    requires m <= |requests| && ApprovedAt(envs, requests[..m], id, n)
    ensures ApprovedAt(envs, requests, id, n) && requests[..m][n] == requests[n]
  {
    assert requests[..m][..n] == requests[..n];
  }

  /** An approval on record is that of a request in the history. */
  lemma {:induction false} ApprovalHasARequest(envs: nat -> Env, requests: seq<Request>, id: nat,
                                               answer: Option<Decision>)
    returns (n: nat)
    requires Configured(envs)
    requires answer == AnswerOf(After(envs, requests), id) && answer.Some? && answer.value.approved
    ensures ApprovedAt(envs, requests, id, n) && AnswersWith(requests[n], answer)
    decreases |requests|
  {
    if requests == [] {
      assert false;
    } else {
      var m := |requests| - 1;
      LastAnswer(envs, requests, id);
      if answer == AnswerOf(After(envs, requests[..m]), id) {
        n := ApprovalHasARequest(envs, requests[..m], id, answer);
        ApprovedEarlier(envs, requests, m, id, n);
      } else {
        n := m;
      }
    }
  }

  lemma {:induction false} ServeRunsGrow(envs: nat -> Env, w: World, requests: seq<Request>)
    ensures w.store.runs <= Serve(envs, w, requests).store.runs
    decreases |requests|
  {
    if requests != [] {
      StepRunsGrow(envs, w, requests[0]);
      ServeRunsGrow(envs, Step(envs, w, requests[0]), requests[1..]);
    }
  }

  lemma StepRunsGrow(envs: nat -> Env, w: World, q: Request)
    ensures w.store.runs <= Step(envs, w, q).store.runs
  {
    if AboutIncident(q) && q.id in w.cases {
      ServedGrows(envs(q.id), DeskOf(w, q.id), q);
      StepCase(envs, w, q, q.id);
    }
  }

  /** Runs made by the time of a prefix keep their place. */
  lemma PrefixRuns(envs: nat -> Env, requests: seq<Request>, n: nat)
    requires n <= |requests|
    ensures After(envs, requests[..n]).store.runs <= After(envs, requests).store.runs
  {
    assert requests == requests[..n] + requests[n..];
    ServeConcat(envs, EMPTY, requests[..n], requests[n..]);
    ServeRunsGrow(envs, After(envs, requests[..n]), requests[n..]);
  }

  lemma NamesOfExecutables(a: Action, b: Action)
    requires Executable(a) && Executable(b) && ActionName(a) == ActionName(b)
    ensures a == b
  {
    assert |"restart_service"| == 15 && |"scale_service"| == 13;
    assert |"toggle_feature_flag"| == 19 && |"rollback_deployment"| == 19;
    assert "toggle_feature_flag"[0] != "rollback_deployment"[0];
  }

  /** No thread without an answer has a run of an action that needs approval. */
  lemma UnansweredRunsNothing(envs: nat -> Env, requests: seq<Request>, id: nat, i: nat, b: Action)
    requires Configured(envs) && AnswerOf(After(envs, requests), id).None? && TakesParams(b)
    requires i < |After(envs, requests).store.runs| && After(envs, requests).store.runs[i].threadId == ThreadId(id)
    ensures After(envs, requests).store.runs[i].actionType != ActionName(b)
  {
    var j := EveryRunPermitted(envs, requests, i);
    CaseAfter(envs, requests, j);
    ThreadIdInjective(j, id);
    var a := After(envs, requests).cases[id].thread.state.diagnosis.value.action;
    if ActionName(a) == ActionName(b) { NamesOfExecutables(a, b); }
  }

  /**
  In any history, a run of an action that needs approval was preceded by a request approving that very incident, with
  params that validate to the run's; no answer had been recorded before it, and the run had not been made.
  */
  lemma ApprovalCameFirst(envs: nat -> Env, requests: seq<Request>, i: nat, b: Action) returns (id: nat, n: nat)
    requires Configured(envs) && i < |After(envs, requests).store.runs| && TakesParams(b)
    requires After(envs, requests).store.runs[i].actionType == ActionName(b)
    ensures var w := After(envs, requests);
      && id in w.cases && w.store.runs[i].threadId == ThreadId(id) && ApprovedAt(envs, requests, id, n)
      && ValidateParams(b, requests[n].params, envs(id).deps.boolOf) == Some(w.store.runs[i].params)
      && |After(envs, requests[..n]).store.runs| <= i
  {
    var w := After(envs, requests);
    id := EveryRunPermitted(envs, requests, i);
    CaseAfter(envs, requests, id);
    NamesOfExecutables(w.cases[id].thread.state.diagnosis.value.action, b);
    n := ApprovalHasARequest(envs, requests, id, AnswerOf(w, id));
    PrefixRuns(envs, requests, n);
    if i < |After(envs, requests[..n]).store.runs| {
      UnansweredRunsNothing(envs, requests[..n], id, i, b);
      assert false;
    }
  }
}
