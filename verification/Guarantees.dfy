/** What the system promises, over every history of requests, crashes and re-entries. */
module Guarantees {
  import opened Wrappers
  import opened Policy
  import opened ChatClient
  import opened Schemas
  import opened Nodes
  import opened Durable
  import opened Investigation
  import opened Permission
  import opened Incidents
  import opened World
  import opened Lifecycle
  import opened Histories
  import Memory
  import MemoryLedger

  ghost function After(envs: nat -> Env, requests: seq<Request>): World { Serve(envs, EMPTY, requests) }

  lemma {:induction false} ServeConcat(envs: nat -> Env, w: World, xs: seq<Request>, ys: seq<Request>)
    ensures Serve(envs, w, xs + ys) == Serve(envs, Serve(envs, w, xs), ys)
    decreases |xs|
  {
    if xs == [] {
      assert xs + ys == ys;
    } else {
      ServeConcat(envs, Step(envs, w, xs[0]), xs[1..], ys);
      assert (xs + ys)[1..] == xs[1..] + ys;
    }
  }

  lemma CaseAfter(envs: nat -> Env, requests: seq<Request>, id: nat)
    requires Configured(envs) && id in After(envs, requests).cases
    ensures DeskOk(envs(id), DeskOf(After(envs, requests), id)) && envs(id).deps.threadId == ThreadId(id)
  {
    HistoryOk(envs, requests);
  }

  // ------------------------------------------------------------- lifecycle

  /** The stamps and the pending request are there exactly at the statuses that mean them. */
  lemma StampsMatchStatus(envs: nat -> Env, requests: seq<Request>, id: nat)
    requires Configured(envs) && id in After(envs, requests).cases
    ensures var c := After(envs, requests).cases[id].incident;
      && (c.startedAt.Some? <==> c.status != Open)
      && (c.pendingApproval.Some? <==> c.status == AwaitingApproval)
      && (c.awaitingSince.Some? <==> c.status == AwaitingApproval)
      && (c.completedAt.Some? <==> c.status.Closed?)
      && (c.status.Closed? ==> c.status.status.Some?)
  {
    CaseAfter(envs, requests, id);
  }

  lemma EndCause(deps: Deps, th: Thread)
    requires Phase(deps, th) && th.next == AtEnd
    ensures var s := th.state;
      && (s.status == Some(Diagnosed) <==> s.diagnosis.Some?)
      && (s.status == Some(IncompleteProviderError) <==> s.providerError.Some?)
      && (s.status == Some(IncompleteCostCeiling) ==> s.cost > deps.maxCost)
      && (s.status == Some(IncompleteStepCeiling) ==> s.steps >= deps.maxSteps && s.cost <= deps.maxCost)
  {
  }

  /** A closed incident shows its thread's outcome; the status is the true cause, the cost the price of its tokens. */
  lemma ClosedFaithfully(envs: nat -> Env, requests: seq<Request>, id: nat)
    requires Configured(envs) && id in After(envs, requests).cases
    requires After(envs, requests).cases[id].incident.status.Closed?
    ensures var c, s := After(envs, requests).cases[id].incident, After(envs, requests).cases[id].thread.state;
      && c.diagnosis == s.diagnosis && c.stepsUsed == Some(s.steps)
      && c.cost == Some(EstimateCost(envs(id).deps.model, s.inputTokens, s.outputTokens))
      && (c.status.status == Some(Diagnosed) <==> c.diagnosis.Some?)
      && (c.status.status == Some(IncompleteProviderError) <==> s.providerError.Some?)
      && (c.status.status == Some(IncompleteCostCeiling) ==> s.cost > envs(id).deps.maxCost)
      && (c.status.status == Some(IncompleteStepCeiling) ==>
            s.steps >= envs(id).deps.maxSteps && s.cost <= envs(id).deps.maxCost)
  {
    CaseAfter(envs, requests, id);
    EndCause(envs(id).deps, After(envs, requests).cases[id].thread);
  }

  predicate Touches(q: Request, id: nat) { AboutIncident(q) && q.id == id }

  /** A request moves the incident it is about, and no other. */
  lemma StepCase(envs: nat -> Env, w: World, q: Request, id: nat)
    requires id in w.cases
    ensures id in Step(envs, w, q).cases
    ensures !Touches(q, id) ==> Step(envs, w, q).cases[id] == w.cases[id]
    ensures Touches(q, id) ==> Step(envs, w, q) == PutBack(w, id, Served(envs(id), DeskOf(w, id), q))
  {
    if AboutIncident(q) && q.id in w.cases {
      assert Step(envs, w, q) == PutBack(w, q.id, Served(envs(q.id), DeskOf(w, q.id), q));
    }
  }

  lemma StepForward(envs: nat -> Env, w: World, q: Request, id: nat)
    requires WorldOk(envs, w) && id in w.cases
    ensures id in Step(envs, w, q).cases && Forward(w.cases[id].incident, Step(envs, w, q).cases[id].incident)
  {
    StepCase(envs, w, q, id);
    if Touches(q, id) {
      var env, k := envs(id), DeskOf(w, id);
      assert DeskOk(env, k);
      ServedForward(env, k, q);
      var k' := Served(env, k, q);
      assert PutBack(w, id, k').cases[id].incident == k'.incident;
    }
  }

  lemma StepClosed(envs: nat -> Env, w: World, q: Request, id: nat)
    requires WorldOk(envs, w) && id in w.cases && w.cases[id].incident.status.Closed?
    ensures id in Step(envs, w, q).cases && Step(envs, w, q).cases[id] == w.cases[id]
  {
    StepCase(envs, w, q, id);
    if Touches(q, id) {
      var env, k := envs(id), DeskOf(w, id);
      assert DeskOk(env, k);
      ClosedAbsorbs(env, k, q);
      assert PutBack(w, id, k).cases[id] == w.cases[id];
    }
  }

  lemma {:induction false} ServeForward(envs: nat -> Env, w: World, requests: seq<Request>, id: nat)
    requires Configured(envs) && WorldOk(envs, w) && id in w.cases
    ensures id in Serve(envs, w, requests).cases
    ensures Forward(w.cases[id].incident, Serve(envs, w, requests).cases[id].incident)
    decreases |requests|
  {
    if requests != [] {
      var w' := Step(envs, w, requests[0]);
      StepForward(envs, w, requests[0], id);
      StepOk(envs, w, requests[0]);
      ServeForward(envs, w', requests[1..], id);
      ForwardTwice(w.cases[id].incident, w'.cases[id].incident, Serve(envs, w, requests).cases[id].incident);
    }
  }

  /** Across any further requests an incident stays as it is or moves forward, and its log only grows. */
  lemma OnlyForward(envs: nat -> Env, earlier: seq<Request>, later: seq<Request>, id: nat)
    requires Configured(envs) && id in After(envs, earlier).cases
    ensures id in After(envs, earlier + later).cases
    ensures Forward(After(envs, earlier).cases[id].incident, After(envs, earlier + later).cases[id].incident)
  {
    HistoryOk(envs, earlier);
    ServeConcat(envs, EMPTY, earlier, later);
    ServeForward(envs, After(envs, earlier), later, id);
  }

  lemma {:induction false} ServeClosed(envs: nat -> Env, w: World, requests: seq<Request>, id: nat)
    requires Configured(envs) && WorldOk(envs, w) && id in w.cases && w.cases[id].incident.status.Closed?
    ensures id in Serve(envs, w, requests).cases && Serve(envs, w, requests).cases[id] == w.cases[id]
    decreases |requests|
  {
    if requests != [] {
      StepClosed(envs, w, requests[0], id);
      StepOk(envs, w, requests[0]);
      ServeClosed(envs, Step(envs, w, requests[0]), requests[1..], id);
    }
  }

  /** A closed incident, its log and its thread never change again. */
  lemma ClosedForever(envs: nat -> Env, earlier: seq<Request>, later: seq<Request>, id: nat)
    requires Configured(envs) && id in After(envs, earlier).cases
    requires After(envs, earlier).cases[id].incident.status.Closed?
    ensures id in After(envs, earlier + later).cases
    ensures After(envs, earlier + later).cases[id] == After(envs, earlier).cases[id]
  {
    HistoryOk(envs, earlier);
    ServeConcat(envs, EMPTY, earlier, later);
    ServeClosed(envs, After(envs, earlier), later, id);
  }

  predicate NotStarted(w: World, id: nat) { id !in w.cases || w.cases[id].incident.status == Open }

  /** How often an investigation of this incident started. */
  ghost function Starts(envs: nat -> Env, w: World, requests: seq<Request>, id: nat): nat
    decreases |requests|
  {
    if requests == [] then 0 else
    var w' := Step(envs, w, requests[0]);
    (if NotStarted(w, id) && !NotStarted(w', id) then 1 else 0) + Starts(envs, w', requests[1..], id)
  }

  lemma {:induction false} ServeStarts(envs: nat -> Env, w: World, requests: seq<Request>, id: nat)
    requires Configured(envs) && WorldOk(envs, w)
    ensures Starts(envs, w, requests, id) <= if NotStarted(w, id) then 1 else 0
    decreases |requests|
  {
    if requests != [] {
      if id in w.cases { StepForward(envs, w, requests[0], id); }
      StepOk(envs, w, requests[0]);
      ServeStarts(envs, Step(envs, w, requests[0]), requests[1..], id);
    }
  }

  /** In any history an investigation starts at most once. */
  lemma StartsAtMostOnce(envs: nat -> Env, requests: seq<Request>, id: nat)
    requires Configured(envs)
    ensures Starts(envs, EMPTY, requests, id) <= 1
  {
    HistoryOk(envs, []);
    ServeStarts(envs, EMPTY, requests, id);
  }

  // ------------------------------------------------------------ permission

  /** Every remediation ever run, in any history, is justified by the checkpoint of an incident. */
  lemma EveryRunPermitted(envs: nat -> Env, requests: seq<Request>, i: nat) returns (id: nat)
    requires Configured(envs) && i < |After(envs, requests).store.runs|
    ensures id in After(envs, requests).cases
    ensures Justified(envs(id).deps, After(envs, requests).cases[id].thread, After(envs, requests).store.runs[i])
  {
    HistoryOk(envs, requests);
    var w := After(envs, requests);
    assert HasOwner(w.cases, w.store.runs[i].threadId);
    id :| id in w.cases && w.store.runs[i].threadId == ThreadId(id);
    CaseAfter(envs, requests, id);
    RunJustified(envs(id), DeskOf(w, id), i);
  }

  lemma RunJustified(env: Env, k: Desk, i: nat)
    requires DeskOk(env, k) && i < |k.store.runs| && k.store.runs[i].threadId == env.deps.threadId
    ensures Justified(env.deps, k.thread, k.store.runs[i])
  {
    var lost: nat :| Accounted(env.deps, Durable(k.thread, k.store), lost);
    PlanIsJustified(env.deps, k.thread, k.store.runs[i]);
  }

  // ------------------------------------------------------------- audit log

  /** A paused or closed incident's log is its evidence trail, whole and in order, then the approval's own rows. */
  lemma AuditAgrees(envs: nat -> Env, requests: seq<Request>, id: nat)
    requires Configured(envs) && id in After(envs, requests).cases
    ensures var c, th := After(envs, requests).cases[id].incident, After(envs, requests).cases[id].thread;
      match c.status
      case Open => c.audit == []
      case Running => c.audit == []
      case AwaitingApproval => AuditLog(envs(id).deps, c.audit, th, 1)
      case Closed(_) => AuditLog(envs(id).deps, c.audit, th, Extra(th.state))
  {
    CaseAfter(envs, requests, id);
  }

  predicate Reserved(toolName: string) { toolName == REQUESTED || toolName == DECIDED }

  /** The rows whose tool name is not an approval row's. */
  function NonApproval(audit: seq<AuditRow>): seq<AuditRow> {
    if audit == [] then []
    else NonApproval(audit[..|audit| - 1])
         + if Reserved(audit[|audit| - 1].toolName) then [] else [audit[|audit| - 1]]
  }

  lemma {:induction false} NonApprovalKeeps(audit: seq<AuditRow>)
    ensures |NonApproval(audit)| <= |audit|
    ensures NonApproval(audit) == audit <==> forall i :: 0 <= i < |audit| ==> !Reserved(audit[i].toolName)
    ensures NonApproval(audit) != audit ==> |NonApproval(audit)| < |audit|
    decreases |audit|
  {
    if audit != [] {
      var before := audit[..|audit| - 1];
      NonApprovalKeeps(before);
      assert audit == before + [audit[|audit| - 1]];
    }
  }

  lemma {:induction false} ReservedTail(audit: seq<AuditRow>, n: nat)
    requires n <= |audit| && forall i :: n <= i < |audit| ==> Reserved(audit[i].toolName)
    ensures NonApproval(audit) == NonApproval(audit[..n])
    decreases |audit|
  {
    if n == |audit| {
      assert audit[..n] == audit;
    } else {
      var before := audit[..|audit| - 1];
      ReservedTail(before, n);
      assert before[..n] == audit[..n];
    }
  }

  predicate NoReservedName(trail: seq<ToolRecord>) {
    forall i :: 0 <= i < |trail| ==> !Reserved(trail[i].toolName)
  }

  lemma EvidenceNames(rows: seq<AuditRow>, trail: seq<ToolRecord>)
    requires |rows| == |trail| && forall i :: 0 <= i < |trail| ==> rows[i].toolName == trail[i].toolName
    ensures NonApproval(rows) == rows <==> NoReservedName(trail)
  {
    NonApprovalKeeps(rows);
  }

  lemma NamesInLog(deps: Deps, audit: seq<AuditRow>, th: Thread, extra: nat)
    requires AuditLog(deps, audit, th, extra) && extra <= 2
    ensures NonApproval(audit) == audit[..|th.state.evidence|] <==> NoReservedName(th.state.evidence)
  {
    var trail := th.state.evidence;
    var rows := audit[..|trail|];
    forall i | |trail| <= i < |audit| ensures Reserved(audit[i].toolName) {}
    ReservedTail(audit, |trail|);
    forall i | 0 <= i < |trail| ensures rows[i].toolName == trail[i].toolName {
      assert IsEvidence(audit[i], trail[i]);
    }
    EvidenceNames(rows, trail);
  }

  /** In any history tool names tell the evidence apart exactly when no tool call used an approval row's name. */
  lemma EvidenceByName(envs: nat -> Env, requests: seq<Request>, id: nat)
    requires Configured(envs) && id in After(envs, requests).cases
    requires Level(After(envs, requests).cases[id].incident.status) >= 2
    ensures var c, th := After(envs, requests).cases[id].incident, After(envs, requests).cases[id].thread;
      && |c.audit| >= |th.state.evidence|
      && (NonApproval(c.audit) == c.audit[..|th.state.evidence|] <==> NoReservedName(th.state.evidence))
  {
    var c, th := After(envs, requests).cases[id].incident, After(envs, requests).cases[id].thread;
    CaseAfter(envs, requests, id);
    NamesInLog(envs(id).deps, c.audit, th, if c.status.AwaitingApproval? then 1 else Extra(th.state));
  }

  // -------------------------------------------------------- service memory

  /** What serving an incident tells the memory ledger: a confirmed close, or nothing. */
  ghost function NotedBy(env: Env, k: Desk, k': Desk): seq<MemoryLedger.Event> {
    if !Closes(k, k') || k'.incident.completedAt.None? then [] else
    match ConfirmedBy(env, k'.thread, k'.incident.completedAt.value)
    case None => []
    case Some(row) => [MemoryLedger.Confirm(row)]
  }

  ghost function Noted(envs: nat -> Env, w: World, q: Request): seq<MemoryLedger.Event> {
    match q
    case Create(_) => []
    case DeleteMemory(entry) => [MemoryLedger.Erase(entry)]
    case _ =>
      if q.id !in w.cases then []
      else NotedBy(envs(q.id), DeskOf(w, q.id), Served(envs(q.id), DeskOf(w, q.id), q))
  }

  /** Fit to be remembered: diagnosed, not to be handed to a human, and confident enough. */
  predicate Memorable(env: Env, d: Option<Diagnosis>) {
    d.Some? && d.value.action != Escalate && d.value.confidence >= env.minConfidence
  }

  /**
  In any history the request that closes an incident notes its diagnosis exactly when that is memorable: once, with its
  text, its evidence joined by "; ", its own confidence, a count of one, and the time of the close.
  */
  lemma CloseIsNoted(envs: nat -> Env, requests: seq<Request>, q: Request)
    requires Configured(envs) && AboutIncident(q) && q.id in After(envs, requests).cases
    requires !After(envs, requests).cases[q.id].incident.status.Closed?
    requires Step(envs, After(envs, requests), q).cases[q.id].incident.status.Closed?
    ensures var noted, k' := Noted(envs, After(envs, requests), q), Step(envs, After(envs, requests), q).cases[q.id];
      var d := k'.thread.state.diagnosis;
      if !Memorable(envs(q.id), d) then noted == []
      else
        && |noted| == 1 && noted[0].Confirm? && k'.incident.completedAt == Some(noted[0].row.createdAt)
        && Confirms(envs(q.id), d.value, noted[0].row) && noted[0].row.source == q.id
        && noted[0].row.confidence == d.value.confidence && noted[0].row.count == 1
  {
    var w := After(envs, requests);
    CaseAfter(envs, requests, q.id);
    StepCase(envs, w, q, q.id);
    ServedTable(envs(q.id), DeskOf(w, q.id), q);
    NotedExactly(envs(q.id), DeskOf(w, q.id), Served(envs(q.id), DeskOf(w, q.id), q));
    assert envs(q.id).incidentId == q.id;
  }

  lemma NotedExactly(env: Env, k: Desk, k': Desk)
    requires Closes(k, k') && k'.incident.completedAt.Some?
    ensures var noted, d := NotedBy(env, k, k'), k'.thread.state.diagnosis;
      if !Memorable(env, d) then noted == []
      else
        && |noted| == 1 && noted[0].Confirm? && k'.incident.completedAt == Some(noted[0].row.createdAt)
        && Confirms(env, d.value, noted[0].row)
        && noted[0].row.confidence == d.value.confidence && noted[0].row.count == 1
  {
    var r := ResultOf(env.deps, k'.thread);
    Memory.ConfirmedExactly(env.serviceId, env.incidentId, r.diagnosis, r.verdict, r.approval, env.minConfidence,
                            k'.incident.completedAt.value);
  }

  ghost function NotedAlong(envs: nat -> Env, w: World, requests: seq<Request>): seq<MemoryLedger.Event>
    decreases |requests|
  {
    if requests == [] then []
    else Noted(envs, w, requests[0]) + NotedAlong(envs, Step(envs, w, requests[0]), requests[1..])
  }

  lemma AfterAppend(events: seq<MemoryLedger.Event>, ev: MemoryLedger.Event)
    ensures MemoryLedger.After(events + [ev]) == MemoryLedger.Step(MemoryLedger.After(events), ev)
  {
    assert (events + [ev])[..|events|] == events;
  }

  ghost predicate Told(t: Memory.Table, events: seq<MemoryLedger.Event>) {
    t == MemoryLedger.After(events) && MemoryLedger.Fresh(events)
  }

  lemma ToldMore(t: Memory.Table, events: seq<MemoryLedger.Event>, ev: MemoryLedger.Event)
    requires Told(t, events) && (ev.Confirm? ==> ev.row.count == 1 && ev.row.confidence >= 0.0)
    ensures Told(MemoryLedger.Step(t, ev), events + [ev])
  {
    AfterAppend(events, ev);
  }

  lemma TableNoted(env: Env, k: Desk, k': Desk, events: seq<MemoryLedger.Event>)
    requires TableMoves(env, k, k') && Told(k.table, events)
    ensures Told(k'.table, events + NotedBy(env, k, k'))
  {
    var noted := NotedBy(env, k, k');
    if noted == [] {
      assert events + noted == events;
    } else {
      assert noted == [noted[0]];
      ToldMore(k.table, events, noted[0]);
    }
  }

  lemma StepNoted(envs: nat -> Env, w: World, q: Request, events: seq<MemoryLedger.Event>)
    requires WorldOk(envs, w) && Told(w.table, events)
    ensures Told(Step(envs, w, q).table, events + Noted(envs, w, q))
  {
    if AboutIncident(q) && q.id in w.cases {
      RequestNoted(envs, w, q, events);
    } else if q.DeleteMemory? {
      ToldMore(w.table, events, MemoryLedger.Erase(q.entry));
    } else {
      assert events + [] == events;
    }
  }

  lemma RequestNoted(envs: nat -> Env, w: World, q: Request, events: seq<MemoryLedger.Event>)
    requires WorldOk(envs, w) && Told(w.table, events) && AboutIncident(q) && q.id in w.cases
    ensures Told(Step(envs, w, q).table, events + Noted(envs, w, q))
  {
    var env, k := envs(q.id), DeskOf(w, q.id);
    assert DeskOk(env, k);
    ServedTable(env, k, q);
    StepCase(envs, w, q, q.id);
    TableNoted(env, k, Served(env, k, q), events);
    assert Noted(envs, w, q) == NotedBy(env, k, Served(env, k, q));
  }

  lemma Associative<T>(a: seq<T>, b: seq<T>, c: seq<T>)
    ensures (a + b) + c == a + (b + c)
  {
  }

  lemma {:induction false} MemoryRefines(envs: nat -> Env, w: World, requests: seq<Request>,
                                         events: seq<MemoryLedger.Event>)
    requires Configured(envs) && WorldOk(envs, w) && Told(w.table, events)
    ensures Told(Serve(envs, w, requests).table, events + NotedAlong(envs, w, requests))
    decreases |requests|
  {
    if requests == [] {
      assert events + [] == events;
    } else {
      var q := requests[0];
      var w' := Step(envs, w, q);
      StepNoted(envs, w, q, events);
      StepOk(envs, w, q);
      MemoryRefines(envs, w', requests[1..], events + Noted(envs, w, q));
      Associative(events, Noted(envs, w, q), NotedAlong(envs, w', requests[1..]));
    }
  }

  /** After any history, memory holds one row per confirmed pattern, counting its closes since its last deletion. */
  lemma MemoryCountsCloses(envs: nat -> Env, requests: seq<Request>, p: Memory.Pattern)
    requires Configured(envs)
    ensures var t, events := After(envs, requests).table, NotedAlong(envs, EMPTY, requests);
      && MemoryLedger.Clean(t)
      && (MemoryLedger.Present(t, p) <==> MemoryLedger.Confirmed(events, p) > 0)
      && (forall id :: Memory.InGroup(t, id, p) ==>
            && t.rows[id].count == MemoryLedger.Confirmed(events, p)
            && t.rows[id].confidence == MemoryLedger.Best(events, p)
            && MemoryLedger.IsLatest(t.rows[id], MemoryLedger.Last(events, p)))
  {
    var events := NotedAlong(envs, EMPTY, requests);
    MemoryRefines(envs, EMPTY, requests, []);
    assert [] + events == events;
    MemoryLedger.MemoryIsACount(events, p);
  }

  /** A row repeats the diagnosis of its source, one that passed the write gate. */
  ghost predicate Confirms(env: Env, d: Diagnosis, row: Memory.MemoryRow) {
    && row.service == env.serviceId && row.source == env.incidentId
    && row.fix == d.action && row.rootCause == d.text && row.symptom == Memory.Join(d.evidence)
    && row.fix != Escalate && d.confidence >= env.minConfidence
  }

  /** What an outcome in memory says is what happened to its source incident. */
  lemma OutcomeIsTrue(envs: nat -> Env, requests: seq<Request>, m: int)
    requires Configured(envs) && m in After(envs, requests).table.rows
    ensures var w := After(envs, requests);
      var row := w.table.rows[m];
      && row.source >= 0 && row.source in w.cases && w.cases[row.source].incident.status.Closed?
      && var th := w.cases[row.source].thread;
      && th.state.diagnosis.Some? && Confirms(envs(row.source), th.state.diagnosis.value, row)
      && (row.outcome == Memory.ApprovedAndExecuted <==>
            th.state.verdict == Some(RequireApproval) && th.state.remediation.Some?)
      && (row.outcome == Memory.Denied <==> th.answer.Some? && !th.answer.value.approved)
      && (row.outcome == Memory.Blocked <==> row.fix == DeleteData)
      && (row.outcome == Memory.Executed <==> Evaluate(row.fix) == Execute)
      && (row.outcome == Memory.Executed ==> (th.state.remediation.Some? <==> row.fix != NoAction))
      && row.outcome != Memory.UnknownOutcome
  {
    HistoryOk(envs, requests);
    var w := After(envs, requests);
    var row := w.table.rows[m];
    assert TrueRow(envs, w.cases, row);
    CaseAfter(envs, requests, row.source);
    TrueOutcome(envs(row.source), w.cases[row.source].incident, w.cases[row.source].thread, row);
  }

  /** A closed incident with a diagnosis was evaluated; an approval that was given also ran. */
  lemma ClosedEvaluated(env: Env, c: Incident, th: Thread)
    requires CaseOk(env, c, th) && c.status.Closed? && th.state.diagnosis.Some?
    ensures Evaluated(env.deps, th)
    ensures var a := th.state.diagnosis.value.action;
      && (Evaluate(a) == RequireApproval ==> (th.state.remediation.Some? <==> th.answer.value.approved))
      && (Evaluate(a) == Execute ==> (th.state.remediation.Some? <==> a != NoAction))
      && (Evaluate(a) in {Block, HandToHuman} ==> th.state.remediation.None?)
  {
    var a := th.state.diagnosis.value.action;
    if Evaluate(a) == RequireApproval && th.answer.value.approved {
      assert PlanFor(env.deps, a, th.answer).Some?;
    }
  }

  lemma TrueOutcome(env: Env, c: Incident, th: Thread, row: Memory.MemoryRow)
    requires CaseOk(env, c, th) && c.status.Closed? && ConfirmedBy(env, th, row.createdAt).Some?
    requires row == ConfirmedBy(env, th, row.createdAt).value.(count := row.count, confidence := row.confidence)
    ensures th.state.diagnosis.Some? && Confirms(env, th.state.diagnosis.value, row)
    ensures row.outcome == Memory.ApprovedAndExecuted <==>
      th.state.verdict == Some(RequireApproval) && th.state.remediation.Some?
    ensures row.outcome == Memory.Denied <==> th.answer.Some? && !th.answer.value.approved
    ensures row.outcome == Memory.Blocked <==> row.fix == DeleteData
    ensures row.outcome == Memory.Executed <==> Evaluate(row.fix) == Execute
    ensures row.outcome == Memory.Executed ==> (th.state.remediation.Some? <==> row.fix != NoAction)
    ensures row.outcome != Memory.UnknownOutcome
  {
    ClosedEvaluated(env, c, th);
  }
}
