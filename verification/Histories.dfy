/** What holds after any sequence of requests, crashes inside them and re-entries, over all incidents at once. */
module Histories {
  import opened Wrappers
  import opened Remediation
  import opened Idempotency
  import opened Durable
  import opened Investigation
  import opened CrashTransparency
  import opened Permission
  import opened Incidents
  import opened World
  import opened Lifecycle
  import Memory
  import MemoryLedger

  // --------------------------------------------------------- one incident

  /** Requests other than creation and memory deletion are about one incident. */
  predicate AboutIncident(q: Request) { q.Run? || q.Read? || q.Approve? || q.Reenter? }

  function Level(s: IncidentStatus): nat {
    match s case Open => 0 case Running => 1 case AwaitingApproval => 2 case Closed(_) => 3
  }

  /** Unchanged, or moved forward; the start is stamped once, and the audit log only grows. */
  ghost predicate Forward(c: Incident, c': Incident) {
    && (c' == c || Level(c.status) < Level(c'.status))
    && (c.startedAt.Some? ==> c'.startedAt == c.startedAt)
    && c.audit <= c'.audit
  }

  /** A closed incident answers every request as it is. */
  lemma ClosedAbsorbs(env: Env, k: Desk, q: Request)
    requires DeskOk(env, k) && k.incident.status.Closed? && AboutIncident(q)
    ensures Served(env, k, q) == k
  {
  }

  lemma AppliedForward(env: Env, c: Incident, table: Memory.Table, r: InvestigationResult, now: int, processId: string)
    requires c.status in {Running, AwaitingApproval}
    requires r.ending.Paused? ==> c.status == Running
    ensures Forward(c, Applied(env, c, table, r, now, processId).incident)
  {
  }

  lemma CheckedForward(env: Env, k: Desk, now: int, outcome: Outcome, later: int, processId: string)
    requires DeskOk(env, k)
    ensures Forward(k.incident, TimeoutChecked(env, k, now, outcome, later, processId).incident)
  {
    if Overdue(env, k.incident, now) {
      ResumedForward(env, k, TIMEOUT_DECISION, outcome, later, processId);
    }
  }

  lemma ResumedForward(env: Env, k: Desk, decision: Decision, outcome: Outcome, now: int, processId: string)
    requires DeskOk(env, k) && k.incident.status == AwaitingApproval
    requires decision.approved ==>
      ValidateParams(k.thread.state.diagnosis.value.action, decision.params, env.deps.boolOf).Some?
    ensures Forward(k.incident, Resumed(env, k, decision, outcome, now, processId).incident)
  {
    ResumedOk(env, k, decision, outcome, now, processId);
    if outcome == Clean {
      var d' := Invoked(env.deps, Durable(Answer(k.thread, decision), k.store), outcome);
      var r := ResultOf(env.deps, d'.thread);
      assert r.ending.Finished?;
      AppliedForward(env, k.incident, k.table, r, now, processId);
    }
  }

  lemma DecidedForward(env: Env, k: Desk, decision: Decision, outcome: Outcome, now: int, processId: string)
    requires DeskOk(env, k)
    ensures Forward(k.incident, Decided(env, k, decision, outcome, now, processId).incident)
  {
    if k.incident.status == AwaitingApproval && ParamsAccepted(env, k.incident, decision) {
      AcceptedParamsValid(env, k.incident, k.thread, decision);
      ResumedForward(env, k, decision, outcome, now, processId);
    }
  }

  lemma RanForward(env: Env, k: Desk, now: int, outcome: Outcome, later: int, processId: string)
    requires DeskOk(env, k)
    ensures Forward(k.incident, Ran(env, k, now, outcome, later, processId).incident)
  {
    if k.incident.status == Open {
      var c := k.incident.(status := Running, startedAt := Some(now));
      var d' := Invoked(env.deps, Durable(START, k.store), outcome);
      AppliedForward(env, c, k.table, ResultOf(env.deps, d'.thread), later, processId);
    }
  }

  lemma ForwardTwice(c: Incident, c': Incident, c'': Incident)
    requires Forward(c, c') && Forward(c', c'')
    ensures Forward(c, c'')
  {
  }

  lemma ServedForward(env: Env, k: Desk, q: Request)
    requires DeskOk(env, k) && AboutIncident(q)
    ensures Forward(k.incident, Served(env, k, q).incident)
  {
    match q
    case Run(_, now, outcome, later, processId) => RanForward(env, k, now, outcome, later, processId);
    case Read(_, now, timeout, later, processId) => CheckedForward(env, k, now, timeout, later, processId);
    case Approve(_, approved, actor, params, now, timeout, _, outcome, later, processId) =>
      var checked := TimeoutChecked(env, k, now, timeout, later, processId);
      CheckedForward(env, k, now, timeout, later, processId);
      CheckedOk(env, k, now, timeout, later, processId);
      var decision := Decision(approved, actor, params, false);
      DecidedForward(env, checked, decision, outcome, later, processId);
      ForwardTwice(k.incident, checked.incident, Decided(env, checked, decision, outcome, later, processId).incident);
    case Reenter(_, _) =>
  }

  // ------------------------------------------------------- service memory

  predicate Closes(k: Desk, k': Desk) { !k.incident.status.Closed? && k'.incident.status.Closed? }

  /** The row a closed incident's own state confirms, written at `at`. */
  function ConfirmedBy(env: Env, th: Thread, at: int): Option<Memory.MemoryRow> {
    CloseRow(env, ResultOf(env.deps, th), at)
  }

  /** Memory moves only when an incident closes, and then by what the closed thread confirms. */
  ghost predicate TableMoves(env: Env, k: Desk, k': Desk) {
    if Closes(k, k')
    then k'.incident.completedAt.Some?
         && k'.table == Remembered(env, k.table, ResultOf(env.deps, k'.thread), k'.incident.completedAt.value)
    else k'.table == k.table
  }

  lemma SettledTable(env: Env, k: Desk, d: Durable, outcome: Outcome, now: int, processId: string)
    requires !k.incident.status.Closed?
    ensures TableMoves(env, k, Settled(env, k, d, outcome, now, processId))
  {
  }

  lemma ServedTable(env: Env, k: Desk, q: Request)
    requires DeskOk(env, k) && AboutIncident(q)
    ensures TableMoves(env, k, Served(env, k, q))
  {
    match q
    case Run(_, now, outcome, later, processId) =>
      if k.incident.status == Open {
        var c := k.incident.(status := Running, startedAt := Some(now));
        SettledTable(env, k.(incident := c), Durable(START, k.store), outcome, later, processId);
      }
    case Read(_, now, timeout, later, processId) => CheckedTable(env, k, now, timeout, later, processId);
    case Approve(_, approved, actor, params, now, timeout, _, outcome, later, processId) =>
      var checked := TimeoutChecked(env, k, now, timeout, later, processId);
      var decision := Decision(approved, actor, params, false);
      CheckedTable(env, k, now, timeout, later, processId);
      if Decided(env, checked, decision, outcome, later, processId) != checked {
        var th := if outcome == Unstarted then checked.thread else Answer(checked.thread, decision);
        SettledTable(env, checked, Durable(th, checked.store), outcome, later, processId);
      }
    case Reenter(_, _) =>
  }

  lemma CheckedTable(env: Env, k: Desk, now: int, outcome: Outcome, later: int, processId: string)
    ensures TableMoves(env, k, TimeoutChecked(env, k, now, outcome, later, processId))
  {
    if Overdue(env, k.incident, now) {
      var th := if outcome == Unstarted then k.thread else Answer(k.thread, TIMEOUT_DECISION);
      SettledTable(env, k, Durable(th, k.store), outcome, later, processId);
    }
  }

  /** A memory row says what its source incident, closed, itself confirms; only count and confidence are merged. */
  ghost predicate TrueRow(envs: nat -> Env, cases: map<nat, Case>, row: Memory.MemoryRow) {
    && row.source >= 0 && row.source in cases && cases[row.source].incident.status.Closed?
    && var own := ConfirmedBy(envs(row.source), cases[row.source].thread, row.createdAt);
    && own.Some? && row == own.value.(count := row.count, confidence := row.confidence)
  }

  ghost predicate TrueTable(envs: nat -> Env, cases: map<nat, Case>, table: Memory.Table) {
    && MemoryLedger.Sound(table) && MemoryLedger.Clean(table)
    && forall id :: id in table.rows ==> TrueRow(envs, cases, table.rows[id])
  }

  /** Closing writes a true row and merges true rows of one pattern into the newest of them. */
  lemma CloseKeepsTrue(envs: nat -> Env, cases: map<nat, Case>, table: Memory.Table, row: Memory.MemoryRow)
    requires TrueTable(envs, cases, table) && TrueRow(envs, cases, row) && row.count == 1 && row.confidence >= 0.0
    ensures TrueTable(envs, cases, MemoryLedger.Close(table, row))
  {
    var t := Memory.Write(table, row);
    MemoryLedger.CloseClean(table, row);
    var c := MemoryLedger.Close(table, row);
    forall id | id in c.rows ensures TrueRow(envs, cases, c.rows[id]) {
      MemoryLedger.ConsolidatedRow(t, row.service, id);
      assert TrueRow(envs, cases, t.rows[id]);
    }
  }

  lemma DeleteKeepsTrue(envs: nat -> Env, cases: map<nat, Case>, table: Memory.Table, entry: int)
    requires TrueTable(envs, cases, table)
    ensures TrueTable(envs, cases, Memory.Delete(table, entry))
  {
  }

  /** Closed incidents do not change, so what was true of them stays true. */
  lemma StaysTrue(envs: nat -> Env, cases: map<nat, Case>, cases': map<nat, Case>, table: Memory.Table)
    requires TrueTable(envs, cases, table)
    requires forall id :: id in cases && cases[id].incident.status.Closed? ==> id in cases' && cases'[id] == cases[id]
    ensures TrueTable(envs, cases', table)
  {
    forall id | id in table.rows ensures TrueRow(envs, cases', table.rows[id]) {
      assert TrueRow(envs, cases, table.rows[id]);
    }
  }

  // -------------------------------------------------------- the whole world

  ghost predicate HasOwner(cases: map<nat, Case>, threadId: string) {
    exists id: nat :: id in cases && threadId == ThreadId(id)
  }

  /** Every run and every row belongs to an incident that exists. */
  ghost predicate Owned(w: World) {
    && (forall i :: 0 <= i < |w.store.runs| ==> HasOwner(w.cases, w.store.runs[i].threadId))
    && (forall k :: k in w.store.rows ==> HasOwner(w.cases, w.store.rows[k].threadId))
  }

  ghost predicate CasesOk(envs: nat -> Env, w: World) {
    forall id :: id in w.cases ==> DeskOk(envs(id), DeskOf(w, id))
  }

  ghost predicate WorldOk(envs: nat -> Env, w: World) {
    CasesOk(envs, w) && Keyed(w.store.rows) && Owned(w) && TrueTable(envs, w.cases, w.table)
  }

  lemma OwnerStays(cases: map<nat, Case>, cases': map<nat, Case>, threadId: string)
    requires HasOwner(cases, threadId) && cases.Keys <= cases'.Keys
    ensures HasOwner(cases', threadId)
  {
    var id: nat :| id in cases && threadId == ThreadId(id);
    assert id in cases.Keys;
  }

  lemma OwnersStay(w: World, w': World)
    requires Owned(w) && w'.store == w.store && w.cases.Keys <= w'.cases.Keys
    ensures Owned(w')
  {
    forall t | HasOwner(w.cases, t) ensures HasOwner(w'.cases, t) { OwnerStays(w.cases, w'.cases, t); }
  }

  lemma NotOwned(w: World, id: nat)
    requires id !in w.cases
    ensures !HasOwner(w.cases, ThreadId(id))
  {
    if HasOwner(w.cases, ThreadId(id)) {
      var j: nat :| j in w.cases && ThreadId(id) == ThreadId(j);
      ThreadIdInjective(id, j);
    }
  }

  /** An id not handed out yet has a thread nobody has used. */
  lemma NewThreadUntouched(w: World, id: nat)
    requires Owned(w) && id !in w.cases
    ensures Untouched(w.store, ThreadId(id))
  {
    NotOwned(w, id);
  }

  lemma OpenedOk(env: Env, store: Store, table: Memory.Table)
    requires Keyed(store.rows) && Untouched(store, env.deps.threadId)
    ensures DeskOk(env, Desk(OPENED, START, store, table))
  {
    StartAccounted(env.deps, store);
    assert Accounted(env.deps, Durable(START, store), 0);
    StartSound(env.deps);
  }

  lemma CreatedCases(envs: nat -> Env, w: World, id: nat, w': World)
    requires CasesOk(envs, w) && id !in w.cases && DeskOk(envs(id), Desk(OPENED, START, w.store, w.table))
    requires w' == World(w.cases[id := Case(OPENED, START)], w.store, w.table)
    ensures CasesOk(envs, w')
  {
    forall j | j in w'.cases ensures DeskOk(envs(j), DeskOf(w', j)) {
      if j == id {
        assert DeskOf(w', j) == Desk(OPENED, START, w.store, w.table);
      } else {
        assert DeskOf(w', j) == DeskOf(w, j);
      }
    }
  }

  lemma NewDeskOk(envs: nat -> Env, w: World, id: nat)
    requires Configured(envs) && Keyed(w.store.rows) && Owned(w) && id !in w.cases
    ensures DeskOk(envs(id), Desk(OPENED, START, w.store, w.table))
  {
    NewThreadUntouched(w, id);
    assert envs(id).deps.threadId == ThreadId(id);
    OpenedOk(envs(id), w.store, w.table);
  }

  ghost predicate Kept(cases: map<nat, Case>, cases': map<nat, Case>) {
    forall id :: id in cases ==> id in cases' && cases'[id] == cases[id]
  }

  lemma KeptStaysTrue(envs: nat -> Env, cases: map<nat, Case>, cases': map<nat, Case>, table: Memory.Table)
    requires TrueTable(envs, cases, table) && Kept(cases, cases')
    ensures TrueTable(envs, cases', table)
  {
    StaysTrue(envs, cases, cases', table);
  }

  lemma KeptOwned(w: World, w': World)
    requires Owned(w) && w'.store == w.store && Kept(w.cases, w'.cases)
    ensures Owned(w')
  {
    assert forall id :: id in w.cases.Keys ==> id in w'.cases.Keys;
    OwnersStay(w, w');
  }

  lemma CreateOk(envs: nat -> Env, w: World, id: nat, w': World)
    requires Configured(envs) && WorldOk(envs, w) && id !in w.cases
    requires w' == World(w.cases[id := Case(OPENED, START)], w.store, w.table)
    ensures WorldOk(envs, w')
  {
    assert Kept(w.cases, w'.cases);
    KeptOwned(w, w');
    NewDeskOk(envs, w, id);
    CreatedCases(envs, w, id, w');
    KeptStaysTrue(envs, w.cases, w'.cases, w.table);
  }

  lemma DeletedCases(envs: nat -> Env, w: World, table: Memory.Table)
    requires CasesOk(envs, w)
    ensures CasesOk(envs, w.(table := table))
  {
    var w' := w.(table := table);
    forall j | j in w'.cases ensures DeskOk(envs(j), DeskOf(w', j)) {
      assert DeskOk(envs(j), DeskOf(w, j));
    }
  }

  // ------------------------------------------------------------ one request

  lemma OwnersGrow(w: World, id: nat, k': Desk)
    requires Owned(w) && id in w.cases && Grown(w.store, k'.store, ThreadId(id))
    ensures Owned(PutBack(w, id, k'))
  {
    var w' := PutBack(w, id, k');
    assert id in w'.cases && HasOwner(w'.cases, ThreadId(id));
    forall t | HasOwner(w.cases, t) ensures HasOwner(w'.cases, t) { OwnerStays(w.cases, w'.cases, t); }
    forall i | 0 <= i < |w'.store.runs| ensures HasOwner(w'.cases, w'.store.runs[i].threadId) {
      if i < |w.store.runs| {
        assert w'.store.runs[i] == w'.store.runs[..|w.store.runs|][i];
        assert HasOwner(w.cases, w.store.runs[i].threadId);
      }
    }
  }

  lemma OthersOk(envs: nat -> Env, w: World, id: nat, k': Desk)
    requires Configured(envs) && CasesOk(envs, w) && id in w.cases
    requires DeskOk(envs(id), k') && Grown(w.store, k'.store, ThreadId(id)) && Keyed(k'.store.rows)
    ensures CasesOk(envs, PutBack(w, id, k'))
  {
    var w' := PutBack(w, id, k');
    forall j | j in w'.cases ensures DeskOk(envs(j), DeskOf(w', j)) {
      if j == id {
        assert DeskOf(w', j).(table := k'.table) == k';
      } else {
        assert DeskOk(envs(j), DeskOf(w, j));
        if ThreadId(j) == ThreadId(id) { ThreadIdInjective(j, id); }
        assert envs(j).deps.threadId == ThreadId(j);
        OthersKeepAccount(envs(j).deps, w.cases[j].thread, w.store, k'.store, ThreadId(id));
      }
    }
  }

  /** What the closing incident confirms is true of it. */
  lemma TableOk(envs: nat -> Env, w: World, id: nat, k': Desk)
    requires Configured(envs) && id in w.cases && TrueTable(envs, w.cases, w.table)
    requires TableMoves(envs(id), DeskOf(w, id), k')
    requires w.cases[id].incident.status.Closed? ==> k' == DeskOf(w, id)
    ensures TrueTable(envs, PutBack(w, id, k').cases, k'.table)
  {
    var w' := PutBack(w, id, k');
    StaysTrue(envs, w.cases, w'.cases, w.table);
    if Closes(DeskOf(w, id), k') {
      var at := k'.incident.completedAt.value;
      var own := ConfirmedBy(envs(id), k'.thread, at);
      if own.Some? {
        assert envs(id).incidentId == id;
        assert TrueRow(envs, w'.cases, own.value);
        CloseKeepsTrue(envs, w'.cases, w.table, own.value);
      }
    }
  }

  lemma StepOk(envs: nat -> Env, w: World, q: Request)
    requires Configured(envs) && WorldOk(envs, w)
    ensures WorldOk(envs, Step(envs, w, q))
  {
    match q
    case Create(id) => if id !in w.cases { CreateOk(envs, w, id, Step(envs, w, q)); }
    case DeleteMemory(entry) =>
      DeleteKeepsTrue(envs, w.cases, w.table, entry);
      var w' := Step(envs, w, q);
      OwnersStay(w, w');
      DeletedCases(envs, w, w'.table);
    case _ => if q.id in w.cases { RequestOk(envs, w, q); }
  }

  lemma RequestOk(envs: nat -> Env, w: World, q: Request)
    requires Configured(envs) && WorldOk(envs, w) && AboutIncident(q) && q.id in w.cases
    ensures WorldOk(envs, PutBack(w, q.id, Served(envs(q.id), DeskOf(w, q.id), q)))
  {
    var env, k := envs(q.id), DeskOf(w, q.id);
    assert env.deps.threadId == ThreadId(q.id);
    assert DeskOk(env, k);
    var k' := Served(env, k, q);
    ServedOk(env, k, q);
    ServedGrows(env, k, q);
    ServedTable(env, k, q);
    if k.incident.status.Closed? { ClosedAbsorbs(env, k, q); }
    KeyedDesk(env, k');
    OwnersGrow(w, q.id, k');
    OthersOk(envs, w, q.id, k');
    TableOk(envs, w, q.id, k');
  }

  lemma KeyedDesk(env: Env, k: Desk)
    requires DeskOk(env, k)
    ensures Keyed(k.store.rows)
  {
  }

  lemma {:induction false} ServeOk(envs: nat -> Env, w: World, requests: seq<Request>)
    requires Configured(envs) && WorldOk(envs, w)
    ensures WorldOk(envs, Serve(envs, w, requests))
    decreases |requests|
  {
    if requests != [] {
      StepOk(envs, w, requests[0]);
      ServeOk(envs, Step(envs, w, requests[0]), requests[1..]);
    }
  }

  lemma HistoryOk(envs: nat -> Env, requests: seq<Request>)
    requires Configured(envs)
    ensures WorldOk(envs, Serve(envs, EMPTY, requests))
  {
    ServeOk(envs, EMPTY, requests);
  }
}
