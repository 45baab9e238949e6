/**
All incidents over the shared stores: every sequence of API requests, crashes inside them, and re-entries.

Requests come one after another; each says how far its graph invocations got.  A crash while an investigation runs
leaves the incident `running`, and nothing but a re-entry of its graph moves the thread on.
*/
module World {
  import opened Wrappers
  import opened CanonicalJson
  import opened Remediation
  import opened Idempotency
  import opened Nodes
  import opened Durable
  import opened Investigation
  import opened CrashTransparency
  import opened Permission
  import opened Incidents
  import Memory

  datatype Case = Case(incident: Incident, thread: Thread)

  datatype World = World(cases: map<nat, Case>, store: Store, table: Memory.Table)

  const NO_STORE := Store(map[], [])

  const EMPTY := World(map[], NO_STORE, Memory.Table(map[], 0))

  function ThreadId(id: nat): string { "incident-" + PrintNat(id, "") }

  lemma ThreadIdInjective(i: nat, j: nat)
    requires ThreadId(i) == ThreadId(j)
    ensures i == j
  {
    assert ThreadId(i)[|"incident-"|..] == PrintNat(i, "") && ThreadId(j)[|"incident-"|..] == PrintNat(j, "");
    PrintNatInjective(i, j);
  }

  /** Each incident runs on its own thread. */
  ghost predicate Configured(envs: nat -> Env) {
    forall id: nat :: envs(id).deps.threadId == ThreadId(id) && envs(id).incidentId == id
  }

  datatype Request =
    | Create(id: nat)
    | Run(id: nat, now: int, outcome: Outcome, later: int, processId: string)
    | Read(id: nat, now: int, timeout: Outcome, later: int, processId: string)
    | Approve(id: nat, approved: bool, actor: string, params: Json, now: int, timeout: Outcome, survives: bool,
              outcome: Outcome, later: int, processId: string)
    | Reenter(id: nat, fate: Fate)
    | DeleteMemory(entry: int)

  /** A timeout that raised is caught and the request goes on; one that took the process with it ends the request. */
  ghost function Approved(env: Env, k: Desk, q: Request): Desk
    requires q.Approve?
  {
    var checked := TimeoutChecked(env, k, q.now, q.timeout, q.later, q.processId);
    if Overdue(env, k.incident, q.now) && q.timeout != Clean && !q.survives then checked
    else Decided(env, checked, Decision(q.approved, q.actor, q.params, false), q.outcome, q.later, q.processId)
  }

  ghost function Served(env: Env, k: Desk, q: Request): Desk
    requires q.Run? || q.Read? || q.Approve? || q.Reenter?
  {
    match q
    case Run(_, now, outcome, later, processId) => Ran(env, k, now, outcome, later, processId)
    case Read(_, now, timeout, later, processId) => TimeoutChecked(env, k, now, timeout, later, processId)
    case Approve(_, _, _, _, _, _, _, _, _, _) => Approved(env, k, q)
    case Reenter(_, fate) =>
      if k.incident.status == Open then k else
      var d := Enter(env.deps, Durable(k.thread, k.store), fate);
      Desk(k.incident, d.thread, d.store, k.table)
  }

  function DeskOf(w: World, id: nat): Desk
    requires id in w.cases
  {
    Desk(w.cases[id].incident, w.cases[id].thread, w.store, w.table)
  }

  function PutBack(w: World, id: nat, k: Desk): World {
    World(w.cases[id := Case(k.incident, k.thread)], k.store, k.table)
  }

  ghost function Step(envs: nat -> Env, w: World, q: Request): World {
    match q
    case Create(id) => if id in w.cases then w else w.(cases := w.cases[id := Case(OPENED, START)])
    case DeleteMemory(entry) => w.(table := Memory.Delete(w.table, entry))
    case _ => if q.id in w.cases then PutBack(w, q.id, Served(envs(q.id), DeskOf(w, q.id), q)) else w
  }

  ghost function Serve(envs: nat -> Env, w: World, requests: seq<Request>): World
    decreases |requests|
  {
    if requests == [] then w else Serve(envs, Step(envs, w, requests[0]), requests[1..])
  }

  // ---------------------------------------------------------- one thread

  /** Past the loop: nothing the audit log shows changes any more. */
  ghost predicate Frozen(th: Thread, th': Thread) {
    && th'.next != AtGather && (th.next in {AtEvaluate, AtDecide, AtEnd} ==> th'.next in {AtEvaluate, AtDecide, AtEnd})
    && th'.state.evidence == th.state.evidence && th'.state.steps == th.state.steps && th'.state.cost == th.state.cost
    && th'.state.diagnosis == th.state.diagnosis && th'.state.providerError == th.state.providerError
  }

  lemma EnterFreezes(deps: Deps, d: Durable, fate: Fate)
    requires d.thread.next != AtGather
    ensures Frozen(d.thread, Enter(deps, d, fate).thread)
  {
  }

  lemma EnterKeepsAnswer(deps: Deps, d: Durable, fate: Fate)
    ensures Enter(deps, d, fate).thread.answer == d.thread.answer
  {
  }

  ghost predicate Attempts(events: seq<Event>) { forall i :: 0 <= i < |events| ==> events[i].Attempt? }

  lemma {:induction false} AttemptsKeep(deps: Deps, d: Durable, events: seq<Event>)
    requires Attempts(events)
    ensures Sched(deps, d, events).thread.answer == d.thread.answer
    ensures d.thread.next != AtGather ==> Frozen(d.thread, Sched(deps, d, events).thread)
    decreases |events|
  {
    if events != [] {
      var d' := Enter(deps, d, events[0].fate);
      assert Happen(deps, d, events[0]) == d';
      EnterKeepsAnswer(deps, d, events[0].fate);
      if d.thread.next != AtGather { EnterFreezes(deps, d, events[0].fate); }
      AttemptsKeep(deps, d', events[1..]);
    }
  }

  /** Every invocation, whole or cut short, is a schedule of attempts. */
  lemma InvokedIsSched(deps: Deps, d: Durable, outcome: Outcome) returns (events: seq<Event>)
    ensures Sched(deps, d, events) == Invoked(deps, d, outcome) && Attempts(events)
  {
    match outcome
    case Clean => events := RestIsSched(deps, d);
    case Unstarted => events := [];
    case Died(nodes, point) => events := PartWayIsSched(deps, d, nodes, point);
  }

  ghost predicate ValidAnswer(env: Env, th: Thread) {
    th.answer.Some? && th.answer.value.approved ==>
      th.state.diagnosis.Some?
      && ValidateParams(th.state.diagnosis.value.action, th.answer.value.params, env.deps.boolOf).Some?
  }

  ghost predicate AccountedFor(deps: Deps, d: Durable) { exists lost: nat :: Accounted(deps, d, lost) }

  lemma InvokedKeeps(env: Env, d: Durable, outcome: Outcome)
    requires Sound(env.deps, d.thread) && AccountedFor(env.deps, d)
    ensures var d' := Invoked(env.deps, d, outcome);
      Sound(env.deps, d'.thread) && AccountedFor(env.deps, d')
  {
    var events := InvokedIsSched(env.deps, d, outcome);
    SchedKeepsSound(env.deps, d, events);
    var lost: nat :| Accounted(env.deps, d, lost);
    SchedAccounted(env.deps, d, events, lost);
  }

  lemma InvokedFreezes(env: Env, d: Durable, outcome: Outcome)
    ensures var d' := Invoked(env.deps, d, outcome);
      d'.thread.answer == d.thread.answer && (d.thread.next != AtGather ==> Frozen(d.thread, d'.thread))
  {
    var events := InvokedIsSched(env.deps, d, outcome);
    AttemptsKeep(env.deps, d, events);
  }

  // ------------------------------------------------------- threads apart

  /** A store reached from another by runs and rows of one thread. */
  ghost predicate Grown(s: Store, s': Store, threadId: string) {
    && |s.runs| <= |s'.runs| && s'.runs[..|s.runs|] == s.runs
    && (forall i :: |s.runs| <= i < |s'.runs| ==> s'.runs[i].threadId == threadId)
    && (forall k :: k in s.rows ==> k in s'.rows && s'.rows[k] == s.rows[k])
    && (forall k :: k in s'.rows ==> k in s.rows || s'.rows[k].threadId == threadId)
  }

  lemma GrownTwice(s: Store, s': Store, s'': Store, threadId: string)
    requires Grown(s, s', threadId) && Grown(s', s'', threadId)
    ensures Grown(s, s'', threadId)
  {
    assert s''.runs[..|s.runs|] == s''.runs[..|s'.runs|][..|s.runs|];
    assert forall i :: 0 <= i < |s'.runs| ==> s''.runs[i] == s''.runs[..|s'.runs|][i];
  }

  lemma EnterGrows(deps: Deps, d: Durable, fate: Fate)
    ensures Grown(d.store, Enter(deps, d, fate).store, deps.threadId)
  {
    EnterRuns(deps, d, fate);
  }

  lemma {:induction false} SchedGrows(deps: Deps, d: Durable, events: seq<Event>)
    requires Attempts(events)
    ensures Grown(d.store, Sched(deps, d, events).store, deps.threadId)
    decreases |events|
  {
    if events != [] {
      var d' := Enter(deps, d, events[0].fate);
      EnterGrows(deps, d, events[0].fate);
      SchedGrows(deps, d', events[1..]);
      GrownTwice(d.store, d'.store, Sched(deps, d, events).store, deps.threadId);
    }
  }

  lemma InvokedGrows(deps: Deps, d: Durable, outcome: Outcome)
    ensures Grown(d.store, Invoked(deps, d, outcome).store, deps.threadId)
  {
    var events := InvokedIsSched(deps, d, outcome);
    SchedGrows(deps, d, events);
  }

  lemma CheckedGrows(env: Env, k: Desk, now: int, outcome: Outcome, later: int, processId: string)
    ensures Grown(k.store, TimeoutChecked(env, k, now, outcome, later, processId).store, env.deps.threadId)
  {
    var th := if outcome == Unstarted then k.thread else Answer(k.thread, TIMEOUT_DECISION);
    InvokedGrows(env.deps, Durable(th, k.store), outcome);
  }

  lemma DecidedGrows(env: Env, k: Desk, decision: Decision, outcome: Outcome, now: int, processId: string)
    ensures Grown(k.store, Decided(env, k, decision, outcome, now, processId).store, env.deps.threadId)
  {
    var th := if outcome == Unstarted then k.thread else Answer(k.thread, decision);
    InvokedGrows(env.deps, Durable(th, k.store), outcome);
  }

  lemma ServedGrows(env: Env, k: Desk, q: Request)
    requires q.Run? || q.Read? || q.Approve? || q.Reenter?
    ensures Grown(k.store, Served(env, k, q).store, env.deps.threadId)
  {
    match q
    case Run(_, now, outcome, later, processId) => InvokedGrows(env.deps, Durable(START, k.store), outcome);
    case Read(_, now, timeout, later, processId) => CheckedGrows(env, k, now, timeout, later, processId);
    case Approve(_, approved, actor, params, now, timeout, _, outcome, later, processId) =>
      var checked := TimeoutChecked(env, k, now, timeout, later, processId);
      CheckedGrows(env, k, now, timeout, later, processId);
      var decision := Decision(approved, actor, params, false);
      DecidedGrows(env, checked, decision, outcome, later, processId);
      GrownTwice(k.store, checked.store, Decided(env, checked, decision, outcome, later, processId).store,
                 env.deps.threadId);
    case Reenter(_, fate) => EnterGrows(env.deps, Durable(k.thread, k.store), fate);
  }

  lemma {:induction false} OwnRunsGrown(runs: seq<Execution>, runs': seq<Execution>, threadId: string, other: string)
    requires |runs| <= |runs'| && runs'[..|runs|] == runs && threadId != other
    requires forall i :: |runs| <= i < |runs'| ==> runs'[i].threadId == threadId
    ensures OwnRuns(runs', other) == OwnRuns(runs, other)
    decreases |runs'|
  {
    if |runs'| == |runs| {
      assert runs' == runs;
    } else {
      var before := runs'[..|runs'| - 1];
      assert before[..|runs|] == runs;
      OwnRunsGrown(runs, before, threadId, other);
    }
  }

  /** What one thread adds to the store changes no other thread's account. */
  lemma OthersKeepAccount(other: Deps, th: Thread, s: Store, s': Store, threadId: string)
    requires AccountedFor(other, Durable(th, s)) && Grown(s, s', threadId) && Keyed(s'.rows)
    requires threadId != other.threadId
    ensures AccountedFor(other, Durable(th, s'))
  {
    var n: nat :| Accounted(other, Durable(th, s), n);
    OwnRunsGrown(s.runs, s'.runs, threadId, other.threadId);
    var plan := Plan(other, th);
    forall k | Own(s'.rows, other.threadId, k) ensures plan.Some? && k == RunKey(plan.value) {
      assert Own(s.rows, other.threadId, k);
    }
    forall i | 0 <= i < |s'.runs| && s'.runs[i].threadId == other.threadId ensures plan == Some(s'.runs[i]) {
      assert s'.runs[i] == s'.runs[..|s.runs|][i];
    }
    if plan.Some? {
      PlanIsJustified(other, th, plan.value);
      if RunKey(plan.value) in s'.rows { OwnKey(s'.rows, plan.value); }
    }
    assert Accounted(other, Durable(th, s'), n);
  }
}
