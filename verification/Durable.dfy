/**
The investigation graph over its durable checkpoint.

A thread is what the checkpointer holds: the node to enter next, the merged state, and the answer recorded for
the approval interrupt.  A node's writes and the edge taken are checkpointed together, so a crash inside a node
loses the node's work and nothing else; entering again starts it from the top.  An interrupt that was answered
replays its first recorded answer, and a finished thread is left as it is.
*/
module Durable {
  import opened Wrappers
  import opened Policy
  import opened Remediation
  import opened ChatClient
  import opened Schemas
  import opened Idempotency
  import opened Nodes

  datatype Node = AtGather | AtHypothesize | AtClassify | AtEvaluate | AtDecide | AtEnd

  datatype Thread = Thread(next: Node, state: GraphState, answer: Option<Decision>)

  datatype Durable = Durable(thread: Thread, store: Store)

  const START := Thread(AtGather, INITIAL_STATE, None)

  /** Where inside the node being entered the process stops. */
  datatype Point = BeforeExecutor | AfterExecutor | AfterCommit

  datatype Fate = Whole | Stopped(point: Point)

  /** `evaluate_policy` has raised its interrupt and nobody has answered. */
  predicate AwaitsAnswer(th: Thread) {
    th.next == AtEvaluate && th.state.diagnosis.Some? && Evaluate(th.state.diagnosis.value.action) == RequireApproval
    && th.answer.None?
  }

  predicate AtRest(th: Thread) { th.next == AtEnd || AwaitsAnswer(th) }

  /** The next visit of `gather_context` raises instead of returning. */
  predicate Stuck(deps: Deps, th: Thread) { th.next == AtGather && Gather(deps, th.state).Raised? }

  function AfterRoute(r: Route): Node {
    match r case Continue => AtGather case ToHypothesize => AtHypothesize case Ceiling => AtDecide
  }

  function Advance(th: Thread, u: Update, next: Node): Thread { Thread(next, Merge(th.state, u), th.answer) }

  /** What the table and the world keep of an attempt that stopped inside its node. */
  function StoreWhenStopped(deps: Deps, d: Durable, point: Point): Store {
    if d.thread.next != AtEvaluate || d.thread.state.diagnosis.None? then d.store else
    match PlanFor(deps, d.thread.state.diagnosis.value.action, d.thread.answer)
    case None => d.store
    case Some(call) =>
      var run := RunOf(deps, call);
      if RunKey(run) in d.store.rows || point == BeforeExecutor then d.store
      else if point == AfterExecutor then Store(d.store.rows, d.store.runs + [run])
      else Claimed(d.store, run, call.result).store
  }

  /** One entry into the thread's current node. */
  function Enter(deps: Deps, d: Durable, fate: Fate): Durable {
    var th := d.thread;
    if AtRest(th) then d
    else if fate.Stopped? then Durable(th, StoreWhenStopped(deps, d, fate.point))
    else match th.next
    case AtGather =>
      (match Gather(deps, th.state)
       case Raised(_) => d
       case Wrote(u) =>
         Durable(Advance(th, u, AfterRoute(RouteAfterGather(deps, Merge(th.state, u)))), d.store))
    case AtHypothesize => Durable(Advance(th, Hypothesis(deps, th.state), AtClassify), d.store)
    case AtClassify => Durable(Advance(th, RiskPreview(th.state), AtEvaluate), d.store)
    case AtEvaluate =>
      (match th.state.diagnosis
       case None =>
         var none := NO_UPDATE.(verdict := Some(None), remediation := Some(None), approval := Some(None));
         Durable(Advance(th, none, AtDecide), d.store)
       case Some(dg) =>
         var r := Resolve(deps, d.store, dg, Evaluate(dg.action), th.answer);
         Durable(Advance(th, r.update, AtDecide), r.store))
    case AtDecide =>
      Durable(Advance(th, NO_UPDATE.(status := Some(Some(FinalStatus(deps, th.state)))), AtEnd), d.store)
    case AtEnd => d
  }

  /** Recording an answer; one that is there already is kept. */
  function Answer(th: Thread, decision: Decision): Thread {
    if AwaitsAnswer(th) then th.(answer := Some(decision)) else th
  }

  // ------------------------------------------------------------ termination

  function AtLeastOne(n: int): nat { if n < 1 then 1 else n }

  /** How many nodes are still to complete, at most. */
  function Rank(deps: Deps, th: Thread): nat {
    match th.next
    case AtGather => 4 + AtLeastOne(deps.maxSteps - th.state.steps)
    case AtHypothesize => 4
    case AtClassify => 3
    case AtEvaluate => 2
    case AtDecide => 1
    case AtEnd => 0
  }

  lemma EnterRank(deps: Deps, d: Durable, fate: Fate)
    ensures fate == Whole && !AtRest(d.thread) && !Stuck(deps, d.thread) ==>
      Rank(deps, Enter(deps, d, fate).thread) < Rank(deps, d.thread)
    ensures fate != Whole || AtRest(d.thread) || Stuck(deps, d.thread) ==> Enter(deps, d, fate).thread == d.thread
  {
  }

  /** An invocation that nothing disturbs: to a pause, to the end, or to an exception. */
  function Rest(deps: Deps, d: Durable): Durable
    decreases Rank(deps, d.thread)
  {
    if AtRest(d.thread) || Stuck(deps, d.thread) then d
    else EnterRank(deps, d, Whole); Rest(deps, Enter(deps, d, Whole))
  }

  /** An invocation that dies at `point` of the node after the next `n`. */
  function PartWay(deps: Deps, d: Durable, n: nat, point: Point): Durable
    decreases n
  {
    if n == 0 then Enter(deps, d, Stopped(point)) else PartWay(deps, Enter(deps, d, Whole), n - 1, point)
  }

  /** Provider calls made by an undisturbed invocation, those of a visit that raises included. */
  function ProviderCalls(deps: Deps, d: Durable): nat
    decreases Rank(deps, d.thread)
  {
    if AtRest(d.thread) then 0
    else if Stuck(deps, d.thread) then ProviderAttempts(deps, d.thread.state.messages) else
    EnterRank(deps, d, Whole);
    (if d.thread.next == AtGather then ProviderAttempts(deps, d.thread.state.messages) else 0)
    + ProviderCalls(deps, Enter(deps, d, Whole))
  }

  function AttemptsPerCall(deps: Deps): nat { (if deps.maxRetries < 0 then 0 else deps.maxRetries) + 1 }

  lemma AttemptsBounded(deps: Deps, messages: seq<Message>)
    ensures ProviderAttempts(deps, messages) <= AttemptsPerCall(deps)
  {
    SettlesAtSpec(Replies(deps, messages), 0, deps.maxRetries);
  }

  /** At most one bounded-retry call per remaining step; past `gather_context`, none. */
  lemma {:induction false} ProviderCallsBounded(deps: Deps, d: Durable)
    ensures d.thread.next != AtGather ==> ProviderCalls(deps, d) == 0
    ensures ProviderCalls(deps, d) <= AtLeastOne(deps.maxSteps - d.thread.state.steps) * AttemptsPerCall(deps)
    decreases Rank(deps, d.thread)
  {
    if Stuck(deps, d.thread) {
      AttemptsBounded(deps, d.thread.state.messages);
      OneTimes(AtLeastOne(deps.maxSteps - d.thread.state.steps), AttemptsPerCall(deps));
    } else if !AtRest(d.thread) {
      EnterRank(deps, d, Whole);
      var d' := Enter(deps, d, Whole);
      ProviderCallsBounded(deps, d');
      if d.thread.next == AtGather {
        AttemptsBounded(deps, d.thread.state.messages);
        if d'.thread.next == AtGather {
          var left := AtLeastOne(deps.maxSteps - d'.thread.state.steps);
          assert AtLeastOne(deps.maxSteps - d.thread.state.steps) == left + 1;
          OneMoreTime(left, AttemptsPerCall(deps));
        } else {
          OneTimes(AtLeastOne(deps.maxSteps - d.thread.state.steps), AttemptsPerCall(deps));
        }
      }
    }
  }

  lemma OneMoreTime(m: nat, n: nat)
    ensures (m + 1) * n == m * n + n
  {
  }

  lemma OneTimes(m: nat, n: nat)
    requires m >= 1
    ensures n <= m * n
  {
  }

  /** `compiled.invoke`: enter node after node until a pause, the end, or an exception. */
  method RunToRest(deps: Deps, thread: Thread, ledger: RemediationLedger)
    returns (th: Thread, raised: bool, calls: nat)
    modifies ledger
    ensures Durable(th, ledger.View()) == Rest(deps, Durable(thread, old(ledger.View())))
    ensures raised <==> !AtRest(th)
    ensures calls == ProviderCalls(deps, Durable(thread, old(ledger.View())))
  {
    th, raised, calls := thread, false, 0;
    while !AtRest(th)
      invariant Rest(deps, Durable(th, ledger.View())) == Rest(deps, Durable(thread, old(ledger.View())))
      invariant calls + ProviderCalls(deps, Durable(th, ledger.View()))
             == ProviderCalls(deps, Durable(thread, old(ledger.View())))
      decreases Rank(deps, th)
    {
      ghost var d := Durable(th, ledger.View());
      EnterRank(deps, d, Whole);
      match th.next {
        case AtGather =>
          var out, attempts := GatherContext(deps, th.state);
          calls := calls + attempts;
          if out.Raised? {
            raised := true;
            return;
          }
          th := Advance(th, out.update, AfterRoute(RouteAfterGather(deps, Merge(th.state, out.update))));
        case AtHypothesize =>
          th := Advance(th, Hypothesis(deps, th.state), AtClassify);
        case AtClassify =>
          th := Advance(th, RiskPreview(th.state), AtEvaluate);
        case AtEvaluate =>
          if th.state.diagnosis.None? {
            var none := NO_UPDATE.(verdict := Some(None), remediation := Some(None), approval := Some(None));
            th := Advance(th, none, AtDecide);
          } else {
            var dg := th.state.diagnosis.value;
            var update := ResolveVerdict(ledger, deps, dg, Evaluate(dg.action), th.answer);
            th := Advance(th, update, AtDecide);
          }
        case AtDecide =>
          th := Advance(th, NO_UPDATE.(status := Some(Some(FinalStatus(deps, th.state)))), AtEnd);
      }
      assert Durable(th, ledger.View()) == Enter(deps, d, Whole);
    }
  }

  // -------------------------------------------------------------- schedules

  /** Anything that can happen to one thread and the table it shares. */
  datatype Event =
    | Attempt(fate: Fate)
    | Resume(decision: Decision)
    | Foreign(row: Row)

  /** Another thread's guard commits a row of its own. */
  function ForeignCommit(deps: Deps, s: Store, row: Row): Store {
    var run := Execution(row.threadId, row.actionType, row.target, row.params);
    if row.threadId == deps.threadId || RunKey(run) in s.rows then s
    else Store(s.rows[RunKey(run) := row], s.runs + [run])
  }

  function Happen(deps: Deps, d: Durable, ev: Event): Durable {
    match ev
    case Attempt(fate) => Enter(deps, d, fate)
    case Resume(decision) => Durable(Answer(d.thread, decision), d.store)
    case Foreign(row) => Durable(d.thread, ForeignCommit(deps, d.store, row))
  }

  function Sched(deps: Deps, d: Durable, events: seq<Event>): Durable
    decreases |events|
  {
    if events == [] then d else Sched(deps, Happen(deps, d, events[0]), events[1..])
  }

  /** Nodes completed and checkpointed along a schedule. */
  function NodesCompleted(deps: Deps, d: Durable, events: seq<Event>): nat
    decreases |events|
  {
    if events == [] then 0 else
    var d' := Happen(deps, d, events[0]);
    (if events[0].Attempt? && d'.thread != d.thread then 1 else 0) + NodesCompleted(deps, d', events[1..])
  }

  /** However often it crashes and is entered again, a thread completes no more nodes than its rank allows. */
  lemma {:induction false} NodesBounded(deps: Deps, d: Durable, events: seq<Event>)
    ensures NodesCompleted(deps, d, events) + Rank(deps, Sched(deps, d, events).thread) <= Rank(deps, d.thread)
    decreases |events|
  {
    if events != [] {
      if events[0].Attempt? { EnterRank(deps, d, events[0].fate); }
      NodesBounded(deps, Happen(deps, d, events[0]), events[1..]);
    }
  }

  lemma {:induction false} SchedConcat(deps: Deps, d: Durable, xs: seq<Event>, ys: seq<Event>)
    ensures Sched(deps, d, xs + ys) == Sched(deps, Sched(deps, d, xs), ys)
    decreases |xs|
  {
    if xs == [] {
      assert xs + ys == ys;
    } else {
      SchedConcat(deps, Happen(deps, d, xs[0]), xs[1..], ys);
      assert (xs + ys)[1..] == xs[1..] + ys;
    }
  }

  /** An undisturbed invocation is a schedule of whole attempts. */
  lemma {:induction false} RestIsSched(deps: Deps, d: Durable) returns (events: seq<Event>)
    ensures Sched(deps, d, events) == Rest(deps, d)
    ensures forall i :: 0 <= i < |events| ==> events[i] == Attempt(Whole)
    decreases Rank(deps, d.thread)
  {
    events := [];
    if !AtRest(d.thread) && !Stuck(deps, d.thread) {
      EnterRank(deps, d, Whole);
      var rest := RestIsSched(deps, Enter(deps, d, Whole));
      events := [Attempt(Whole)] + rest;
      assert events[1..] == rest;
    }
  }

  lemma {:induction false} PartWayIsSched(deps: Deps, d: Durable, n: nat, point: Point) returns (events: seq<Event>)
    ensures Sched(deps, d, events) == PartWay(deps, d, n, point)
    ensures forall i :: 0 <= i < |events| ==> events[i].Attempt?
    decreases n
  {
    if n == 0 {
      events := [Attempt(Stopped(point))];
      assert events[1..] == [];
    } else {
      var rest := PartWayIsSched(deps, Enter(deps, d, Whole), n - 1, point);
      events := [Attempt(Whole)] + rest;
      assert events[1..] == rest;
    }
  }
}
