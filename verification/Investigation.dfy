/** What holds of a thread on every schedule of attempts, crashes, answers and other threads' commits. */
module Investigation {
  import opened Wrappers
  import opened Policy
  import opened Remediation
  import opened ChatClient
  import opened Schemas
  import opened Idempotency
  import opened Nodes
  import opened Durable

  // ------------------------------------------------------- phases and status

  ghost predicate Unresolved(s: GraphState) {
    s.verdict.None? && s.remediation.None? && s.approval.None?
  }

  /** Left the loop with a diagnosis. */
  ghost predicate HasDiagnosis(s: GraphState) { s.diagnosis.Some? && s.providerError.None? }

  /** Left the loop without one, and why. */
  ghost predicate GaveUp(deps: Deps, th: Thread) {
    && th.state.diagnosis.None? && Unresolved(th.state) && th.answer.None?
    && (th.state.providerError.Some? || th.state.cost > deps.maxCost || th.state.steps >= deps.maxSteps)
  }

  /** Policy was evaluated: the verdict is the table's, the answer is the recorded one, and what was planned ran. */
  ghost predicate Evaluated(deps: Deps, th: Thread) {
    && HasDiagnosis(th.state)
    && var a := th.state.diagnosis.value.action;
    && th.state.verdict == Some(Evaluate(a))
    && th.state.approval == th.answer
    && (th.answer.Some? <==> Evaluate(a) == RequireApproval)
    && (th.state.remediation.Some? <==> PlanFor(deps, a, th.answer).Some?)
  }

  ghost predicate Phase(deps: Deps, th: Thread) {
    match th.next
    case AtGather =>
      && th.state.diagnosis.None? && th.state.providerError.None? && Unresolved(th.state)
      && th.state.status.None? && th.answer.None?
      && 0 <= th.state.steps && (th.state.steps == 0 ==> th.state.cost == 0.0)
      && (th.state.steps > 0 ==> th.state.steps < deps.maxSteps && th.state.cost <= deps.maxCost)
    case AtHypothesize => HasDiagnosis(th.state) && Unresolved(th.state) && th.state.status.None? && th.answer.None?
    case AtClassify => HasDiagnosis(th.state) && Unresolved(th.state) && th.state.status.None? && th.answer.None?
    case AtEvaluate =>
      && HasDiagnosis(th.state) && Unresolved(th.state) && th.state.status.None?
      && (th.answer.Some? ==> Evaluate(th.state.diagnosis.value.action) == RequireApproval)
    case AtDecide => th.state.status.None? && (Evaluated(deps, th) || GaveUp(deps, th))
    case AtEnd => th.state.status == Some(FinalStatus(deps, th.state)) && (Evaluated(deps, th) || GaveUp(deps, th))
  }

  ghost predicate StepsBounded(deps: Deps, th: Thread) {
    0 <= th.state.steps <= AtLeastOne(deps.maxSteps)
  }

  lemma EnterKeepsPhase(deps: Deps, d: Durable, fate: Fate)
    requires Phase(deps, d.thread) && StepsBounded(deps, d.thread)
    ensures Phase(deps, Enter(deps, d, fate).thread) && StepsBounded(deps, Enter(deps, d, fate).thread)
  {
  }

  // ---------------------------------------------------------- the pure nodes

  /** `hypothesize` checked the citations of the diagnosis against the trail. */
  ghost predicate Checked(deps: Deps, s: GraphState) {
    && s.diagnosis.Some? && s.ungrounded == deps.ungroundedIn(s.diagnosis.value, s.evidence)
    && s.grounded == Some(s.ungrounded == [])
  }

  /** `classify_risk` set the tier of the recommended action. */
  ghost predicate Classified(deps: Deps, s: GraphState) {
    Checked(deps, s) && s.riskTier == Some(RiskTier(s.diagnosis.value.action))
  }

  /** A thread that is past a pure node holds what the node found. */
  ghost predicate Reviewed(deps: Deps, th: Thread) {
    && (th.next == AtClassify ==> Checked(deps, th.state))
    && (th.next in {AtEvaluate, AtDecide, AtEnd} && th.state.diagnosis.Some? ==> Classified(deps, th.state))
  }

  lemma SameEvidence(s: GraphState, u: Update)
    requires u.evidence == []
    ensures Merge(s, u).evidence == s.evidence
  {
  }

  lemma EnterKeepsReview(deps: Deps, d: Durable, fate: Fate)
    requires Phase(deps, d.thread) && Reviewed(deps, d.thread)
    ensures Reviewed(deps, Enter(deps, d, fate).thread)
  {
    var s := d.thread.state;
    if fate == Whole && !AtRest(d.thread) {
      match d.thread.next
      case AtGather =>
      case AtHypothesize => SameEvidence(s, Hypothesis(deps, s));
      case AtClassify => SameEvidence(s, RiskPreview(s));
      case AtEvaluate =>
        if s.diagnosis.Some? {
          var dg := s.diagnosis.value;
          SameEvidence(s, Resolve(deps, d.store, dg, Evaluate(dg.action), d.thread.answer).update);
        }
      case AtDecide => SameEvidence(s, NO_UPDATE.(status := Some(Some(FinalStatus(deps, s)))));
    }
  }

  // --------------------------------------------------------------------- cost

  /** The tokens of the reply to every turn's own prompt, added up over a transcript. */
  function InputSpent(deps: Deps, messages: seq<Message>): nat
    decreases |messages|
  {
    if |messages| < 3 then 0 else
    var prompt := messages[..|messages| - 2];
    InputSpent(deps, prompt)
    + match ModelReply(deps, prompt) case Answered(r) => r.inputTokens case _ => 0
  }

  function OutputSpent(deps: Deps, messages: seq<Message>): nat
    decreases |messages|
  {
    if |messages| < 3 then 0 else
    var prompt := messages[..|messages| - 2];
    OutputSpent(deps, prompt)
    + match ModelReply(deps, prompt) case Answered(r) => r.outputTokens case _ => 0
  }

  /** The cost of the last call answered, read back from the transcript. */
  function LastCost(deps: Deps, messages: seq<Message>): real {
    if |messages| < 3 then 0.0 else
    match ModelReply(deps, messages[..|messages| - 2])
    case Answered(r) => EstimateCost(deps.model, r.inputTokens, r.outputTokens)
    case _ => 0.0
  }

  ghost predicate Priced(deps: Deps, th: Thread) {
    && th.state.inputTokens == InputSpent(deps, th.state.messages)
    && th.state.outputTokens == OutputSpent(deps, th.state.messages)
    && th.state.cost == EstimateCost(deps.model, th.state.inputTokens, th.state.outputTokens)
    && |th.state.messages| >= 1 && LastCost(deps, th.state.messages) >= 0.0
    && (deps.maxCost >= 0.0 ==> th.state.cost <= deps.maxCost + LastCost(deps, th.state.messages))
  }

  lemma EnterKeepsPrice(deps: Deps, d: Durable, fate: Fate)
    requires Phase(deps, d.thread) && Priced(deps, d.thread)
    ensures Priced(deps, Enter(deps, d, fate).thread)
  {
    var s := d.thread.state;
    if d.thread.next == AtGather && fate == Whole && ModelReply(deps, s.messages).Answered? {
      var r := ModelReply(deps, s.messages).response;
      CostAdds(deps.model, s.inputTokens, s.outputTokens, r.inputTokens, r.outputTokens);
      CostAdds(deps.model, r.inputTokens, r.outputTokens, 0, 0);
      var s' := Enter(deps, d, fate).thread.state;
      assert s'.messages[..|s'.messages| - 2] == s.messages;
    } else {
      SameMessages(deps, d, fate);
    }
  }

  lemma SameMessages(deps: Deps, d: Durable, fate: Fate)
    requires !(d.thread.next == AtGather && fate == Whole && ModelReply(deps, d.thread.state.messages).Answered?)
    ensures var s, s' := d.thread.state, Enter(deps, d, fate).thread.state;
      s'.messages == s.messages && s'.evidence == s.evidence && s'.cost == s.cost && s'.diagnosis == s.diagnosis
      && (|| (s'.steps == s.steps && s'.providerError == s.providerError)
          || (s'.steps == s.steps + 1 && s'.providerError.Some? && d.thread.next == AtGather
              && ModelReply(deps, s.messages) == Transient(s'.providerError.value)))
      && s'.inputTokens == s.inputTokens && s'.outputTokens == s.outputTokens
  {
  }

  // --------------------------------------------------------------- transcript

  /** What one tool call leaves in the evidence trail. */
  function RecordOf(deps: Deps, step: int, b: Block): ToolRecord
    requires b.ToolUseBlock?
  {
    if b.name == SUBMIT then
      match deps.parseDiagnosis(b.input)
      case Err(error) => ToolRecord(step, b.name, b.input, None, Some(error))
      case Ok(d) => ToolRecord(step, b.name, b.input, Some(deps.dumpDiagnosis(d)), None)
    else
      match deps.tool(b.name, b.input)
      case UnknownTool(error) => ToolRecord(step, b.name, b.input, None, Some(error))
      case InvalidArguments(error) => ToolRecord(step, b.name, b.input, None, Some(error))
      case ToolAnswer(arguments, _, result) => ToolRecord(step, b.name, arguments, result, None)
  }

  /** What the model is told about it. */
  function ReplyTo(deps: Deps, b: Block): ToolResult
    requires b.ToolUseBlock?
  {
    if b.name == SUBMIT then
      match deps.parseDiagnosis(b.input)
      case Err(error) => ToolResult(b.id, error, true)
      case Ok(_) => ToolResult(b.id, "Diagnosis received.", false)
    else
      match deps.tool(b.name, b.input)
      case UnknownTool(error) => ToolResult(b.id, error, true)
      case InvalidArguments(error) => ToolResult(b.id, error, true)
      case ToolAnswer(_, content, _) => ToolResult(b.id, content, false)
  }

  /** The results of the tool calls among a turn's blocks, wherever they stand. */
  function RepliesTo(deps: Deps, blocks: seq<Block>): seq<ToolResult> {
    if blocks == [] then [] else
    var b := blocks[|blocks| - 1];
    RepliesTo(deps, blocks[..|blocks| - 1]) + if b.ToolUseBlock? then [ReplyTo(deps, b)] else []
  }

  predicate CallsNothing(blocks: seq<Block>) { forall i :: 0 <= i < |blocks| ==> !blocks[i].ToolUseBlock? }

  /** The reply to an assistant turn: each tool call's own result, in order, or a nudge when it called none. */
  ghost predicate Answers(deps: Deps, blocks: seq<Block>, reply: Message) {
    if CallsNothing(blocks) then reply == UserText(NUDGE) else reply == UserResults(RepliesTo(deps, blocks))
  }

  /** An assistant turn is what the model answered to everything before it. */
  ghost predicate Spoke(deps: Deps, prompt: seq<Message>, turn: Message) {
    ModelReply(deps, prompt).Answered? && turn == Assistant(ModelReply(deps, prompt).response.content)
  }

  /** Roles alternate from the opening message to a user message, and every turn is the model's own and is answered. */
  ghost predicate Transcript(deps: Deps, messages: seq<Message>)
    decreases |messages|
  {
    if |messages| < 3 then messages == [UserText("Investigate this incident and submit your diagnosis.")]
    else
      var n := |messages|;
      Spoke(deps, messages[..n - 2], messages[n - 2]) && Answers(deps, messages[n - 2].blocks, messages[n - 1])
      && Transcript(deps, messages[..n - 2])
  }

  /** How many turns the model has taken. */
  function Turns(messages: seq<Message>): nat { if |messages| < 1 then 0 else (|messages| - 1) / 2 }

  function RecordsOf(deps: Deps, step: int, blocks: seq<Block>): seq<ToolRecord> {
    if blocks == [] then [] else
    var b := blocks[|blocks| - 1];
    RecordsOf(deps, step, blocks[..|blocks| - 1]) + if b.ToolUseBlock? then [RecordOf(deps, step, b)] else []
  }

  /** The evidence trail read back from a transcript: every tool call in order, each under the number of its turn. */
  function TrailOf(deps: Deps, messages: seq<Message>): seq<ToolRecord>
    decreases |messages|
  {
    if |messages| < 3 || !messages[|messages| - 2].Assistant? then []
    else TrailOf(deps, messages[..|messages| - 2])
         + RecordsOf(deps, Turns(messages), messages[|messages| - 2].blocks)
  }

  /** The last submission of a round that validates, searching from the back. */
  function LastValid(deps: Deps, blocks: seq<Block>): Option<Diagnosis> {
    if blocks == [] then None else
    var b := blocks[|blocks| - 1];
    if b.ToolUseBlock? && b.name == SUBMIT && deps.parseDiagnosis(b.input).Ok?
    then Some(deps.parseDiagnosis(b.input).value)
    else LastValid(deps, blocks[..|blocks| - 1])
  }

  function LastTurn(messages: seq<Message>): seq<Block> {
    if |messages| >= 3 && messages[|messages| - 2].Assistant? then messages[|messages| - 2].blocks else []
  }

  ghost predicate StepsInOrder(records: seq<ToolRecord>, steps: int) {
    && (forall i :: 0 <= i < |records| ==> records[i].step <= steps)
    && forall i, j :: 0 <= i < j < |records| ==> records[i].step <= records[j].step
  }

  /** All the run recorded can be read back from its transcript; a failed provider call is a step without a turn. */
  ghost predicate Recorded(deps: Deps, th: Thread) {
    && Transcript(deps, th.state.messages)
    && th.state.evidence == TrailOf(deps, th.state.messages)
    && th.state.steps == Turns(th.state.messages) + (if th.state.providerError.Some? then 1 else 0)
    && (th.state.providerError.Some? ==>
          ModelReply(deps, th.state.messages) == Transient(th.state.providerError.value))
    && StepsInOrder(th.state.evidence, th.state.steps)
    && th.state.diagnosis == LastValid(deps, LastTurn(th.state.messages))
  }

  ghost predicate RoundOf(deps: Deps, step: int, blocks: seq<Block>, round: Round) {
    && round.results == RepliesTo(deps, blocks)
    && round.evidence == RecordsOf(deps, step, blocks)
    && round.diagnosis == LastValid(deps, blocks)
  }

  lemma {:induction false} RunBlocksSpec(deps: Deps, step: int, blocks: seq<Block>)
    requires forall i :: 0 <= i < |blocks| ==> blocks[i].ToolUseBlock?
    ensures RoundOf(deps, step, blocks, RunBlocks(deps, step, blocks))
    decreases |blocks|
  {
    if blocks != [] {
      var before := blocks[..|blocks| - 1];
      RunBlocksSpec(deps, step, before);
      RunBlockSpec(deps, step, before, blocks[|blocks| - 1], RunBlocks(deps, step, before));
      assert blocks == before + [blocks[|blocks| - 1]];
    }
  }

  lemma RunBlockSpec(deps: Deps, step: int, before: seq<Block>, b: Block, r: Round)
    requires RoundOf(deps, step, before, r) && b.ToolUseBlock?
    ensures RoundOf(deps, step, before + [b], RunBlock(deps, step, b, r))
  {
    var r', blocks := RunBlock(deps, step, b, r), before + [b];
    assert blocks[..|before|] == before;
    assert r'.evidence == r.evidence + [RecordOf(deps, step, b)];
    assert r'.results == r.results + [ReplyTo(deps, b)];
  }

  lemma {:induction false} RecordSteps(deps: Deps, step: int, blocks: seq<Block>)
    ensures forall i :: 0 <= i < |RecordsOf(deps, step, blocks)| ==> RecordsOf(deps, step, blocks)[i].step == step
    decreases |blocks|
  {
    if blocks != [] {
      RecordSteps(deps, step, blocks[..|blocks| - 1]);
    }
  }

  /** Dropping the text of a turn drops no call. */
  lemma {:induction false} ToolUsesRead(deps: Deps, step: int, blocks: seq<Block>)
    ensures var uses := ToolUses(blocks);
      && RepliesTo(deps, uses) == RepliesTo(deps, blocks)
      && RecordsOf(deps, step, uses) == RecordsOf(deps, step, blocks)
      && LastValid(deps, uses) == LastValid(deps, blocks) && (uses == [] <==> CallsNothing(blocks))
    decreases |blocks|
  {
    if blocks != [] {
      var before, b := blocks[..|blocks| - 1], blocks[|blocks| - 1];
      ToolUsesRead(deps, step, before);
      assert blocks == before + [b];
      if b.ToolUseBlock? {
        var uses := ToolUses(blocks);
        assert uses == ToolUses(before) + [b] && uses[..|uses| - 1] == ToolUses(before);
        assert blocks[|blocks| - 1].ToolUseBlock?;
      } else {
        assert ToolUses(blocks) == ToolUses(before);
      }
    }
  }

  /** Tool calls among the first `i` blocks. */
  function CallsBefore(blocks: seq<Block>, i: nat): nat
    requires i <= |blocks|
  {
    if i == 0 then 0 else CallsBefore(blocks, i - 1) + if blocks[i - 1].ToolUseBlock? then 1 else 0
  }

  lemma {:induction false} CallsBeforePrefix(blocks: seq<Block>, n: nat, i: nat)
    requires i <= n <= |blocks|
    ensures CallsBefore(blocks[..n], i) == CallsBefore(blocks, i)
  {
    if i > 0 {
      CallsBeforePrefix(blocks, n, i - 1);
    }
  }

  /** Position by position: the tool call at `i` has the result and the record that its rank among the calls says. */
  lemma {:induction false} CallByCall(deps: Deps, step: int, blocks: seq<Block>)
    ensures |RepliesTo(deps, blocks)| == |RecordsOf(deps, step, blocks)| == CallsBefore(blocks, |blocks|)
    ensures forall i :: 0 <= i < |blocks| && blocks[i].ToolUseBlock? ==>
      var k := CallsBefore(blocks, i);
      && k < CallsBefore(blocks, |blocks|)
      && RepliesTo(deps, blocks)[k] == ReplyTo(deps, blocks[i])
      && RecordsOf(deps, step, blocks)[k] == RecordOf(deps, step, blocks[i])
    decreases |blocks|
  {
    if blocks != [] {
      var n := |blocks| - 1;
      var before := blocks[..n];
      CallByCall(deps, step, before);
      forall i | 0 <= i <= n ensures CallsBefore(before, i) == CallsBefore(blocks, i) {
        CallsBeforePrefix(blocks, n, i);
      }
      forall i | 0 <= i < |blocks| && blocks[i].ToolUseBlock?
        ensures var k := CallsBefore(blocks, i);
          && k < CallsBefore(blocks, |blocks|)
          && RepliesTo(deps, blocks)[k] == ReplyTo(deps, blocks[i])
          && RecordsOf(deps, step, blocks)[k] == RecordOf(deps, step, blocks[i])
      {
        if i < n { assert before[i] == blocks[i]; }
      }
    }
  }

  lemma EnterKeepsRecord(deps: Deps, d: Durable, fate: Fate)
    requires Phase(deps, d.thread) && Recorded(deps, d.thread)
    ensures Recorded(deps, Enter(deps, d, fate).thread)
  {
    var s := d.thread.state;
    if d.thread.next == AtGather && fate == Whole && ModelReply(deps, s.messages).Answered? {
      AnsweredTurn(deps, s, ModelReply(deps, s.messages).response, Enter(deps, d, fate).thread.next, d.thread.answer);
    } else {
      SameMessages(deps, d, fate);
    }
  }

  lemma AppendTurn(deps: Deps, messages: seq<Message>, blocks: seq<Block>, reply: Message)
    requires Transcript(deps, messages) && Spoke(deps, messages, Assistant(blocks)) && Answers(deps, blocks, reply)
    ensures var longer := messages + [Assistant(blocks), reply];
      && Transcript(deps, longer) && LastTurn(longer) == blocks && Turns(longer) == Turns(messages) + 1
      && TrailOf(deps, longer) == TrailOf(deps, messages) + RecordsOf(deps, Turns(longer), blocks)
  {
    var longer := messages + [Assistant(blocks), reply];
    assert longer[..|longer| - 2] == messages;
    assert longer[|longer| - 2] == Assistant(blocks) && longer[|longer| - 1] == reply;
  }

  lemma StepsAppend(a: seq<ToolRecord>, b: seq<ToolRecord>, steps: int)
    requires StepsInOrder(a, steps) && forall i :: 0 <= i < |b| ==> b[i].step == steps + 1
    ensures StepsInOrder(a + b, steps + 1)
  {
  }

  /** What an answered visit appends. */
  lemma TurnUpdate(deps: Deps, s: GraphState, response: Response) returns (reply: Message)
    requires ModelReply(deps, s.messages) == Answered(response) && s.diagnosis.None?
    ensures Gather(deps, s).Wrote?
    ensures var u := Gather(deps, s).update;
      && u.messages == [Assistant(response.content), reply] && Answers(deps, response.content, reply)
      && u.evidence == RecordsOf(deps, s.steps + 1, response.content)
      && Or(u.diagnosis, s.diagnosis) == LastValid(deps, response.content)
      && u.steps == Some(s.steps + 1) && u.providerError.None?
  {
    var uses := ToolUses(response.content);
    ToolUsesAreToolUses(response.content);
    RunBlocksSpec(deps, s.steps + 1, uses);
    ToolUsesRead(deps, s.steps + 1, response.content);
    reply := Gather(deps, s).update.messages[1];
  }

  lemma AnsweredTurn(deps: Deps, s: GraphState, response: Response, next: Node, answer: Option<Decision>)
    requires ModelReply(deps, s.messages) == Answered(response) && s.diagnosis.None? && s.providerError.None?
    requires Recorded(deps, Thread(AtGather, s, answer))
    ensures Gather(deps, s).Wrote? && Recorded(deps, Thread(next, Merge(s, Gather(deps, s).update), answer))
  {
    var reply := TurnUpdate(deps, s, response);
    var u := Gather(deps, s).update;
    AppendTurn(deps, s.messages, response.content, reply);
    RecordSteps(deps, s.steps + 1, response.content);
    StepsAppend(s.evidence, u.evidence, s.steps);
  }

  // ------------------------------------------------------------- every schedule

  ghost predicate Sound(deps: Deps, th: Thread) {
    Phase(deps, th) && StepsBounded(deps, th) && Reviewed(deps, th) && Priced(deps, th) && Recorded(deps, th)
  }

  lemma HappenKeepsSound(deps: Deps, d: Durable, ev: Event)
    requires Sound(deps, d.thread)
    ensures Sound(deps, Happen(deps, d, ev).thread)
  {
    if ev.Attempt? {
      EnterKeepsPhase(deps, d, ev.fate);
      EnterKeepsReview(deps, d, ev.fate);
      EnterKeepsPrice(deps, d, ev.fate);
      EnterKeepsRecord(deps, d, ev.fate);
    }
  }

  lemma {:induction false} SchedKeepsSound(deps: Deps, d: Durable, events: seq<Event>)
    requires Sound(deps, d.thread)
    ensures Sound(deps, Sched(deps, d, events).thread)
    decreases |events|
  {
    if events != [] {
      HappenKeepsSound(deps, d, events[0]);
      SchedKeepsSound(deps, Happen(deps, d, events[0]), events[1..]);
    }
  }

  lemma StartSound(deps: Deps)
    ensures Sound(deps, START)
  {
    CostAdds(deps.model, 0, 0, 0, 0);
  }

  lemma AlwaysSound(deps: Deps, store: Store, events: seq<Event>)
    ensures Sound(deps, Sched(deps, Durable(START, store), events).thread)
  {
    StartSound(deps);
    SchedKeepsSound(deps, Durable(START, store), events);
  }

  /** The final status names the true cause, on every schedule. */
  lemma StatusIsTheCause(deps: Deps, store: Store, events: seq<Event>)
    requires Sched(deps, Durable(START, store), events).thread.next == AtEnd
    ensures var s := Sched(deps, Durable(START, store), events).thread.state;
      && s.status.Some?
      && (s.status == Some(Diagnosed) <==> s.diagnosis.Some?)
      && (s.status == Some(IncompleteProviderError) <==> s.providerError.Some?)
      && (s.status == Some(IncompleteCostCeiling) ==> s.cost > deps.maxCost)
      && (s.status == Some(IncompleteStepCeiling) ==> s.steps >= deps.maxSteps && s.cost <= deps.maxCost)
      && !(s.diagnosis.Some? && s.providerError.Some?)
      && 1 <= s.steps <= AtLeastOne(deps.maxSteps)
  {
    AlwaysSound(deps, store, events);
    StepsTaken(deps, Durable(START, store), events);
  }

  lemma {:induction false} StepsTaken(deps: Deps, d: Durable, events: seq<Event>)
    requires d.thread.state.steps >= (if d.thread.next == AtGather then 0 else 1)
    ensures var th := Sched(deps, d, events).thread; th.state.steps >= (if th.next == AtGather then 0 else 1)
    decreases |events|
  {
    if events != [] {
      StepsTaken(deps, Happen(deps, d, events[0]), events[1..]);
    }
  }

  /**
  The tokens counted are those of every reply to every turn's prompt; the cost is exactly their price, and passes the
  ceiling by at most the last call.
  */
  lemma CostConservedAndBounded(deps: Deps, store: Store, events: seq<Event>)
    ensures var s := Sched(deps, Durable(START, store), events).thread.state;
      && s.inputTokens == InputSpent(deps, s.messages) && s.outputTokens == OutputSpent(deps, s.messages)
      && s.cost == EstimateCost(deps.model, s.inputTokens, s.outputTokens)
      && (deps.maxCost >= 0.0 ==> s.cost <= deps.maxCost + LastCost(deps, s.messages))
  {
    AlwaysSound(deps, store, events);
  }

  /** The pure nodes' findings are those of the diagnosis the thread carries, from the node on to the end. */
  lemma FindingsKept(deps: Deps, store: Store, events: seq<Event>)
    ensures var th := Sched(deps, Durable(START, store), events).thread;
      th.next in {AtEvaluate, AtDecide, AtEnd} && th.state.diagnosis.Some? ==>
        && th.state.ungrounded == deps.ungroundedIn(th.state.diagnosis.value, th.state.evidence)
        && th.state.grounded == Some(th.state.ungrounded == [])
        && th.state.riskTier == Some(RiskTier(th.state.diagnosis.value.action))
  {
    AlwaysSound(deps, store, events);
  }

  /**
  The transcript is well formed, the evidence trail is exactly what its tool calls left, turn by turn, and the
  diagnosis is the last valid one.
  */
  lemma TranscriptWellFormed(deps: Deps, store: Store, events: seq<Event>)
    ensures Recorded(deps, Sched(deps, Durable(START, store), events).thread)
  {
    AlwaysSound(deps, store, events);
  }

  /** From the start: node, step and provider-call budgets, crashes and re-entries included in the first. */
  lemma InvestigationBounded(deps: Deps, store: Store, events: seq<Event>)
    ensures NodesCompleted(deps, Durable(START, store), events) <= AtLeastOne(deps.maxSteps) + 4
    ensures deps.maxSteps >= -4 ==> NodesCompleted(deps, Durable(START, store), events) < deps.maxSteps + 10
    ensures ProviderCalls(deps, Durable(START, store)) <= AtLeastOne(deps.maxSteps) * AttemptsPerCall(deps)
    ensures AtRest(Rest(deps, Durable(START, store)).thread) || Stuck(deps, Rest(deps, Durable(START, store)).thread)
  {
    NodesBounded(deps, Durable(START, store), events);
    ProviderCallsBounded(deps, Durable(START, store));
    RestRests(deps, Durable(START, store));
  }

  lemma {:induction false} RestRests(deps: Deps, d: Durable)
    ensures AtRest(Rest(deps, d).thread) || Stuck(deps, Rest(deps, d).thread)
    ensures d.thread.next != AtGather ==> AtRest(Rest(deps, d).thread)
    decreases Rank(deps, d.thread)
  {
    if !AtRest(d.thread) && !Stuck(deps, d.thread) {
      EnterRank(deps, d, Whole);
      RestRests(deps, Enter(deps, d, Whole));
    }
  }
}
