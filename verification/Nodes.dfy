/** The graph's nodes: what each writes, and the loops and table writes that do it. */
module Nodes {
  import opened Wrappers
  import opened CanonicalJson
  import opened Policy
  import opened Remediation
  import opened ChatClient
  import opened Schemas
  import opened Idempotency

  /** A read-only tool, as a function of its name and raw input. */
  datatype ToolOutcome =
    | UnknownTool(error: string)
    | InvalidArguments(error: string)
    | ToolAnswer(arguments: Json, content: string, result: Option<Json>)

  /** What a node needs beyond the state.  The model's replies are a function of the messages and the attempt. */
  datatype Deps = Deps(
    threadId: string,
    service: string,
    maxSteps: int,
    maxCost: real,
    model: string,
    maxRetries: int,
    chat: (seq<Message>, nat) -> Reply,
    parseDiagnosis: Json -> Result<Diagnosis, string>,
    dumpDiagnosis: Diagnosis -> Json,
    tool: (string, Json) -> ToolOutcome,
    ungroundedIn: (Diagnosis, seq<ToolRecord>) -> seq<string>,
    boolOf: Json -> Option<bool>)

  // --------------------------------------------------------- gather_context

  datatype Round = Round(results: seq<ToolResult>, evidence: seq<ToolRecord>, diagnosis: Option<Diagnosis>)

  const SUBMIT := "submit_diagnosis"

  function ToolUses(content: seq<Block>): seq<Block> {
    if content == [] then [] else
    var b := content[|content| - 1];
    ToolUses(content[..|content| - 1]) + if b.ToolUseBlock? then [b] else []
  }

  function Failed(r: Round, step: int, block: Block, error: string): Round
    requires block.ToolUseBlock?
  {
    r.(results := r.results + [ToolResult(block.id, error, true)],
       evidence := r.evidence + [ToolRecord(step, block.name, block.input, None, Some(error))])
  }

  function Succeeded(r: Round, step: int, block: Block, content: string, arguments: Json, result: Option<Json>): Round
    requires block.ToolUseBlock?
  {
    r.(results := r.results + [ToolResult(block.id, content, false)],
       evidence := r.evidence + [ToolRecord(step, block.name, arguments, result, None)])
  }

  /** One tool_use block.  A valid submission replaces an earlier one of the same round. */
  function RunBlock(deps: Deps, step: int, block: Block, r: Round): Round
    requires block.ToolUseBlock?
  {
    if block.name == SUBMIT then
      match deps.parseDiagnosis(block.input)
      case Err(error) => Failed(r, step, block, error)
      case Ok(d) =>
        var dumped := Some(deps.dumpDiagnosis(d));
        Succeeded(r, step, block, "Diagnosis received.", block.input, dumped).(diagnosis := Some(d))
    else
      match deps.tool(block.name, block.input)
      case UnknownTool(error) => Failed(r, step, block, error)
      case InvalidArguments(error) => Failed(r, step, block, error)
      case ToolAnswer(arguments, content, result) => Succeeded(r, step, block, content, arguments, result)
  }

  const EMPTY_ROUND := Round([], [], None)

  function RunBlocks(deps: Deps, step: int, blocks: seq<Block>): Round
    requires forall i :: 0 <= i < |blocks| ==> blocks[i].ToolUseBlock?
  {
    if blocks == [] then EMPTY_ROUND
    else RunBlock(deps, step, blocks[|blocks| - 1], RunBlocks(deps, step, blocks[..|blocks| - 1]))
  }

  lemma {:induction false} ToolUsesAreToolUses(content: seq<Block>)
    ensures forall i :: 0 <= i < |ToolUses(content)| ==> ToolUses(content)[i].ToolUseBlock?
  {
    if content != [] {
      ToolUsesAreToolUses(content[..|content| - 1]);
    }
  }

  /** The provider's answers to one prompt, attempt by attempt. */
  function Replies(deps: Deps, messages: seq<Message>): nat -> Reply {
    (n: nat) => deps.chat(messages, n)
  }

  function ModelReply(deps: Deps, messages: seq<Message>): Reply {
    Settled(Replies(deps, messages), deps.maxRetries)
  }

  /** A fatal provider error leaves the node as an exception; nothing is written. */
  datatype Gathered = Raised(error: string) | Wrote(update: Update)

  const NUDGE := "Continue investigating by calling a tool, or call submit_diagnosis when ready."

  function Gather(deps: Deps, s: GraphState): Gathered {
    match ModelReply(deps, s.messages)
    case Fatal(error) => Raised(error)
    case Transient(error) => Wrote(NO_UPDATE.(steps := Some(s.steps + 1), providerError := Some(Some(error))))
    case Answered(response) =>
      var spent := NO_UPDATE.(
        steps := Some(s.steps + 1),
        cost := Some(s.cost + EstimateCost(deps.model, response.inputTokens, response.outputTokens)),
        inputTokens := Some(s.inputTokens + response.inputTokens),
        outputTokens := Some(s.outputTokens + response.outputTokens));
      var uses := ToolUses(response.content);
      if uses == [] then Wrote(spent.(messages := [Assistant(response.content), UserText(NUDGE)]))
      else
        ToolUsesAreToolUses(response.content);
        var round := RunBlocks(deps, s.steps + 1, uses);
        Wrote(spent.(messages := [Assistant(response.content), UserResults(round.results)],
                     evidence := round.evidence, diagnosis := Some(round.diagnosis)))
  }

  lemma RunBlocksStep(deps: Deps, step: int, blocks: seq<Block>, i: nat)
    requires i < |blocks| && forall j :: 0 <= j < |blocks| ==> blocks[j].ToolUseBlock?
    ensures RunBlocks(deps, step, blocks[..i + 1])
         == RunBlock(deps, step, blocks[i], RunBlocks(deps, step, blocks[..i]))
  {
    assert blocks[..i + 1][..i] == blocks[..i];
  }

  method GatherContext(deps: Deps, s: GraphState) returns (out: Gathered, attempts: nat)
    ensures out == Gather(deps, s)
    ensures attempts == ProviderAttempts(deps, s.messages)
  {
    var step := s.steps + 1;
    var reply, slept;
    reply, attempts, slept := CallWithRetries(Replies(deps, s.messages), deps.maxRetries, 1.0);
    if reply.Fatal? {
      return Raised(reply.error), attempts;
    }
    if reply.Transient? {
      return Wrote(NO_UPDATE.(steps := Some(step), providerError := Some(Some(reply.error)))), attempts;
    }
    var response := reply.response;
    var callCost := EstimateCost(deps.model, response.inputTokens, response.outputTokens);
    var update := NO_UPDATE.(
      steps := Some(step),
      cost := Some(s.cost + callCost),
      inputTokens := Some(s.inputTokens + response.inputTokens),
      outputTokens := Some(s.outputTokens + response.outputTokens));
    var blocks := ToolUses(response.content);
    if blocks == [] {
      return Wrote(update.(messages := [Assistant(response.content), UserText(NUDGE)])), attempts;
    }
    ToolUsesAreToolUses(response.content);
    var toolResults: seq<ToolResult> := [];
    var newEvidence: seq<ToolRecord> := [];
    var diagnosis: Option<Diagnosis> := None;
    var i := 0;
    while i < |blocks|
      invariant 0 <= i <= |blocks|
      invariant Round(toolResults, newEvidence, diagnosis) == RunBlocks(deps, step, blocks[..i])
    {
      var block := blocks[i];
      RunBlocksStep(deps, step, blocks, i);
      i := i + 1;
      if block.name == SUBMIT {
        var parsed := deps.parseDiagnosis(block.input);
        if parsed.Err? {
          toolResults := toolResults + [ToolResult(block.id, parsed.error, true)];
          newEvidence := newEvidence + [ToolRecord(step, block.name, block.input, None, Some(parsed.error))];
          continue;
        }
        diagnosis := Some(parsed.value);
        var dumped := Some(deps.dumpDiagnosis(parsed.value));
        newEvidence := newEvidence + [ToolRecord(step, block.name, block.input, dumped, None)];
        toolResults := toolResults + [ToolResult(block.id, "Diagnosis received.", false)];
        continue;
      }
      var answer := deps.tool(block.name, block.input);
      if !answer.ToolAnswer? {
        toolResults := toolResults + [ToolResult(block.id, answer.error, true)];
        newEvidence := newEvidence + [ToolRecord(step, block.name, block.input, None, Some(answer.error))];
        continue;
      }
      toolResults := toolResults + [ToolResult(block.id, answer.content, false)];
      newEvidence := newEvidence + [ToolRecord(step, block.name, answer.arguments, answer.result, None)];
    }
    assert blocks[..i] == blocks;
    out := Wrote(update.(messages := [Assistant(response.content), UserResults(toolResults)],
                         evidence := newEvidence, diagnosis := Some(diagnosis)));
  }

  /** How many times one visit of `gather_context` calls the provider. */
  function ProviderAttempts(deps: Deps, messages: seq<Message>): nat {
    SettlesAt(Replies(deps, messages), 0, deps.maxRetries) + 1
  }

  /** The reply a visit works with: the first of the provider's answers to this prompt that settles it. */
  lemma ReplyIsFirstSettled(deps: Deps, messages: seq<Message>)
    ensures var n := ProviderAttempts(deps, messages) - 1;
      && ModelReply(deps, messages) == deps.chat(messages, n)
      && (forall i :: 0 <= i < n ==> deps.chat(messages, i).Transient?)
      && (n == 0 || n <= deps.maxRetries)
      && (deps.chat(messages, n).Transient? ==> n >= deps.maxRetries)
  {
    var n := ProviderAttempts(deps, messages) - 1;
    SettlesAtSpec(Replies(deps, messages), 0, deps.maxRetries);
    forall i | 0 <= i < n ensures deps.chat(messages, i).Transient? {
      assert Replies(deps, messages)(i).Transient?;
    }
  }

  datatype Route = Continue | ToHypothesize | Ceiling

  function RouteAfterGather(deps: Deps, s: GraphState): Route {
    if s.providerError.Some? then Ceiling
    else if s.diagnosis.Some? then ToHypothesize
    else if s.cost > deps.maxCost || s.steps >= deps.maxSteps then Ceiling
    else Continue
  }

  // ---------------------------------------------------------- the pure nodes

  function Hypothesis(deps: Deps, s: GraphState): Update {
    match s.diagnosis
    case None => NO_UPDATE.(grounded := Some(None), ungrounded := Some([]))
    case Some(d) =>
      var loose := deps.ungroundedIn(d, s.evidence);
      NO_UPDATE.(grounded := Some(Some(|loose| == 0)), ungrounded := Some(loose))
  }

  function RiskPreview(s: GraphState): Update {
    match s.diagnosis
    case None => NO_UPDATE.(riskTier := Some(None))
    case Some(d) => NO_UPDATE.(riskTier := Some(Some(RiskTier(d.action))))
  }

  function FinalStatus(deps: Deps, s: GraphState): Status {
    if s.providerError.Some? then IncompleteProviderError
    else if s.diagnosis.Some? then Diagnosed
    else if s.cost > deps.maxCost then IncompleteCostCeiling
    else IncompleteStepCeiling
  }

  // --------------------------------------------------------- evaluate_policy

  function RunOf(deps: Deps, call: Call): Execution {
    Execution(deps.threadId, ActionName(call.action), deps.service, call.params)
  }

  function PlanFor(deps: Deps, a: Action, decision: Option<Decision>): Option<Call> {
    PlannedCall(deps.service, Evaluate(a), a, decision, deps.boolOf)
  }

  datatype Resolution = Resolution(update: Update, store: Store)

  /** The verdict written, the planned remediation run through the guard, and the decision kept if there was one. */
  function Resolve(deps: Deps, store: Store, d: Diagnosis, verdict: Verdict, decision: Option<Decision>): Resolution {
    var approval := if verdict == RequireApproval then decision else None;
    var written := NO_UPDATE.(verdict := Some(Some(verdict)), approval := Some(approval));
    match PlannedCall(deps.service, verdict, d.action, decision, deps.boolOf)
    case None => Resolution(written.(remediation := Some(None)), store)
    case Some(call) =>
      var claim := Claimed(store, RunOf(deps, call), call.result);
      Resolution(written.(remediation := Some(Some(Remediated(claim.result, claim.deduplicated)))), claim.store)
  }

  method ExecuteApprovedAction(ledger: RemediationLedger, deps: Deps, a: Action, params: Json)
    returns (r: Option<Remediated>)
    modifies ledger
    ensures match ApprovedCall(deps.service, a, params, deps.boolOf)
      case None => r == None && ledger.View() == old(ledger.View())
      case Some(call) =>
        var claim := Claimed(old(ledger.View()), RunOf(deps, call), call.result);
        r == Some(Remediated(claim.result, claim.deduplicated)) && ledger.View() == claim.store
  {
    if !TakesParams(a) {
      return None;
    }
    var call := ApprovedCall(deps.service, a, params, deps.boolOf);
    if call.None? {
      return None;
    }
    var result, deduplicated :=
      ledger.ExecuteIdempotently(deps.threadId, ActionName(a), deps.service, call.value.params, _ => call.value.result);
    r := Some(Remediated(result, deduplicated));
  }

  method ResolveVerdict(ledger: RemediationLedger, deps: Deps, d: Diagnosis, verdict: Verdict,
                        decision: Option<Decision>)
    returns (update: Update)
    modifies ledger
    ensures Resolution(update, ledger.View()) == Resolve(deps, old(ledger.View()), d, verdict, decision)
  {
    var remediation: Option<Remediated> := None;
    if verdict == RequireApproval {
      if decision.Some? && decision.value.approved {
        remediation := ExecuteApprovedAction(ledger, deps, d.action, decision.value.params);
      }
      return NO_UPDATE.(verdict := Some(Some(verdict)), remediation := Some(remediation), approval := Some(decision));
    }
    if verdict == Execute {
      var call := AutoCall(deps.service, d.action);
      if call.Some? {
        var result, deduplicated := ledger.ExecuteIdempotently(
          deps.threadId, ActionName(d.action), deps.service, JObj([]), _ => call.value.result);
        remediation := Some(Remediated(result, deduplicated));
      }
    }
    update := NO_UPDATE.(verdict := Some(Some(verdict)), remediation := Some(remediation), approval := Some(None));
  }
}
