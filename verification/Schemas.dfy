/** The investigation's records, the graph state and its reducers. */
module Schemas {
  import opened Wrappers
  import opened CanonicalJson
  import opened Policy
  import opened Remediation
  import opened ChatClient

  datatype Submission = Submission(text: string, evidence: seq<string>, confidence: real, action: Action)

  /** A submission that passed `SubmitDiagnosisArgs`: bounded fields and an action of the vocabulary. */
  type Diagnosis = d: Submission |
    |d.text| >= 10 && |d.evidence| >= 1 && 0.0 <= d.confidence <= 1.0 && !d.action.Unrecognized?
    witness Submission("0123456789", [""], 0.0, NoAction)

  /** One row of the evidence trail. */
  datatype ToolRecord =
    ToolRecord(step: int, toolName: string, arguments: Json, result: Option<Json>, error: Option<string>)

  datatype ToolResult = ToolResult(toolUseId: string, content: string, isError: bool)

  datatype Message =
    | UserText(text: string)
    | Assistant(blocks: seq<Block>)
    | UserResults(results: seq<ToolResult>)

  datatype Remediated = Remediated(result: Json, deduplicated: bool)

  datatype Status =
    | Diagnosed
    | IncompleteStepCeiling
    | IncompleteCostCeiling
    | IncompleteProviderError

  datatype GraphState = GraphState(
    messages: seq<Message>,
    evidence: seq<ToolRecord>,
    steps: int,
    cost: real,
    inputTokens: nat,
    outputTokens: nat,
    diagnosis: Option<Diagnosis>,
    grounded: Option<bool>,
    ungrounded: seq<string>,
    riskTier: Option<string>,
    verdict: Option<Verdict>,
    remediation: Option<Remediated>,
    approval: Option<Decision>,
    providerError: Option<string>,
    status: Option<Status>)

  const INITIAL_STATE :=
    GraphState([UserText("Investigate this incident and submit your diagnosis.")], [], 0, 0.0, 0, 0,
               None, None, [], None, None, None, None, None, None)

  /** A node's partial update: two fields append, the rest overwrite when present. */
  datatype Update = Update(
    messages: seq<Message>,
    evidence: seq<ToolRecord>,
    steps: Option<int>,
    cost: Option<real>,
    inputTokens: Option<nat>,
    outputTokens: Option<nat>,
    diagnosis: Option<Option<Diagnosis>>,
    grounded: Option<Option<bool>>,
    ungrounded: Option<seq<string>>,
    riskTier: Option<Option<string>>,
    verdict: Option<Option<Verdict>>,
    remediation: Option<Option<Remediated>>,
    approval: Option<Option<Decision>>,
    providerError: Option<Option<string>>,
    status: Option<Option<Status>>)

  const NO_UPDATE :=
    Update([], [], None, None, None, None, None, None, None, None, None, None, None, None, None)

  function Or<T>(written: Option<T>, before: T): T {
    match written case Some(v) => v case None => before
  }

  function Merge(s: GraphState, u: Update): GraphState {
    GraphState(s.messages + u.messages, s.evidence + u.evidence, Or(u.steps, s.steps), Or(u.cost, s.cost),
               Or(u.inputTokens, s.inputTokens), Or(u.outputTokens, s.outputTokens), Or(u.diagnosis, s.diagnosis),
               Or(u.grounded, s.grounded), Or(u.ungrounded, s.ungrounded), Or(u.riskTier, s.riskTier),
               Or(u.verdict, s.verdict), Or(u.remediation, s.remediation), Or(u.approval, s.approval),
               Or(u.providerError, s.providerError), Or(u.status, s.status))
  }
}
