/** The policy table: what may run alone, what needs a human, and what may never run. */
module Policy {
  /** `Unrecognized` is any action name outside the vocabulary. */
  datatype Action =
    | NoAction
    | Escalate
    | RestartService
    | ScaleService
    | ToggleFeatureFlag
    | RollbackDeployment
    | DeleteData
    | Unrecognized(name: string)

  datatype Verdict = Execute | RequireApproval | Block | HandToHuman

  function ActionName(a: Action): string {
    match a
    case NoAction => "no_action"
    case Escalate => "escalate"
    case RestartService => "restart_service"
    case ScaleService => "scale_service"
    case ToggleFeatureFlag => "toggle_feature_flag"
    case RollbackDeployment => "rollback_deployment"
    case DeleteData => "delete_data"
    case Unrecognized(name) => name
  }

  /** Fails closed: an action outside the table is blocked. */
  function Evaluate(a: Action): Verdict {
    match a
    case NoAction => Execute
    case Escalate => HandToHuman
    case RestartService => Execute
    case ScaleService => Execute
    case ToggleFeatureFlag => RequireApproval
    case RollbackDeployment => RequireApproval
    case DeleteData => Block
    case Unrecognized(_) => Block
  }

  /** The display tier of `classify_risk`; it gates nothing. */
  function RiskTier(a: Action): string {
    match a
    case NoAction => "none"
    case Escalate => "none"
    case RestartService => "low"
    case ScaleService => "low"
    case ToggleFeatureFlag => "medium"
    case RollbackDeployment => "medium"
    case DeleteData => "critical"
    case Unrecognized(_) => "unknown"
  }

  /** The action a submitted name stands for. */
  function ActionOf(name: string): Action {
    if name == "no_action" then NoAction
    else if name == "escalate" then Escalate
    else if name == "restart_service" then RestartService
    else if name == "scale_service" then ScaleService
    else if name == "toggle_feature_flag" then ToggleFeatureFlag
    else if name == "rollback_deployment" then RollbackDeployment
    else if name == "delete_data" then DeleteData
    else Unrecognized(name)
  }

  const POLICY_TABLE: map<string, Verdict> :=
    map["no_action" := Execute, "escalate" := HandToHuman, "restart_service" := Execute, "scale_service" := Execute,
        "toggle_feature_flag" := RequireApproval, "rollback_deployment" := RequireApproval, "delete_data" := Block]

  const TIER_TABLE: map<string, string> :=
    map["no_action" := "none", "escalate" := "none", "restart_service" := "low", "scale_service" := "low",
        "toggle_feature_flag" := "medium", "rollback_deployment" := "medium", "delete_data" := "critical"]

  /** By name, policy is a table look-up that blocks whatever the table does not list. */
  lemma FailsClosed(name: string)
    ensures ActionName(ActionOf(name)) == name
    ensures Evaluate(ActionOf(name)) == if name in POLICY_TABLE then POLICY_TABLE[name] else Block
    ensures RiskTier(ActionOf(name)) == if name in TIER_TABLE then TIER_TABLE[name] else "unknown"
  {
    NamesApart();
  }

  lemma NamesApart()
    ensures "toggle_feature_flag" != "rollback_deployment"
  {
    assert "toggle_feature_flag"[0] != "rollback_deployment"[0];
  }
}
