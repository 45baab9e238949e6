/** Argument schemas and handlers of the four remediations, and which of them a verdict may reach. */
module Remediation {
  import opened Wrappers
  import opened CanonicalJson
  import opened Policy

  /** What a human, or the SLA timeout, answered. */
  datatype Decision = Decision(approved: bool, actor: string, params: Json, timedOut: bool)

  /** One remediation ready to run: the validated arguments, and what its deterministic handler returns. */
  datatype Call = Call(action: Action, params: Json, result: Json)

  function Lookup(fields: seq<Field>, key: string): Option<Json> {
    if fields == [] then None
    else if fields[0].key == key then Some(fields[0].value)
    else Lookup(fields[1..], key)
  }

  function Get(j: Json, key: string): Option<Json> {
    if j.JObj? then Lookup(j.fields, key) else None
  }

  /** `RollbackDeploymentArgs`: a non-empty target version. */
  function ValidateRollback(params: Json): Option<Json> {
    match Get(params, "target_version")
    case Some(JStr(v)) => if v != [] then Some(JObj([Field("target_version", JStr(v))])) else None
    case _ => None
  }

  /** `ToggleFeatureFlagArgs`: a non-empty flag name; `enabled` defaults to false, else is coerced by `boolOf`. */
  function ValidateToggle(params: Json, boolOf: Json -> Option<bool>): Option<Json> {
    match Get(params, "flag_name")
    case Some(JStr(name)) =>
      var enabled := match Get(params, "enabled") case None => Some(false) case Some(j) => boolOf(j);
      if name != [] && enabled.Some?
      then Some(JObj([Field("flag_name", JStr(name)), Field("enabled", JBool(enabled.value))]))
      else None
    case _ => None
  }

  /** The schema table the API checks a decision against, and the node checks again. */
  function ValidateParams(a: Action, params: Json, boolOf: Json -> Option<bool>): Option<Json> {
    match a
    case RollbackDeployment => ValidateRollback(params)
    case ToggleFeatureFlag => ValidateToggle(params, boolOf)
    case _ => None
  }

  predicate TakesParams(a: Action) { a.RollbackDeployment? || a.ToggleFeatureFlag? }

  function HandlerResult(service: string, a: Action, details: seq<Field>, outcome: string): Json {
    JObj([Field("simulated", JBool(true)), Field("action", JStr(ActionName(a))), Field("service", JStr(service))]
         + details + [Field("outcome", JStr(outcome))])
  }

  /** The auto-executable table: run with default arguments, keyed on empty params. */
  function AutoCall(service: string, a: Action): Option<Call> {
    match a
    case RestartService =>
      Some(Call(a, JObj([]), HandlerResult(service, a, [], "service restarted in the synthetic environment")))
    case ScaleService =>
      Some(Call(a, JObj([]), HandlerResult(service, a, [Field("replicas", JInt(1))],
                                           "service scaled in the synthetic environment")))
    case _ => None
  }

  /** The approvable table: run only with params that validate. */
  function ApprovedCall(service: string, a: Action, params: Json, boolOf: Json -> Option<bool>): Option<Call> {
    match ValidateParams(a, params, boolOf)
    case None => None
    case Some(valid) =>
      var outcome := if a.RollbackDeployment? then "rollback executed against the synthetic environment"
                     else "feature flag toggled in the synthetic environment";
      Some(Call(a, valid, HandlerResult(service, a, if valid.JObj? then valid.fields else [], outcome)))
  }

  /** The remediation that a verdict, with the answer to its interrupt if it had one, asks for. */
  function PlannedCall(service: string, verdict: Verdict, a: Action, decision: Option<Decision>,
                       boolOf: Json -> Option<bool>): Option<Call>
  {
    match verdict
    case Execute => AutoCall(service, a)
    case RequireApproval =>
      if decision.Some? && decision.value.approved then ApprovedCall(service, a, decision.value.params, boolOf)
      else None
    case _ => None
  }

  lemma ValidParamsWf(a: Action, params: Json, boolOf: Json -> Option<bool>)
    requires ValidateParams(a, params, boolOf).Some?
    ensures Wf(ValidateParams(a, params, boolOf).value)
  {
    var valid := ValidateParams(a, params, boolOf).value.fields;
    if a.ToggleFeatureFlag? {
      var name, enabled := valid[0], valid[1];
      assert |name.key| == 9 && |enabled.key| == 7;
      WfCons(enabled, []);
      WfCons(name, [enabled]);
      assert [enabled] + [] == [enabled] && valid == [name] + [enabled];
    } else {
      WfCons(valid[0], []);
      assert valid == [valid[0]] + [];
    }
  }

  predicate Executable(a: Action) {
    a.RestartService? || a.ScaleService? || a.ToggleFeatureFlag? || a.RollbackDeployment?
  }

  /** What policy lets run: an auto-executable action, or an approvable one with an approval and valid params. */
  ghost predicate Permitted(a: Action, decision: Option<Decision>, boolOf: Json -> Option<bool>, params: Json) {
    || (Evaluate(a) == Execute && (a.RestartService? || a.ScaleService?) && params == JObj([]))
    || (Evaluate(a) == RequireApproval && TakesParams(a) && decision.Some? && decision.value.approved
        && ValidateParams(a, decision.value.params, boolOf) == Some(params))
  }

  /** Whatever is planned on the table's own verdict is permitted, and carries a well-formed dict. */
  lemma PlannedCallIsPermitted(service: string, a: Action, decision: Option<Decision>, boolOf: Json -> Option<bool>)
    ensures var plan := PlannedCall(service, Evaluate(a), a, decision, boolOf);
      && (plan.Some? ==>
            plan.value.action == a && Wf(plan.value.params) && Permitted(a, decision, boolOf, plan.value.params))
      && (plan.None? ==> forall params :: !Permitted(a, decision, boolOf, params))
  {
    if Evaluate(a) == RequireApproval && decision.Some? && ValidateParams(a, decision.value.params, boolOf).Some? {
      ValidParamsWf(a, decision.value.params, boolOf);
    }
  }

  /** What runs at all: exactly the actions policy lets run, alone or approved, that have something to run. */
  lemma ExecutableByPolicy(a: Action)
    ensures Executable(a) <==> a != NoAction && Evaluate(a) in {Execute, RequireApproval}
    ensures TakesParams(a) <==> Evaluate(a) == RequireApproval
  {
  }

  /** Reading a key of a dict gives what the dict holds under it. */
  lemma {:induction false} LookupIsDict(fields: seq<Field>, key: string)
    requires WfFields(fields)
    ensures Lookup(fields, key).Some? <==> key in DenoteFields(fields)
    ensures Lookup(fields, key).Some? ==> Denote(Lookup(fields, key).value) == DenoteFields(fields)[key]
  {
    if fields != [] {
      LookupIsDict(fields[1..], key);
      assert fields == [fields[0]] + fields[1..];
      DenoteCons(fields[0], fields[1..]);
    }
  }

  predicate NonEmptyText(j: Option<Json>) { j.Some? && j.value.JStr? && j.value.s != "" }

  /** A rollback takes any dict with a non-empty target version, and keeps that one field of it. */
  lemma RollbackParams(params: Json, boolOf: Json -> Option<bool>)
    ensures var valid, version := ValidateParams(RollbackDeployment, params, boolOf), Get(params, "target_version");
      && (valid.Some? <==> NonEmptyText(version))
      && (valid.Some? ==>
            valid.value.JObj? && |valid.value.fields| == 1 && Get(valid.value, "target_version") == version)
  {
  }

  /** A toggle takes a non-empty flag name; `enabled` is what was given, coerced, and false when nothing was. */
  lemma ToggleParams(params: Json, boolOf: Json -> Option<bool>)
    ensures var valid, flag := ValidateParams(ToggleFeatureFlag, params, boolOf), Get(params, "flag_name");
      var enabled := Get(params, "enabled");
      && (valid.Some? <==> NonEmptyText(flag) && (enabled.None? || boolOf(enabled.value).Some?))
      && (valid.Some? ==>
            && valid.value.JObj? && |valid.value.fields| == 2 && Get(valid.value, "flag_name") == flag
            && Get(valid.value, "enabled")
               == Some(JBool(if enabled.Some? then boolOf(enabled.value).value else false)))
  {
    assert |"flag_name"| == 9 && |"enabled"| == 7;
    if ValidateParams(ToggleFeatureFlag, params, boolOf).Some? {
      var fields := ValidateParams(ToggleFeatureFlag, params, boolOf).value.fields;
      assert fields[1..][0] == fields[1] && fields[0].key == "flag_name" && fields[1].key == "enabled";
      assert Lookup(fields, "enabled") == Lookup(fields[1..], "enabled") == Some(fields[1].value);
    }
  }

  lemma {:induction false} LookupPast(before: seq<Field>, after: seq<Field>, key: string)
    requires forall i :: 0 <= i < |before| ==> before[i].key != key
    ensures Lookup(before + after, key) == Lookup(after, key)
  {
    if before == [] {
      assert before + after == after;
    } else {
      LookupPast(before[1..], after, key);
      assert (before + after)[1..] == before[1..] + after;
    }
  }

  lemma {:induction false} LookupWithin(before: seq<Field>, after: seq<Field>, key: string)
    requires Lookup(before, key).Some?
    ensures Lookup(before + after, key) == Lookup(before, key)
  {
    if before[0].key != key {
      LookupWithin(before[1..], after, key);
      assert (before + after)[1..] == before[1..] + after;
    }
  }

  /** A handler's result: simulated, for this action and service, with its own parameters and outcome. */
  ghost predicate Reports(result: Json, service: string, a: Action, details: seq<Field>, outcome: string) {
    && Get(result, "simulated") == Some(JBool(true))
    && Get(result, "action") == Some(JStr(ActionName(a)))
    && Get(result, "service") == Some(JStr(service))
    && Get(result, "outcome") == Some(JStr(outcome))
    && forall i :: 0 <= i < |details| ==> Get(result, details[i].key) == Some(details[i].value)
  }

  ghost predicate Plain(details: seq<Field>) {
    && (forall i, j :: 0 <= i < j < |details| ==> details[i].key != details[j].key)
    && forall i :: 0 <= i < |details| ==> details[i].key !in {"simulated", "action", "service", "outcome"}
  }

  lemma LookupAt(details: seq<Field>, i: nat)
    requires i < |details| && forall i, j :: 0 <= i < j < |details| ==> details[i].key != details[j].key
    ensures Lookup(details, details[i].key) == Some(details[i].value)
  {
    assert details == details[..i] + details[i..];
    LookupPast(details[..i], details[i..], details[i].key);
  }

  lemma HandlerReports(service: string, a: Action, details: seq<Field>, outcome: string)
    requires Plain(details)
    ensures Reports(HandlerResult(service, a, details, outcome), service, a, details, outcome)
  {
    var head := [Field("simulated", JBool(true)), Field("action", JStr(ActionName(a))),
                 Field("service", JStr(service))];
    var tail := [Field("outcome", JStr(outcome))];
    assert |"simulated"| == 9 && |"action"| == 6 && |"service"| == 7 && |"outcome"| == 7;
    assert "service"[0] != "outcome"[0];
    assert HandlerResult(service, a, details, outcome) == JObj(head + details + tail);
    assert Lookup(head, "simulated") == Some(JBool(true));
    assert head[1..][0] == head[1] && head[1..][1..][0] == head[2];
    assert Lookup(head, "action") == Some(JStr(ActionName(a)));
    assert Lookup(head, "service") == Lookup(head[1..], "service") == Lookup(head[1..][1..], "service");
    assert Lookup(head, "service") == Some(JStr(service));
    forall key | key in {"simulated", "action", "service"}
      ensures Lookup(head + details + tail, key) == Lookup(head, key)
    {
      LookupWithin(head, details, key);
      LookupWithin(head + details, tail, key);
    }
    LookupPast(head + details, tail, "outcome");
    forall i | 0 <= i < |details| ensures Lookup(head + details + tail, details[i].key) == Some(details[i].value) {
      LookupAt(details, i);
      LookupPast(head, details, details[i].key);
      LookupWithin(head + details, tail, details[i].key);
    }
  }

  /** What an approved call carries and what its handler says it did. */
  lemma ApprovedCallReports(service: string, a: Action, params: Json, boolOf: Json -> Option<bool>)
    ensures var call, valid := ApprovedCall(service, a, params, boolOf), ValidateParams(a, params, boolOf);
      && (call.Some? <==> valid.Some?)
      && (call.Some? ==>
            && call.value.action == a && call.value.params == valid.value && valid.value.JObj?
            && Reports(call.value.result, service, a, valid.value.fields,
                       if a == RollbackDeployment then "rollback executed against the synthetic environment"
                       else "feature flag toggled in the synthetic environment"))
  {
    if ValidateParams(a, params, boolOf).Some? {
      var valid := ValidateParams(a, params, boolOf).value;
      assert |"target_version"| == 14 && |"flag_name"| == 9 && |"enabled"| == 7;
      assert |"simulated"| == 9 && |"action"| == 6 && |"service"| == 7 && |"outcome"| == 7;
      assert "enabled"[0] != "service"[0] && "enabled"[0] != "outcome"[0] && "flag_name"[0] != "simulated"[0];
      HandlerReports(service, a, valid.fields,
                     if a == RollbackDeployment then "rollback executed against the synthetic environment"
                     else "feature flag toggled in the synthetic environment");
    }
  }

  /** The two actions that run alone, with default arguments and an empty key dict. */
  lemma AutoCallReports(service: string, a: Action)
    ensures var call := AutoCall(service, a);
      && (call.Some? <==> a in {RestartService, ScaleService})
      && (call.Some? ==> call.value.action == a && call.value.params == JObj([]))
      && (a == RestartService ==>
            Reports(call.value.result, service, a, [], "service restarted in the synthetic environment"))
      && (a == ScaleService ==>
            Reports(call.value.result, service, a, [Field("replicas", JInt(1))],
                    "service scaled in the synthetic environment"))
  {
    assert |"replicas"| == 8 && |"simulated"| == 9 && |"action"| == 6 && |"service"| == 7 && |"outcome"| == 7;
    HandlerReports(service, a, [], "service restarted in the synthetic environment");
    HandlerReports(service, a, [Field("replicas", JInt(1))], "service scaled in the synthetic environment");
  }
}
