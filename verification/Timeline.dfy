/** The timeline endpoint: audit rows by step, labelled one by one, with the pause's process carried along. */
module Timeline {
  import opened Wrappers
  import opened CanonicalJson
  import opened Policy
  import opened Remediation
  import opened Schemas
  import opened Idempotency
  import opened Nodes
  import opened Durable
  import opened Investigation
  import opened Incidents
  import opened World
  import opened Lifecycle
  import opened Histories
  import opened Guarantees
  import Memory
  import MemoryLedger

  // ---------------------------------------------------------------- ordering

  /** After every row of no later step: rows of one step keep their ids' order. */
  function Place(rows: seq<AuditRow>, row: AuditRow): seq<AuditRow> {
    if rows == [] || rows[|rows| - 1].step <= row.step then rows + [row]
    else Place(rows[..|rows| - 1], row) + [rows[|rows| - 1]]
  }

  /** `ORDER BY step, id`; rows come in id order. */
  function ByStep(audit: seq<AuditRow>): seq<AuditRow> {
    if audit == [] then [] else Place(ByStep(audit[..|audit| - 1]), audit[|audit| - 1])
  }

  ghost predicate InOrder(rows: seq<AuditRow>) { forall i, j :: 0 <= i < j < |rows| ==> rows[i].step <= rows[j].step }

  ghost predicate AtMost(rows: seq<AuditRow>, limit: int) { forall i :: 0 <= i < |rows| ==> rows[i].step <= limit }

  lemma AppendLast(rows: seq<AuditRow>, row: AuditRow, limit: int)
    requires InOrder(rows) && AtMost(rows, row.step) && row.step <= limit
    ensures InOrder(rows + [row]) && AtMost(rows + [row], limit)
  {
  }

  lemma {:induction false} PlaceSorts(rows: seq<AuditRow>, row: AuditRow, limit: int)
    requires InOrder(rows) && AtMost(rows, limit) && row.step <= limit
    ensures InOrder(Place(rows, row)) && AtMost(Place(rows, row), limit)
    ensures multiset(Place(rows, row)) == multiset(rows) + multiset{row}
    decreases |rows|
  {
    if rows == [] || rows[|rows| - 1].step <= row.step {
      AppendLast(rows, row, limit);
    } else {
      var before, last := rows[..|rows| - 1], rows[|rows| - 1];
      PlaceSorts(before, row, last.step);
      AppendLast(Place(before, row), last, limit);
      assert rows == before + [last];
    }
  }

  lemma SomeLimit(rows: seq<AuditRow>, step: int) returns (limit: int)
    requires InOrder(rows)
    ensures AtMost(rows, limit) && step <= limit
  {
    limit := if rows != [] && rows[|rows| - 1].step > step then rows[|rows| - 1].step else step;
  }

  /** What the query returns: the same rows, in step order. */
  lemma {:induction false} ByStepSorts(audit: seq<AuditRow>)
    ensures InOrder(ByStep(audit)) && multiset(ByStep(audit)) == multiset(audit)
    decreases |audit|
  {
    if audit != [] {
      var before, last := audit[..|audit| - 1], audit[|audit| - 1];
      ByStepSorts(before);
      var limit := SomeLimit(ByStep(before), last.step);
      PlaceSorts(ByStep(before), last, limit);
      assert audit == before + [last];
    }
  }

  /** A log already in step order is shown in the order it was appended. */
  lemma {:induction false} AppendOrderKept(audit: seq<AuditRow>)
    requires InOrder(audit)
    ensures ByStep(audit) == audit
    decreases |audit|
  {
    if audit != [] {
      var before, last := audit[..|audit| - 1], audit[|audit| - 1];
      assert audit == before + [last];
      LastInOrder(before, last);
      AppendOrderKept(before);
    }
  }

  lemma LastInOrder(rows: seq<AuditRow>, row: AuditRow)
    requires InOrder(rows + [row])
    ensures InOrder(rows) && Place(rows, row) == rows + [row]
  {
    var all := rows + [row];
    assert forall i :: 0 <= i < |rows| ==> all[i] == rows[i];
    assert all[|rows|] == row;
  }

  // ---------------------------------------------------------------- labels

  /** A JSON value Python takes for true. */
  predicate Truthy(j: Option<Json>) {
    match j
    case None => false
    case Some(JNull) => false
    case Some(JBool(b)) => b
    case Some(JInt(n)) => n != 0
    case Some(JStr(s)) => s != []
    case Some(JArr(items)) => items != []
    case Some(JObj(fields)) => fields != []
  }

  /** Looked up in the row's arguments; null counts as absent. */
  function ProcessIdOf(a: AuditArguments): Option<Json> {
    match a
    case ToolArguments(input) => if Get(input, "process_instance_id") == Some(JNull) then None
                                 else Get(input, "process_instance_id")
    case RequestArguments(_, processId) => Some(JStr(processId))
    case DecisionArguments(_, processId) => Some(JStr(processId))
  }

  function ActionTypeOf(a: AuditArguments): Option<Json> {
    match a
    case ToolArguments(input) => Get(input, "action_type")
    case RequestArguments(pending, _) => Some(JStr(ActionName(pending.action)))
    case DecisionArguments(_, _) => None
  }

  datatype Ruling = AutoEscalated | Approved(actor: Option<Json>) | Denied(actor: Option<Json>)

  function RulingOf(a: AuditArguments): Ruling {
    match a
    case ToolArguments(input) =>
      if Truthy(Get(input, "timed_out")) then AutoEscalated
      else if Truthy(Get(input, "approved")) then Approved(Get(input, "actor"))
      else Denied(Get(input, "actor"))
    case RequestArguments(_, _) => Denied(None)
    case DecisionArguments(None, _) => Denied(None)
    case DecisionArguments(Some(d), _) =>
      if d.timedOut then AutoEscalated
      else if d.approved then Approved(Some(JStr(d.actor)))
      else Denied(Some(JStr(d.actor)))
  }

  predicate Deduplicated(r: AuditResult) {
    match r
    case RemediationJson(remediation) => remediation.Some? && remediation.value.deduplicated
    case ToolJson(json) => json.Some? && Truthy(Get(json.value, "deduplicated"))
  }

  datatype Label =
    | IncidentOpened
    | DiagnosisFormed(valid: bool)
    | ApprovalRequested(actionType: Option<Json>)
    | ApprovalDecided(ruling: Ruling, deduplicated: bool, restarted: bool)
    | EvidenceGathered(toolName: string, failed: bool)
    | IncidentClosed(status: Option<Status>)

  datatype Entry = Entry(caption: Label, row: Option<AuditRow>)

  /** The process stamped on the last request row before position `i`. */
  function PauseBefore(rows: seq<AuditRow>, i: nat): Option<Json>
    requires i <= |rows|
  {
    if i == 0 then None
    else if rows[i - 1].toolName == REQUESTED then ProcessIdOf(rows[i - 1].arguments)
    else PauseBefore(rows, i - 1)
  }

  function LabelAt(rows: seq<AuditRow>, i: nat): Label
    requires i < |rows|
  {
    var row, pause := rows[i], PauseBefore(rows, i);
    if row.toolName == SUBMIT then DiagnosisFormed(row.error.None?)
    else if row.toolName == REQUESTED then ApprovalRequested(ActionTypeOf(row.arguments))
    else if row.toolName == DECIDED then
      ApprovalDecided(RulingOf(row.arguments), Deduplicated(row.result),
                      pause.Some? && ProcessIdOf(row.arguments) != pause)
    else EvidenceGathered(row.toolName, row.error.Some?)
  }

  function Rendered(c: Incident): seq<Entry> {
    var rows := ByStep(c.audit);
    [Entry(IncidentOpened, None)]
    + seq(|rows|, (i: nat) requires i < |rows| => Entry(LabelAt(rows, i), Some(rows[i])))
    + if c.status.Closed? then [Entry(IncidentClosed(c.status.status), None)] else []
  }

  method Build(c: Incident) returns (entries: seq<Entry>)
    ensures entries == Rendered(c)
  {
    entries := [Entry(IncidentOpened, None)];
    var rows := ByStep(c.audit);
    var pause: Option<Json> := None;
    var i := 0;
    while i < |rows|
      invariant 0 <= i <= |rows| && |entries| == i + 1 && entries[0] == Entry(IncidentOpened, None)
      invariant pause == PauseBefore(rows, i)
      invariant forall j :: 0 <= j < i ==> entries[j + 1] == Entry(LabelAt(rows, j), Some(rows[j]))
    {
      var row := rows[i];
      var caption: Label;
      if row.toolName == SUBMIT {
        caption := DiagnosisFormed(row.error.None?);
      } else if row.toolName == REQUESTED {
        caption := ApprovalRequested(ActionTypeOf(row.arguments));
        pause := ProcessIdOf(row.arguments);
      } else if row.toolName == DECIDED {
        var resumed := ProcessIdOf(row.arguments);
        caption := ApprovalDecided(RulingOf(row.arguments), Deduplicated(row.result), pause.Some? && resumed != pause);
      } else {
        caption := EvidenceGathered(row.toolName, row.error.Some?);
      }
      entries := entries + [Entry(caption, Some(row))];
      i := i + 1;
    }
    if c.status.Closed? {
      entries := entries + [Entry(IncidentClosed(c.status.status), None)];
    }
  }

  /** The endpoint: the lazy timeout check, then the timeline of what it left. */
  method GetTimeline(record: IncidentRecord, env: Env, ledger: RemediationLedger, memory: Memory.ServiceMemory,
                     now: int, later: int, processId: string)
    returns (entries: seq<Entry>)
    requires MemoryLedger.Sound(memory.table)
    modifies record, ledger, memory
    ensures record.Around(ledger, memory)
         == TimeoutChecked(env, old(record.Around(ledger, memory)), now, Clean, later, processId)
    ensures entries == Rendered(record.View())
  {
    record.MaybeApplyApprovalTimeout(env, ledger, memory, now, later, processId);
    entries := Build(record.View());
  }

  // ------------------------------------------------------- every reachable log

  lemma LogInOrder(deps: Deps, audit: seq<AuditRow>, th: Thread, extra: nat)
    requires AuditLog(deps, audit, th, extra) && extra <= 2 && StepsInOrder(th.state.evidence, th.state.steps)
    ensures InOrder(audit)
  {
    var trail := th.state.evidence;
    forall i | 0 <= i < |audit|
      ensures audit[i].step == if i < |trail| then trail[i].step else th.state.steps
    {
      if i < |trail| { assert IsEvidence(audit[i], trail[i]); }
    }
  }

  /** Which rows are the approval's own, by what they carry. */
  lemma ApprovalRows(deps: Deps, audit: seq<AuditRow>, th: Thread, extra: nat, i: nat)
    requires AuditLog(deps, audit, th, extra) && extra <= 2 && i < |audit|
    ensures audit[i].arguments.RequestArguments? <==> i == |th.state.evidence|
    ensures audit[i].arguments.DecisionArguments? <==> i == |th.state.evidence| + 1
    ensures audit[i].arguments.RequestArguments? ==> audit[i].toolName == REQUESTED
    ensures audit[i].arguments.DecisionArguments? ==> audit[i].toolName == DECIDED
  {
    if i < |th.state.evidence| { assert IsEvidence(audit[i], th.state.evidence[i]); }
  }

  /** One decision row at most, right after the only request row, and its restart label tells two processes apart. */
  ghost predicate Faithful(audit: seq<AuditRow>) {
    forall i :: 0 <= i < |audit| && audit[i].arguments.DecisionArguments? ==> OnlyDecision(audit, i)
  }

  ghost predicate OnlyDecision(audit: seq<AuditRow>, i: int)
    requires 0 <= i < |audit| && audit[i].arguments.DecisionArguments?
  {
    && i >= 1
    && (forall j :: 0 <= j < |audit| ==> (audit[j].arguments.DecisionArguments? <==> j == i))
    && (forall j :: 0 <= j < |audit| ==> (audit[j].arguments.RequestArguments? <==> j == i - 1))
    && LabelAt(audit, i).ApprovalDecided?
    && (LabelAt(audit, i).restarted <==> audit[i].arguments.processId != audit[i - 1].arguments.processId)
  }

  /** In every history, sorting by step is append order and the log is faithful. */
  lemma TimelineIsFaithful(envs: nat -> Env, requests: seq<Request>, id: nat)
    requires Configured(envs) && id in After(envs, requests).cases
    ensures var audit := After(envs, requests).cases[id].incident.audit; ByStep(audit) == audit && Faithful(audit)
  {
    var c, th := After(envs, requests).cases[id].incident, After(envs, requests).cases[id].thread;
    CaseAfter(envs, requests, id);
    if c.status.AwaitingApproval? {
      LogIsFaithful(envs(id).deps, c.audit, th, 1);
    } else if c.status.Closed? {
      LogIsFaithful(envs(id).deps, c.audit, th, Extra(th.state));
    }
  }

  lemma LogIsFaithful(deps: Deps, audit: seq<AuditRow>, th: Thread, extra: nat)
    requires AuditLog(deps, audit, th, extra) && extra <= 2 && StepsInOrder(th.state.evidence, th.state.steps)
    ensures ByStep(audit) == audit && Faithful(audit)
  {
    var n := |th.state.evidence|;
    LogInOrder(deps, audit, th, extra);
    AppendOrderKept(audit);
    forall i | 0 <= i < |audit|
      ensures audit[i].arguments.RequestArguments? <==> i == n
      ensures audit[i].arguments.DecisionArguments? <==> i == n + 1
    {
      ApprovalRows(deps, audit, th, extra, i);
    }
    if extra == 2 {
      ApprovalRows(deps, audit, th, extra, n);
      ApprovalRows(deps, audit, th, extra, n + 1);
      NamesApart();
      assert OnlyDecision(audit, n + 1);
    }
  }

  /** Every row labelled a decision is the real one. */
  ghost predicate LabelsTrue(audit: seq<AuditRow>) {
    forall i :: 0 <= i < |audit| ==> (LabelAt(audit, i).ApprovalDecided? <==> audit[i].arguments.DecisionArguments?)
  }

  ghost predicate Unused(trail: seq<ToolRecord>, name: string) {
    forall i :: 0 <= i < |trail| ==> trail[i].toolName != name
  }

  /** In any history the timeline shows a decision exactly at the real decision row iff no tool call used its name. */
  lemma DecisionLabels(envs: nat -> Env, requests: seq<Request>, id: nat)
    requires Configured(envs) && id in After(envs, requests).cases
    requires Level(After(envs, requests).cases[id].incident.status) >= 2
    ensures var c, th := After(envs, requests).cases[id].incident, After(envs, requests).cases[id].thread;
      LabelsTrue(c.audit) <==> Unused(th.state.evidence, DECIDED)
  {
    var c, th := After(envs, requests).cases[id].incident, After(envs, requests).cases[id].thread;
    CaseAfter(envs, requests, id);
    LabelsOf(envs(id).deps, c.audit, th, if c.status.AwaitingApproval? then 1 else Extra(th.state));
  }

  lemma LabelsOf(deps: Deps, audit: seq<AuditRow>, th: Thread, extra: nat)
    requires AuditLog(deps, audit, th, extra) && extra <= 2
    ensures LabelsTrue(audit) <==> Unused(th.state.evidence, DECIDED)
  {
    NamesApart();
    forall i | 0 <= i < |audit|
      ensures LabelAt(audit, i).ApprovalDecided? <==> audit[i].toolName == DECIDED
      ensures i < |th.state.evidence| ==>
        audit[i].toolName == th.state.evidence[i].toolName && !audit[i].arguments.DecisionArguments?
      ensures i >= |th.state.evidence| ==> (audit[i].toolName == DECIDED <==> audit[i].arguments.DecisionArguments?)
    {
      ApprovalRows(deps, audit, th, extra, i);
      if i < |th.state.evidence| { assert IsEvidence(audit[i], th.state.evidence[i]); }
    }
  }

  lemma NamesApart()
    ensures SUBMIT != DECIDED && REQUESTED != DECIDED && SUBMIT != REQUESTED
  {
    assert |SUBMIT| == 16 && |REQUESTED| == 18 && |DECIDED| == 17;
  }

  // --------------------------------------------------------- what is shown

  /** An entry for a row, by what the row carries; a call by an approval row's name is shown as that row would be. */
  ghost predicate Shows(caption: Label, row: AuditRow) {
    match row.arguments
    case ToolArguments(_) =>
      row.toolName !in {"approval_requested", "approval_decision"} ==>
        caption == if row.toolName == "submit_diagnosis" then DiagnosisFormed(row.error.None?)
                   else EvidenceGathered(row.toolName, row.error.Some?)
    case RequestArguments(pending, _) => caption == ApprovalRequested(Some(JStr(ActionName(pending.action))))
    case DecisionArguments(decision, _) =>
      && decision.Some? && caption.ApprovalDecided? && row.result.RemediationJson?
      && caption.ruling == (if decision.value.timedOut then AutoEscalated
                            else if decision.value.approved then Approved(Some(JStr(decision.value.actor)))
                            else Denied(Some(JStr(decision.value.actor))))
      && (caption.deduplicated <==>
            row.result.remediation.Some? && row.result.remediation.value.deduplicated)
  }

  lemma RowShown(deps: Deps, audit: seq<AuditRow>, th: Thread, extra: nat, i: nat)
    requires AuditLog(deps, audit, th, extra) && extra <= 2 && i < |audit| && (extra == 2 ==> th.state.approval.Some?)
    ensures Shows(LabelAt(audit, i), audit[i])
  {
    ApprovalRows(deps, audit, th, extra, i);
    NamesApart();
    if i < |th.state.evidence| {
      assert IsEvidence(audit[i], th.state.evidence[i]);
    } else if i == |th.state.evidence| {
      assert IsRequest(audit[i], th.state.steps, deps.service, th.state.diagnosis.value);
    } else {
      assert IsDecision(audit[i], th.state);
    }
  }

  /** The opening, then one entry for every row of the log in the log's order, then the outcome of a closed incident. */
  ghost predicate ShowsLog(entries: seq<Entry>, c: Incident) {
    var n := |c.audit|;
    && |entries| == 1 + n + (if c.status.Closed? then 1 else 0)
    && entries[0] == Entry(IncidentOpened, None)
    && (forall i :: 0 <= i < n ==> entries[i + 1].row == Some(c.audit[i]) && Shows(entries[i + 1].caption, c.audit[i]))
    && (c.status.Closed? ==> entries[n + 1] == Entry(IncidentClosed(c.status.status), None))
  }

  /** In any history the timeline shows the whole log and nothing else. */
  lemma TimelineShowsTheLog(envs: nat -> Env, requests: seq<Request>, id: nat)
    requires Configured(envs) && id in After(envs, requests).cases
    ensures ShowsLog(Rendered(After(envs, requests).cases[id].incident), After(envs, requests).cases[id].incident)
  {
    var c, th := After(envs, requests).cases[id].incident, After(envs, requests).cases[id].thread;
    TimelineIsFaithful(envs, requests, id);
    CaseAfter(envs, requests, id);
    forall i | 0 <= i < |c.audit| ensures Shows(LabelAt(c.audit, i), c.audit[i]) {
      if c.status.AwaitingApproval? {
        RowShown(envs(id).deps, c.audit, th, 1, i);
      } else if c.status.Closed? {
        ApprovalOnRecord(envs(id), c, th);
        RowShown(envs(id).deps, c.audit, th, Extra(th.state), i);
      }
    }
    RenderedShows(c);
  }

  lemma ApprovalOnRecord(env: Env, c: Incident, th: Thread)
    requires CaseOk(env, c, th) && c.status.Closed?
    ensures Extra(th.state) == 2 ==> th.state.approval.Some?
  {
  }

  lemma RenderedShows(c: Incident)
    requires ByStep(c.audit) == c.audit
    requires forall i :: 0 <= i < |c.audit| ==> Shows(LabelAt(c.audit, i), c.audit[i])
    ensures ShowsLog(Rendered(c), c)
  {
    var rows := c.audit;
    var body := seq(|rows|, (i: nat) requires i < |rows| => Entry(LabelAt(rows, i), Some(rows[i])));
    var ending := if c.status.Closed? then [Entry(IncidentClosed(c.status.status), None)] else [];
    assert Rendered(c) == [Entry(IncidentOpened, None)] + body + ending;
  }
}
