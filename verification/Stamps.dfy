/** Every time and process id an incident carries is that of a request in its history. */
module Stamps {
  import opened Wrappers
  import opened Policy
  import opened Remediation
  import opened Schemas
  import opened Nodes
  import opened Durable
  import opened Investigation
  import opened Incidents
  import opened World
  import opened Lifecycle
  import opened Histories
  import opened Guarantees
  import opened Provenance
  import opened Requests

  /** Rows `from` to `to` were written at `at`. */
  ghost predicate WrittenAt(audit: seq<AuditRow>, upto: nat, at: int) {
    upto <= |audit| && forall i :: 0 <= i < upto ==> audit[i].createdAt == at
  }

  predicate Ends(q: Request) { q.Run? || q.Read? || q.Approve? }

  /** `start` started the incident and, where it is closed, `end` closed it. */
  ghost predicate Stamped(c: Incident, start: Request, end: Request) {
    match c.status
    case Open => c.startedAt.None? && c.audit == []
    case Running => start.Run? && c.startedAt == Some(start.now) && c.audit == []
    case AwaitingApproval =>
      && start.Run? && c.startedAt == Some(start.now) && c.awaitingSince == Some(start.later)
      && WrittenAt(c.audit, |c.audit|, start.later) && RequestedBy(c.audit, |c.audit| - 1, start.processId)
    case Closed(_) =>
      && start.Run? && Ends(end) && c.startedAt == Some(start.now) && c.completedAt == Some(end.later)
      && (|| (end == start && WrittenAt(c.audit, |c.audit|, start.later))
          || (RequestedBy(c.audit, |c.audit| - 2, start.processId) && WrittenAt(c.audit, |c.audit| - 1, start.later)
              && DecidedBy(c.audit, |c.audit| - 1, end)))
  }

  ghost predicate RequestedBy(audit: seq<AuditRow>, i: int, processId: string) {
    0 <= i < |audit| && audit[i].arguments.RequestArguments? && audit[i].arguments.processId == processId
  }

  ghost predicate DecidedBy(audit: seq<AuditRow>, i: int, end: Request)
    requires Ends(end)
  {
    && 0 <= i < |audit| && audit[i].arguments.DecisionArguments?
    && audit[i].arguments.processId == end.processId && audit[i].createdAt == end.later
  }

  lemma NewEvidenceAt(trail: seq<ToolRecord>, now: int)
    ensures WrittenAt(WithNewEvidence([], trail, now), |trail|, now) && |WithNewEvidence([], trail, now)| == |trail|
  {
    var all := WithNewEvidence([], trail, now);
    assert forall i :: 0 <= i < |trail| ==> all[i] == EvidenceRow(trail[i], now);
  }

  /** The first result of a run stamps everything it writes with its own time and process. */
  lemma RunStamps(env: Env, k: Desk, start: Request)
    requires DeskOk(env, k) && start.Run? && k.incident.status == Open
    ensures Stamped(Served(env, k, start).incident, start, start)
    ensures Served(env, k, start).incident.status == Running <==>
      start.outcome != Clean || !AtRest(Served(env, k, start).thread)
  {
    var d' := Invoked(env.deps, Durable(START, k.store), start.outcome);
    var trail := d'.thread.state.evidence;
    NewEvidenceAt(trail, start.later);
    if start.outcome == Clean && AtRest(d'.thread) {
      var all := WithNewEvidence([], trail, start.later);
      if AwaitsAnswer(d'.thread) {
        var row := RequestRow(d'.thread.state.steps, PendingOf(env.deps, d'.thread.state.diagnosis.value),
                              start.processId, start.later);
        assert (all + [row])[|trail|] == row && forall i :: 0 <= i < |trail| ==> (all + [row])[i] == all[i];
      } else {
        assert all + [] == all;
      }
    }
  }

  /** Closing a pause adds one row, of the closing request. */
  lemma ClosingStamps(c: Incident, c': Incident, th': Thread, answer: Decision, start: Request, end: Request)
    requires Stamped(c, start, end) && c.status == AwaitingApproval && Ends(end) && c'.startedAt == c.startedAt
    requires ClosedOn(c, c', th', answer, end.later, end.processId)
    ensures Stamped(c', start, end)
  {
    assert forall i :: 0 <= i < |c.audit| ==> c'.audit[..|c.audit|][i] == c'.audit[i];
  }

  lemma PauseIgnoresEnd(c: Incident, start: Request, end: Request, end': Request)
    requires Stamped(c, start, end) && !c.status.Closed?
    ensures Stamped(c, start, end')
  {
  }

  lemma ResumeStamps(env: Env, k: Desk, offered: Decision, outcome: Outcome, start: Request, end: Request)
    requires DeskOk(env, k) && k.incident.status == AwaitingApproval && Ends(end) && Stamped(k.incident, start, end)
    requires offered.approved ==>
      ValidateParams(k.thread.state.diagnosis.value.action, offered.params, env.deps.boolOf).Some?
    ensures Stamped(Resumed(env, k, offered, outcome, end.later, end.processId).incident, start, end)
  {
    ResumedOk(env, k, offered, outcome, end.later, end.processId);
    if outcome == Clean {
      var k' := Resumed(env, k, offered, Clean, end.later, end.processId);
      ResumeCloses(env, k, offered, end.later, end.processId);
      ResumedForward(env, k, offered, Clean, end.later, end.processId);
      ClosingStamps(k.incident, k'.incident, k'.thread, Settling(k.thread, offered), start, end);
    }
  }

  lemma CheckStamps(env: Env, k: Desk, now: int, outcome: Outcome, start: Request, end: Request)
    requires DeskOk(env, k) && Ends(end) && Stamped(k.incident, start, end)
    ensures Stamped(TimeoutChecked(env, k, now, outcome, end.later, end.processId).incident, start, end)
  {
    if Overdue(env, k.incident, now) {
      ResumeStamps(env, k, TIMEOUT_DECISION, outcome, start, end);
    }
  }

  lemma DecisionStamps(env: Env, k: Desk, decision: Decision, outcome: Outcome, start: Request, end: Request)
    requires DeskOk(env, k) && Ends(end) && Stamped(k.incident, start, end)
    ensures Stamped(Decided(env, k, decision, outcome, end.later, end.processId).incident, start, end)
  {
    if k.incident.status == AwaitingApproval && ParamsAccepted(env, k.incident, decision) {
      AcceptedParamsValid(env, k.incident, k.thread, decision);
      ResumeStamps(env, k, decision, outcome, start, end);
    }
  }

  /** A request on an incident that is under way leaves its start and, if it closes it, becomes its end. */
  lemma ServedStamps(env: Env, k: Desk, start: Request, q: Request)
    requires DeskOk(env, k) && AboutIncident(q) && Stamped(k.incident, start, q)
    requires k.incident.status != Open && !k.incident.status.Closed?
    ensures Stamped(Served(env, k, q).incident, start, q)
  {
    match q
    case Run(_, _, _, _, _) =>
    case Read(_, now, timeout, _, _) => CheckStamps(env, k, now, timeout, start, q);
    case Approve(_, approved, actor, params, now, timeout, _, outcome, later, processId) =>
      var checked := TimeoutChecked(env, k, now, timeout, later, processId);
      CheckStamps(env, k, now, timeout, start, q);
      CheckedOk(env, k, now, timeout, later, processId);
      DecisionStamps(env, checked, Decision(approved, actor, params, false), outcome, start, q);
    case Reenter(_, _) =>
  }

  // ---------------------------------------------------------- whole histories

  predicate IsOpen(w: World, id: nat) { id in w.cases && w.cases[id].incident.status == Open }

  predicate IsClosed(w: World, id: nat) { id in w.cases && w.cases[id].incident.status.Closed? }

  /** Request `n` is about the incident and found it open. */
  ghost predicate StartedAt(envs: nat -> Env, requests: seq<Request>, id: nat, n: nat) {
    n < |requests| && Touches(requests[n], id) && IsOpen(After(envs, requests[..n]), id)
  }

  /** Request `m` is about the incident; where the incident is closed now, it was not before `m`. */
  ghost predicate EndedAt(envs: nat -> Env, requests: seq<Request>, id: nat, m: nat) {
    && m < |requests| && Touches(requests[m], id)
    && (IsClosed(After(envs, requests), id) ==> !IsClosed(After(envs, requests[..m]), id))
  }

  lemma StampedEarlier(envs: nat -> Env, requests: seq<Request>, i: nat, id: nat, n: nat, m: nat)
    requires i <= |requests| && StartedAt(envs, requests[..i], id, n) && EndedAt(envs, requests[..i], id, m)
    requires IsClosed(After(envs, requests), id) ==> IsClosed(After(envs, requests[..i]), id)
    ensures StartedAt(envs, requests, id, n) && EndedAt(envs, requests, id, m)
    ensures requests[..i][n] == requests[n] && requests[..i][m] == requests[m]
  {
    assert requests[..i][..n] == requests[..n] && requests[..i][..m] == requests[..m];
  }

  /** What the last request of a history did to an incident's stamps. */
  lemma LastStamps(envs: nat -> Env, requests: seq<Request>, id: nat, start: Request, end: Request)
    requires Configured(envs) && requests != [] && id in After(envs, requests[..|requests| - 1]).cases
    requires Stamped(After(envs, requests[..|requests| - 1]).cases[id].incident, start, end)
    ensures id in After(envs, requests).cases
    ensures var q, c := requests[|requests| - 1], After(envs, requests[..|requests| - 1]).cases[id].incident;
      var c' := After(envs, requests).cases[id].incident;
      if !Touches(q, id) || c.status.Closed? then c' == c
      else if c.status == Open then c' == c || (q.Run? && c'.status != Open && Stamped(c', q, q))
      else Stamped(c', start, q)
  {
    var w, q := After(envs, requests[..|requests| - 1]), requests[|requests| - 1];
    LastStep(envs, requests);
    CaseAfter(envs, requests[..|requests| - 1], id);
    StepCase(envs, w, q, id);
    if Touches(q, id) {
      LastTouched(envs(id), DeskOf(w, id), start, end, q);
    }
  }

  lemma LastTouched(env: Env, k: Desk, start: Request, end: Request, q: Request)
    requires DeskOk(env, k) && AboutIncident(q) && Stamped(k.incident, start, end)
    ensures var c, c' := k.incident, Served(env, k, q).incident;
      if c.status.Closed? then c' == c
      else if c.status == Open then c' == c || (q.Run? && c'.status != Open && Stamped(c', q, q))
      else Stamped(c', start, q)
  {
    if k.incident.status.Closed? {
      ClosedAbsorbs(env, k, q);
    } else if k.incident.status == Open {
      if q.Run? { RunStamps(env, k, q); }
    } else {
      PauseIgnoresEnd(k.incident, start, end, q);
      ServedStamps(env, k, start, q);
    }
  }

  lemma OpenStamped(env: Env, k: Desk, q: Request)
    requires DeskOk(env, k) && k.incident.status == Open
    ensures Stamped(k.incident, q, q)
  {
  }

  lemma StartsKept(envs: nat -> Env, requests: seq<Request>, i: nat, id: nat, n: nat)
    requires i <= |requests| && StartedAt(envs, requests[..i], id, n)
    ensures StartedAt(envs, requests, id, n) && requests[..i][n] == requests[n]
  {
    assert requests[..i][..n] == requests[..n];
  }

  /**
  In any history an incident that was started carries the stamps of two of its requests: the one that found it open,
  and the last that moved it, which closed it if it is closed.
  */
  lemma {:induction false} StampsAreRequests(envs: nat -> Env, requests: seq<Request>, id: nat) returns (n: nat, m: nat)
    requires Configured(envs) && id in After(envs, requests).cases
    requires After(envs, requests).cases[id].incident.status != Open
    ensures StartedAt(envs, requests, id, n) && EndedAt(envs, requests, id, m)
    ensures Stamped(After(envs, requests).cases[id].incident, requests[n], requests[m])
    decreases |requests|
  {
    if requests == [] { assert false; }
    var i := |requests| - 1;
    var before := requests[..i];
    var w := After(envs, before);
    if id !in w.cases {
      LastStep(envs, requests);
      StepAbsent(envs, w, requests[i], id);
      assert false;
    } else if w.cases[id].incident.status == Open {
      CaseAfter(envs, before, id);
      OpenStamped(envs(id), DeskOf(w, id), requests[i]);
      LastStamps(envs, requests, id, requests[i], requests[i]);
      n, m := i, i;
    } else {
      n, m := StampsAreRequests(envs, before, id);
      LastStamps(envs, requests, id, before[n], before[m]);
      StartsKept(envs, requests, i, id, n);
      if !Touches(requests[i], id) || IsClosed(w, id) {
        StampedEarlier(envs, requests, i, id, n, m);
      } else {
        m := i;
      }
    }
  }

  /**
  In any history a run of an open incident starts it, with every stamp of that request; it stays `running` exactly when
  the invocation died or raised.  A run of any other incident changes nothing.
  */
  lemma RunIsCarriedOut(envs: nat -> Env, requests: seq<Request>, q: Request)
    requires Configured(envs) && q.Run? && q.id in After(envs, requests).cases
    ensures var w, w' := After(envs, requests), Step(envs, After(envs, requests), q);
      if w.cases[q.id].incident.status != Open then w' == w
      else
        && w'.cases[q.id].incident.status != Open && Stamped(w'.cases[q.id].incident, q, q)
        && (w'.cases[q.id].incident.status == Running <==> q.outcome != Clean || !AtRest(w'.cases[q.id].thread))
  {
    var w := After(envs, requests);
    CaseAfter(envs, requests, q.id);
    StepCase(envs, w, q, q.id);
    if w.cases[q.id].incident.status == Open {
      RunStamps(envs(q.id), DeskOf(w, q.id), q);
    } else {
      UnchangedStep(envs, w, q);
    }
  }
}
