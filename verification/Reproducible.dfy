/**
Crash transparency for whole incidents.

Two histories of one deployment may crash, re-enter, be read, time out and interleave with other incidents in any way:
where both close an incident on the same recorded answer, they leave it with the same row, log and thread, but for
timestamps, process ids and the `deduplicated` flag.
*/
module Reproducible {
  import opened Wrappers
  import opened Remediation
  import opened Idempotency
  import opened Durable
  import opened CrashTransparency
  import opened Permission
  import opened Incidents
  import opened World
  import opened Lifecycle
  import opened Histories
  import opened Guarantees
  import opened Provenance

  function Held(w: World, id: nat): Durable
    requires id in w.cases
  {
    Durable(w.cases[id].thread, w.store)
  }

  /** Finished with `decision` from here, or from the start alone: the same. */
  ghost predicate Replays(env: Env, d: Durable, decision: Decision) {
    Alike(env.deps, Final(env.deps, d, decision), Final(env.deps, Durable(START, NO_STORE), decision))
  }

  lemma AlikeTwice(env: Env, a: Durable, b: Durable, c: Durable)
    requires Alike(env.deps, a, b) && Alike(env.deps, b, c)
    ensures Alike(env.deps, a, c)
  {
    var threadId := env.deps.threadId;
    forall k | Own(a.store.rows, threadId, k) || Own(c.store.rows, threadId, k)
      ensures k in a.store.rows && k in c.store.rows && a.store.rows[k] == c.store.rows[k]
    {
      assert Own(b.store.rows, threadId, k);
    }
  }

  lemma ReplaysAcross(env: Env, d: Durable, d': Durable, decision: Decision)
    requires Replays(env, d, decision)
    requires Alike(env.deps, Final(env.deps, d', decision), Final(env.deps, d, decision))
    ensures Replays(env, d', decision)
  {
    AlikeTwice(env, Final(env.deps, d', decision), Final(env.deps, d, decision),
               Final(env.deps, Durable(START, NO_STORE), decision));
  }

  predicate Compatible(answer: Option<Decision>, decision: Decision) { answer.Some? ==> answer.value == decision }

  /** The incident's own requests. */
  lemma OwnRequestReplays(env: Env, k: Desk, q: Request, decision: Decision)
    requires DeskOk(env, k) && AboutIncident(q) && Replays(env, Durable(k.thread, k.store), decision)
    requires Compatible(Served(env, k, q).thread.answer, decision)
    ensures var k' := Served(env, k, q); Replays(env, Durable(k'.thread, k'.store), decision)
  {
    var d, k' := Durable(k.thread, k.store), Served(env, k, q);
    var events := ServedIsSched(env, k, q);
    KeyedDesk(env, k);
    CrashTransparent(env.deps, d, events, decision);
    ReplaysAcross(env, d, Durable(k'.thread, k'.store), decision);
  }

  /** Another incident's requests. */
  lemma OtherRequestReplays(env: Env, th: Thread, s: Store, s': Store, threadId: string, decision: Decision)
    requires Replays(env, Durable(th, s), decision) && Keyed(s.rows) && Keyed(s'.rows)
    requires Grown(s, s', threadId) && threadId != env.deps.threadId
    ensures Replays(env, Durable(th, s'), decision)
  {
    var d, d' := Durable(th, s), Durable(th, s');
    forall k | Own(s'.rows, env.deps.threadId, k) || Own(s.rows, env.deps.threadId, k)
      ensures k in s'.rows && k in s.rows && s'.rows[k] == s.rows[k]
    {
    }
    FinalAlike(env.deps, d', d, decision);
    ReplaysAcross(env, d, d', decision);
  }

  lemma NewReplays(env: Env, store: Store, decision: Decision)
    requires Keyed(store.rows) && Untouched(store, env.deps.threadId)
    ensures Replays(env, Durable(START, store), decision)
  {
    FinalAlike(env.deps, Durable(START, store), Durable(START, NO_STORE), decision);
  }

  lemma StepReplays(envs: nat -> Env, w: World, q: Request, id: nat, decision: Decision)
    requires Configured(envs) && WorldOk(envs, w) && id in w.cases && Replays(envs(id), Held(w, id), decision)
    requires Compatible(AnswerOf(Step(envs, w, q), id), decision)
    ensures id in Step(envs, w, q).cases && Replays(envs(id), Held(Step(envs, w, q), id), decision)
  {
    var w' := Step(envs, w, q);
    StepCase(envs, w, q, id);
    assert DeskOk(envs(id), DeskOf(w, id));
    if Touches(q, id) {
      OwnRequestReplays(envs(id), DeskOf(w, id), q, decision);
    } else if AboutIncident(q) && q.id in w.cases {
      StepOk(envs, w, q);
      StepCase(envs, w, q, q.id);
      ServedGrows(envs(q.id), DeskOf(w, q.id), q);
      assert envs(q.id).deps.threadId == ThreadId(q.id) && envs(id).deps.threadId == ThreadId(id);
      if ThreadId(q.id) == ThreadId(id) { ThreadIdInjective(q.id, id); }
      OtherRequestReplays(envs(id), w.cases[id].thread, w.store, w'.store, ThreadId(q.id), decision);
    }
  }

  lemma CreatedReplays(envs: nat -> Env, w: World, q: Request, id: nat, decision: Decision)
    requires Configured(envs) && WorldOk(envs, w) && id !in w.cases && id in Step(envs, w, q).cases
    ensures Replays(envs(id), Held(Step(envs, w, q), id), decision)
  {
    StepAbsent(envs, w, q, id);
    NewThreadUntouched(w, id);
    assert envs(id).deps.threadId == ThreadId(id);
    NewReplays(envs(id), w.store, decision);
  }

  /** In any history, an incident finished with its answer is the undisturbed investigation on its own. */
  lemma {:induction false} HistoryReplays(envs: nat -> Env, requests: seq<Request>, id: nat, decision: Decision)
    requires Configured(envs) && id in After(envs, requests).cases
    requires Compatible(AnswerOf(After(envs, requests), id), decision)
    ensures Replays(envs(id), Held(After(envs, requests), id), decision)
    decreases |requests|
  {
    if requests == [] {
      assert false;
    } else {
      var n := |requests| - 1;
      var w := After(envs, requests[..n]);
      LastStep(envs, requests);
      HistoryOk(envs, requests[..n]);
      LastAnswer(envs, requests, id);
      if id in w.cases {
        HistoryReplays(envs, requests[..n], id, decision);
        StepReplays(envs, w, requests[n], id, decision);
      } else {
        CreatedReplays(envs, w, requests[n], id, decision);
      }
    }
  }

  // ------------------------------------------------------------ closed incidents

  /** A row but for when and in which process it was written, and whether its remediation was found already done. */
  function Bare(row: AuditRow): AuditRow {
    AuditRow(row.step, row.toolName,
             match row.arguments
             case ToolArguments(_) => row.arguments
             case RequestArguments(pending, _) => RequestArguments(pending, "")
             case DecisionArguments(decision, _) => DecisionArguments(decision, ""),
             match row.result
             case ToolJson(_) => row.result
             case RemediationJson(None) => row.result
             case RemediationJson(Some(r)) => RemediationJson(Some(r.(deduplicated := false))),
             row.error, 0)
  }

  /** The two incidents tell the same story. */
  ghost predicate SameStory(c1: Incident, c2: Incident) {
    && c1.status == c2.status && c1.diagnosis == c2.diagnosis && c1.stepsUsed == c2.stepsUsed && c1.cost == c2.cost
    && |c1.audit| == |c2.audit| && forall i :: 0 <= i < |c1.audit| ==> Bare(c1.audit[i]) == Bare(c2.audit[i])
  }

  lemma LogsAgree(env: Env, a1: seq<AuditRow>, a2: seq<AuditRow>, t1: Thread, t2: Thread, extra: nat)
    requires AuditLog(env.deps, a1, t1, extra) && AuditLog(env.deps, a2, t2, extra) && extra <= 2
    requires EraseFlag(t1) == EraseFlag(t2)
    ensures |a1| == |a2| && forall i :: 0 <= i < |a1| ==> Bare(a1[i]) == Bare(a2[i])
  {
    var trail := t1.state.evidence;
    assert trail == t2.state.evidence && t1.state.steps == t2.state.steps && t1.state.diagnosis == t2.state.diagnosis;
    forall i | 0 <= i < |a1| ensures Bare(a1[i]) == Bare(a2[i]) {
      if i < |trail| {
        assert IsEvidence(a1[i], trail[i]) && IsEvidence(a2[i], trail[i]);
      } else if i == |trail| {
        assert IsRequest(a1[i], t1.state.steps, env.deps.service, t1.state.diagnosis.value);
        assert IsRequest(a2[i], t1.state.steps, env.deps.service, t1.state.diagnosis.value);
      } else {
        assert IsDecision(a1[i], t1.state) && IsDecision(a2[i], t2.state);
      }
    }
  }

  lemma ClosedIsFinal(env: Env, d: Durable, decision: Decision)
    requires d.thread.next == AtEnd
    ensures Final(env.deps, d, decision) == d
  {
  }

  lemma ClosedAlike(env: Env, k1: Desk, k2: Desk)
    requires DeskOk(env, k1) && DeskOk(env, k2) && k1.incident.status.Closed? && k2.incident.status.Closed?
    requires EraseFlag(k1.thread) == EraseFlag(k2.thread)
    ensures SameStory(k1.incident, k2.incident)
  {
    LogsAgree(env, k1.incident.audit, k2.incident.audit, k1.thread, k2.thread, Extra(k1.thread.state));
  }

  /** Any two histories that close an incident on the same answer leave the same thread, rows, incident row and log. */
  lemma ClosesReproduce(envs: nat -> Env, h1: seq<Request>, h2: seq<Request>, id: nat)
    requires Configured(envs) && id in After(envs, h1).cases && id in After(envs, h2).cases
    requires After(envs, h1).cases[id].incident.status.Closed? && After(envs, h2).cases[id].incident.status.Closed?
    requires AnswerOf(After(envs, h1), id) == AnswerOf(After(envs, h2), id)
    ensures var w1, w2 := After(envs, h1), After(envs, h2);
      && EraseFlag(w1.cases[id].thread) == EraseFlag(w2.cases[id].thread)
      && SameOwn(w1.store.rows, w2.store.rows, ThreadId(id))
      && SameStory(w1.cases[id].incident, w2.cases[id].incident)
  {
    var w1, w2 := After(envs, h1), After(envs, h2);
    var answer := AnswerOf(w1, id);
    var decision := if answer.Some? then answer.value else TIMEOUT_DECISION;
    var env := envs(id);
    CaseAfter(envs, h1, id);
    CaseAfter(envs, h2, id);
    HistoryReplays(envs, h1, id, decision);
    HistoryReplays(envs, h2, id, decision);
    ClosedIsFinal(env, Held(w1, id), decision);
    ClosedIsFinal(env, Held(w2, id), decision);
    AlikeBack(env, Held(w2, id), Final(env.deps, Durable(START, NO_STORE), decision));
    AlikeTwice(env, Held(w1, id), Final(env.deps, Durable(START, NO_STORE), decision), Held(w2, id));
    ClosedAlike(env, DeskOf(w1, id), DeskOf(w2, id));
  }

  lemma AlikeBack(env: Env, a: Durable, b: Durable)
    requires Alike(env.deps, a, b)
    ensures Alike(env.deps, b, a)
  {
  }
}
