/** Idempotent remediation execution: the canonical key, and look up, execute, commit. */
module Idempotency {
  import opened CanonicalJson

  /** A committed row of `remediation_executions`. */
  datatype Row = Row(threadId: string, actionType: string, target: string, params: Json, result: Json)

  /** One run of an executor in the outside world, whether or not its row was ever committed. */
  datatype Execution = Execution(threadId: string, actionType: string, target: string, params: Json)

  /** Keyed by the payload text: SHA-256 is taken to be collision-free. */
  type Table = map<string, Row>

  datatype Store = Store(rows: Table, runs: seq<Execution>)

  function Payload(threadId: string, actionType: string, target: string, params: Json): Json {
    JObj([Field("thread_id", JStr(threadId)), Field("action_type", JStr(actionType)),
          Field("target", JStr(target)), Field("params", params)])
  }

  function KeyOf(threadId: string, actionType: string, target: string, params: Json): string {
    Dumps(Payload(threadId, actionType, target, params))
  }

  function RunKey(e: Execution): string { KeyOf(e.threadId, e.actionType, e.target, e.params) }

  lemma PayloadFields(threadId: string, actionType: string, target: string, params: Json)
    requires Wf(params)
    ensures Wf(Payload(threadId, actionType, target, params))
    ensures Denote(Payload(threadId, actionType, target, params)) ==
      VObj(map["thread_id" := VStr(threadId), "action_type" := VStr(actionType),
               "target" := VStr(target), "params" := Denote(params)])
  {
    KeysDistinct();
    var f0, f1 := Field("thread_id", JStr(threadId)), Field("action_type", JStr(actionType));
    var f2, f3 := Field("target", JStr(target)), Field("params", params);
    Display4(f0, f1, f2, f3);
    Fields4(f0, f1, f2, f3, [f0, f1, f2, f3]);
  }

  lemma ConsTwo(f0: Field, f1: Field, tail: seq<Field>)
    requires Wf(f0.value) && Wf(f1.value) && WfFields(tail) && f0.key != f1.key
    requires forall g :: g in tail ==> g.key != f0.key && g.key != f1.key
    ensures WfFields([f0] + ([f1] + tail))
    ensures DenoteFields([f0] + ([f1] + tail))
         == DenoteFields(tail)[f1.key := Denote(f1.value)][f0.key := Denote(f0.value)]
  {
    WfCons(f1, tail);
    WfCons(f0, [f1] + tail);
    DenoteCons(f1, tail);
    DenoteCons(f0, [f1] + tail);
  }

  /** A four-key dict, built from the back. */
  lemma Fields4(f0: Field, f1: Field, f2: Field, f3: Field, fields: seq<Field>)
    requires Wf(f0.value) && Wf(f1.value) && Wf(f2.value) && Wf(f3.value)
    requires f0.key != f1.key && f0.key != f2.key && f0.key != f3.key
    requires f1.key != f2.key && f1.key != f3.key && f2.key != f3.key
    requires fields == [f0] + ([f1] + ([f2] + ([f3] + [])))
    ensures WfFields(fields)
    ensures DenoteFields(fields)
         == map[f3.key := Denote(f3.value)][f2.key := Denote(f2.value)]
               [f1.key := Denote(f1.value)][f0.key := Denote(f0.value)]
  {
    var two := [f2] + ([f3] + []);
    ConsTwo(f2, f3, []);
    assert forall g :: g in two <==> g == f2 || g == f3;
    ConsTwo(f0, f1, two);
  }

  lemma Display4<T>(a: T, b: T, c: T, d: T)
    ensures [a] + ([b] + ([c] + ([d] + []))) == [a, b, c, d]
  {
  }

  lemma KeysDistinct()
    ensures "thread_id" != "action_type" && "thread_id" != "target" && "thread_id" != "params"
    ensures "action_type" != "target" && "action_type" != "params" && "target" != "params"
  {
    assert "target"[0] != "params"[0];
    assert |"thread_id"| == 9 && |"action_type"| == 11 && |"target"| == 6 && |"params"| == 6;
  }

  /** Two attempts share a key exactly when thread, action, target and (as a dict) params all agree. */
  lemma KeyInjective(t: string, a: string, g: string, p: Json, t': string, a': string, g': string, p': Json)
    requires Wf(p) && Wf(p')
    ensures KeyOf(t, a, g, p) == KeyOf(t', a', g', p')
       <==> t == t' && a == a' && g == g' && Denote(p) == Denote(p')
  {
    PayloadFields(t, a, g, p);
    PayloadFields(t', a', g', p');
    DumpsCanonical(Payload(t, a, g, p), Payload(t', a', g', p'));
    KeysDistinct();
    var m := map["thread_id" := VStr(t), "action_type" := VStr(a), "target" := VStr(g), "params" := Denote(p)];
    var m' := map["thread_id" := VStr(t'), "action_type" := VStr(a'), "target" := VStr(g'), "params" := Denote(p')];
    if m == m' {
      assert m["thread_id"] == VStr(t) && m'["thread_id"] == VStr(t');
      assert m["action_type"] == VStr(a) && m'["action_type"] == VStr(a');
      assert m["target"] == VStr(g) && m'["target"] == VStr(g');
      assert m["params"] == Denote(p) && m'["params"] == Denote(p');
    }
  }

  datatype Claim = Claim(result: Json, deduplicated: bool, store: Store)

  /** What one undisturbed attempt does.  `outcome` is what the executor would return now. */
  function Claimed(s: Store, e: Execution, outcome: Json): Claim {
    var key := RunKey(e);
    if key in s.rows then Claim(s.rows[key].result, true, s)
    else Claim(outcome, false, Store(s.rows[key := RowOf(e, outcome)], s.runs + [e]))
  }

  function RowOf(e: Execution, result: Json): Row {
    Row(e.threadId, e.actionType, e.target, e.params, result)
  }

  /** The table behind its own, immediately committed session. */
  class RemediationLedger {
    var rows: Table
    var runs: seq<Execution>

    constructor ()
      ensures rows == map[] && runs == []
    {
      rows, runs := map[], [];
    }

    function View(): Store
      reads this
    {
      Store(rows, runs)
    }

    /** `executor` may answer differently each time it is run: it sees how many runs there have been. */
    method ExecuteIdempotently(threadId: string, actionType: string, target: string, params: Json,
                               executor: nat -> Json)
      returns (result: Json, deduplicated: bool)
      modifies this
      ensures Claim(result, deduplicated, View())
           == Claimed(old(View()), Execution(threadId, actionType, target, params), executor(|old(runs)|))
      ensures deduplicated <==> runs == old(runs)
    {
      var key := KeyOf(threadId, actionType, target, params);
      if key in rows {
        return rows[key].result, true;
      }
      result := executor(|runs|);
      runs := runs + [Execution(threadId, actionType, target, params)];
      rows := rows[key := Row(threadId, actionType, target, params, result)];
      deduplicated := false;
    }
  }

  /** Serial attempts at one action, each with whatever its executor would return. */
  function ExecuteAll(s: Store, e: Execution, outcomes: seq<Json>): Store
    decreases |outcomes|
  {
    if outcomes == [] then s else ExecuteAll(Claimed(s, e, outcomes[0]).store, e, outcomes[1..])
  }

  /** With no loss, any number of serial attempts run once, and every later one returns the first result. */
  lemma {:induction false} SerialAttemptsRunOnce(s: Store, e: Execution, outcomes: seq<Json>, last: Json)
    requires RunKey(e) !in s.rows && outcomes != []
    ensures ExecuteAll(s, e, outcomes) == Store(s.rows[RunKey(e) := RowOf(e, outcomes[0])], s.runs + [e])
    ensures var c := Claimed(ExecuteAll(s, e, outcomes), e, last);
      c.result == outcomes[0] && c.deduplicated && c.store == ExecuteAll(s, e, outcomes)
  {
    RepeatsChangeNothing(Claimed(s, e, outcomes[0]).store, e, outcomes[1..]);
  }

  lemma {:induction false} RepeatsChangeNothing(s: Store, e: Execution, outcomes: seq<Json>)
    requires RunKey(e) in s.rows
    ensures ExecuteAll(s, e, outcomes) == s
    decreases |outcomes|
  {
    if outcomes != [] {
      RepeatsChangeNothing(s, e, outcomes[1..]);
    }
  }
}
