/** Service memory: the write gate, consolidation and the admin delete, against a plain per-key count. */
module Memory {
  import opened Wrappers
  import opened Policy
  import opened Remediation
  import opened Schemas

  datatype Outcome = Blocked | Executed | ApprovedAndExecuted | Denied | UnknownOutcome

  datatype MemoryRow = MemoryRow(service: int, source: int, symptom: string, rootCause: string, fix: Action,
                                 outcome: Outcome, confidence: real, count: nat, createdAt: int)

  /** Rows by id.  Ids below `next` have been handed out, and a larger id is a more recent row. */
  datatype Table = Table(rows: map<int, MemoryRow>, next: nat)

  /** What consolidation groups by, within one service. */
  datatype Pattern = Pattern(service: int, symptom: string, fix: Action)

  function PatternOf(r: MemoryRow): Pattern { Pattern(r.service, r.symptom, r.fix) }

  ghost predicate WfTable(t: Table) { forall id :: id in t.rows ==> 0 <= id < t.next }

  // ------------------------------------------------------------- write gate

  function DeriveOutcome(verdict: Option<Verdict>, approval: Option<Decision>): Outcome {
    match verdict
    case Some(Block) => Blocked
    case Some(Execute) => Executed
    case Some(RequireApproval) =>
      if approval.Some? && approval.value.approved then ApprovedAndExecuted else Denied
    case _ => UnknownOutcome
  }

  function Join(parts: seq<string>): string {
    if parts == [] then "" else if |parts| == 1 then parts[0] else parts[0] + "; " + Join(parts[1..])
  }

  /** Python's `"; ".join`, read from the other end. */
  lemma {:induction false} JoinAppends(parts: seq<string>, last: string)
    ensures Join([]) == "" && Join([last]) == last
    ensures parts != [] ==> Join(parts + [last]) == Join(parts) + "; " + last
  {
    if |parts| == 1 {
      assert (parts + [last])[1..] == [last];
    } else if |parts| > 1 {
      JoinAppends(parts[1..], last);
      assert (parts + [last])[1..] == parts[1..] + [last];
    }
  }

  /** None for anything but a confirmed, confident diagnosis. */
  function ConfirmedRow(service: int, incident: int, diagnosis: Option<Diagnosis>, verdict: Option<Verdict>,
                        approval: Option<Decision>, minConfidence: real, now: int): Option<MemoryRow>
  {
    match diagnosis
    case None => None
    case Some(d) =>
      if d.action == Escalate || d.confidence < minConfidence then None
      else Some(MemoryRow(service, incident, Join(d.evidence), d.text, d.action, DeriveOutcome(verdict, approval),
                          d.confidence, 1, now))
  }

  /** Exactly the confident diagnoses that do not escalate are written, once, with what was diagnosed. */
  lemma ConfirmedExactly(service: int, incident: int, diagnosis: Option<Diagnosis>, verdict: Option<Verdict>,
                         approval: Option<Decision>, minConfidence: real, now: int)
    ensures var row := ConfirmedRow(service, incident, diagnosis, verdict, approval, minConfidence, now);
      && (row.Some? <==>
            diagnosis.Some? && diagnosis.value.action != Escalate && diagnosis.value.confidence >= minConfidence)
      && (row.Some? ==>
            && row.value.service == service && row.value.source == incident
            && row.value.rootCause == diagnosis.value.text && row.value.fix == diagnosis.value.action
            && row.value.confidence == diagnosis.value.confidence && row.value.count == 1 && row.value.createdAt == now
            && row.value.symptom == Join(diagnosis.value.evidence))
  {
  }

  function Write(t: Table, r: MemoryRow): Table { Table(t.rows[t.next := r], t.next + 1) }

  function Delete(t: Table, id: int): Table { Table(t.rows - {id}, t.next) }

  // ---------------------------------------------------------- consolidation

  predicate InGroup(t: Table, id: int, p: Pattern) { id in t.rows && PatternOf(t.rows[id]) == p }

  /** Sum of the counts of a pattern's rows with an id below `n`. */
  function GroupCount(t: Table, p: Pattern, n: nat): nat {
    if n == 0 then 0
    else GroupCount(t, p, n - 1) + if InGroup(t, n - 1, p) then t.rows[n - 1].count else 0
  }

  /** The highest confidence among them, 0 for none; confidences are never negative. */
  function GroupBest(t: Table, p: Pattern, n: nat): real {
    if n == 0 then 0.0 else
    var best := GroupBest(t, p, n - 1);
    if InGroup(t, n - 1, p) && t.rows[n - 1].confidence > best then t.rows[n - 1].confidence else best
  }

  ghost predicate Newest(t: Table, id: int) {
    id in t.rows && forall j :: j > id ==> !InGroup(t, j, PatternOf(t.rows[id]))
  }

  function Merged(t: Table, id: int): MemoryRow
    requires id in t.rows
  {
    var p := PatternOf(t.rows[id]);
    t.rows[id].(count := GroupCount(t, p, t.next), confidence := GroupBest(t, p, t.next))
  }

  /** Groups for which `done` holds keep only their newest row, carrying the group's sum and maximum. */
  ghost function MergedWhere(t: Table, done: set<Pattern>): Table {
    Table(map id | id in t.rows && (PatternOf(t.rows[id]) !in done || Newest(t, id)) ::
            if PatternOf(t.rows[id]) in done then Merged(t, id) else t.rows[id],
          t.next)
  }

  function Patterns(t: Table, service: int): set<Pattern> {
    set id | id in t.rows && t.rows[id].service == service :: PatternOf(t.rows[id])
  }

  ghost function Consolidated(t: Table, service: int): Table { MergedWhere(t, Patterns(t, service)) }

  ghost predicate NonNegative(t: Table) { forall id :: id in t.rows ==> t.rows[id].confidence >= 0.0 }

  /** `list_service_memory`: the newest-first ids of one service, below `n`. */
  function Listing(t: Table, service: int, n: nat): seq<int> {
    if n == 0 then []
    else (if n - 1 in t.rows && t.rows[n - 1].service == service then [n - 1] else []) + Listing(t, service, n - 1)
  }

  function Select(t: Table, ids: seq<int>, p: Pattern): seq<int> {
    if ids == [] then [] else (if InGroup(t, ids[0], p) then [ids[0]] else []) + Select(t, ids[1..], p)
  }

  lemma {:induction false} SelectAppend(t: Table, ids: seq<int>, id: int, p: Pattern)
    ensures Select(t, ids + [id], p) == Select(t, ids, p) + if InGroup(t, id, p) then [id] else []
  {
    if ids == [] {
      assert [id][1..] == [];
    } else {
      SelectAppend(t, ids[1..], id, p);
      assert (ids + [id])[1..] == ids[1..] + [id];
    }
  }

  /** One pattern's ids, newest first. */
  function GroupOf(t: Table, p: Pattern, n: nat): seq<int> { Select(t, Listing(t, p.service, n), p) }

  lemma GroupOfStep(t: Table, p: Pattern, n: nat)
    ensures GroupOf(t, p, n + 1) == if InGroup(t, n, p) then [n] + GroupOf(t, p, n) else GroupOf(t, p, n)
  {
    var rest := Listing(t, p.service, n);
    if n in t.rows && t.rows[n].service == p.service {
      assert ([n] + rest)[1..] == rest;
    } else {
      assert Listing(t, p.service, n + 1) == rest;
    }
  }

  ghost predicate Descending(ids: seq<int>) { forall i, j :: 0 <= i < j < |ids| ==> ids[i] > ids[j] }

  /** `g` lists exactly the pattern's ids below `n`, newest first. */
  ghost predicate Lists(g: seq<int>, t: Table, p: Pattern, n: nat) {
    Descending(g) && forall id :: id in g <==> 0 <= id < n && InGroup(t, id, p)
  }

  lemma ListsCons(rest: seq<int>, t: Table, p: Pattern, n: nat, g: seq<int>)
    requires Lists(rest, t, p, n) && g == if InGroup(t, n, p) then [n] + rest else rest
    ensures Lists(g, t, p, n + 1)
  {
    assert forall i :: 0 <= i < |rest| ==> rest[i] in rest;
    forall id ensures id in g <==> 0 <= id < n + 1 && InGroup(t, id, p) {
      assert id in g <==> id in rest || (id == n && InGroup(t, n, p));
    }
  }

  /** Recursion stated over `g` alone, so that the listing itself is unfolded only once. */
  lemma {:induction false} GroupOfSpec(t: Table, p: Pattern, n: nat, g: seq<int>)
    requires g == GroupOf(t, p, n)
    ensures Lists(g, t, p, n)
  {
    if n == 0 {
      assert g == [];
    } else {
      var rest := GroupOf(t, p, n - 1);
      GroupOfStep(t, p, n - 1);
      GroupOfSpec(t, p, n - 1, rest);
      ListsCons(rest, t, p, n - 1, g);
    }
  }

  lemma PatternMember(t: Table, service: int, id: int)
    requires id in t.rows && t.rows[id].service == service
    ensures PatternOf(t.rows[id]) in Patterns(t, service)
  {
  }

  function Sum(rows: map<int, MemoryRow>, ids: seq<int>): nat {
    if ids == [] then 0 else (if ids[0] in rows then rows[ids[0]].count else 0) + Sum(rows, ids[1..])
  }

  function Max(rows: map<int, MemoryRow>, ids: seq<int>): real {
    if ids == [] then 0.0 else
    var best := Max(rows, ids[1..]);
    if ids[0] in rows && rows[ids[0]].confidence > best then rows[ids[0]].confidence else best
  }

  lemma {:induction false} TotalsUnchanged(rows: map<int, MemoryRow>, rows': map<int, MemoryRow>, ids: seq<int>)
    requires forall i :: 0 <= i < |ids| ==> ids[i] in rows && ids[i] in rows' && rows[ids[i]] == rows'[ids[i]]
    ensures Sum(rows, ids) == Sum(rows', ids) && Max(rows, ids) == Max(rows', ids)
  {
    if ids != [] {
      TotalsUnchanged(rows, rows', ids[1..]);
    }
  }

  lemma {:induction false} GroupTotals(t: Table, p: Pattern, n: nat)
    ensures Sum(t.rows, GroupOf(t, p, n)) == GroupCount(t, p, n) && Max(t.rows, GroupOf(t, p, n)) == GroupBest(t, p, n)
  {
    if n > 0 {
      GroupTotals(t, p, n - 1);
      GroupOfStep(t, p, n - 1);
      var rest := GroupOf(t, p, n - 1);
      if InGroup(t, n - 1, p) {
        assert ([n - 1] + rest)[1..] == rest;
      } else {
        assert GroupOf(t, p, n) == rest;
      }
    }
  }

  /** Rows left once the stale ids at positions 1 to i-1 of the group are deleted. */
  ghost function Dropped(rows: map<int, MemoryRow>, group: seq<int>, i: nat): map<int, MemoryRow>
    requires 1 <= i <= |group|
  {
    map id | id in rows && id !in group[1..i] :: rows[id]
  }

  lemma DropStep(rows: map<int, MemoryRow>, group: seq<int>, i: nat)
    requires 1 <= i < |group| && Descending(group) && group[i] in rows
    ensures group[i] in Dropped(rows, group, i)
    ensures Dropped(rows, group, i + 1) == Dropped(rows, group, i) - {group[i]}
    ensures |Dropped(rows, group, i + 1)| == |Dropped(rows, group, i)| - 1
  {
    assert group[1..i + 1] == group[1..i] + [group[i]];
    var before, after := Dropped(rows, group, i), Dropped(rows, group, i + 1);
    assert after.Keys == before.Keys - {group[i]};
    assert |before.Keys| == |before| && |after.Keys| == |after|;
  }

  /** One group: its first row takes the totals, the others go, and every other row stays. */
  ghost function WithGroupMerged(t: Table, group: seq<int>, rows: map<int, MemoryRow>): map<int, MemoryRow>
    requires group != [] && group[0] in t.rows
  {
    Dropped(rows[group[0] := Merged(t, group[0])], group, |group|)
  }

  lemma MergeStep(t: Table, done: set<Pattern>, p: Pattern)
    requires WfTable(t) && p !in done && GroupOf(t, p, t.next) != []
    ensures var group := GroupOf(t, p, t.next);
      && group[0] in t.rows
      && WithGroupMerged(t, group, MergedWhere(t, done).rows) == MergedWhere(t, done + {p}).rows
  {
    var group := GroupOf(t, p, t.next);
    GroupOfSpec(t, p, t.next, GroupOf(t, p, t.next));
    assert group[0] in group;
    var before, after := MergedWhere(t, done).rows, MergedWhere(t, done + {p}).rows;
    var result := WithGroupMerged(t, group, before);
    forall id ensures (id in result <==> id in after) && (id in after ==> result[id] == after[id]) {
      MergeStepKey(t, done, p, group, id);
    }
  }

  lemma MergeStepKey(t: Table, done: set<Pattern>, p: Pattern, group: seq<int>, id: int)
    requires WfTable(t) && p !in done && group != [] && Lists(group, t, p, t.next) && group[0] in t.rows
    ensures var result, after := WithGroupMerged(t, group, MergedWhere(t, done).rows), MergedWhere(t, done + {p}).rows;
      (id in result <==> id in after) && (id in after ==> result[id] == after[id])
  {
    assert group == [group[0]] + group[1..];
    var rows := MergedWhere(t, done).rows[group[0] := Merged(t, group[0])];
    if InGroup(t, id, p) {
      NewestIsFirst(t, p, group, id);
      assert id in group && group[0] !in group[1..];
      assert id in Dropped(rows, group, |group|) <==> id == group[0];
    } else {
      assert group[0] in group && id !in group;
      assert id in Dropped(rows, group, |group|) <==> id in MergedWhere(t, done).rows;
    }
  }

  lemma NewestIsFirst(t: Table, p: Pattern, group: seq<int>, id: int)
    requires WfTable(t) && group != [] && Lists(group, t, p, t.next) && id in group
    ensures Newest(t, id) <==> id == group[0]
  {
    assert group[0] in group;
    forall j | j in group ensures j <= group[0] {
      var k :| 0 <= k < |group| && group[k] == j;
    }
    assert forall j :: InGroup(t, j, p) ==> j in group;
  }

  lemma GroupNonEmpty(t: Table, service: int, p: Pattern)
    requires WfTable(t) && p in Patterns(t, service)
    ensures p.service == service && GroupOf(t, p, t.next) != []
  {
    GroupOfSpec(t, p, t.next, GroupOf(t, p, t.next));
    var id :| id in t.rows && t.rows[id].service == service && PatternOf(t.rows[id]) == p;
    assert id in GroupOf(t, p, t.next);
  }

  lemma {:induction false} SingleTotals(t: Table, p: Pattern, id: int, n: nat)
    requires InGroup(t, id, p) && 0 <= id && t.rows[id].confidence >= 0.0
    requires forall j :: 0 <= j < n && j != id ==> !InGroup(t, j, p)
    ensures GroupCount(t, p, n) == (if id < n then t.rows[id].count else 0)
    ensures GroupBest(t, p, n) == (if id < n then t.rows[id].confidence else 0.0)
  {
    if n > 0 {
      SingleTotals(t, p, id, n - 1);
    }
  }

  ghost predicate GroupedBy(t: Table, groups: map<Pattern, seq<int>>, ids: seq<int>) {
    forall p: Pattern :: Select(t, ids, p) == if p in groups then groups[p] else []
  }

  lemma GroupStep(t: Table, groups: map<Pattern, seq<int>>, ids: seq<int>, id: int)
    requires id in t.rows && GroupedBy(t, groups, ids)
    ensures var p := PatternOf(t.rows[id]);
      GroupedBy(t, groups[p := (if p in groups then groups[p] else []) + [id]], ids + [id])
  {
    forall q: Pattern { SelectAppend(t, ids, id, q); }
  }

  /** Grouped by listing order, the service's patterns are the groups. */
  lemma GroupsComplete(t: Table, groups: map<Pattern, seq<int>>, service: int)
    requires WfTable(t) && groups.Keys <= Patterns(t, service) && GroupedBy(t, groups, Listing(t, service, t.next))
    ensures groups.Keys == Patterns(t, service)
    ensures forall p :: p in groups ==> groups[p] == GroupOf(t, p, t.next)
  {
    forall p | p in Patterns(t, service) ensures p in groups && groups[p] == GroupOf(t, p, t.next) {
      GroupNonEmpty(t, service, p);
      assert Select(t, Listing(t, service, t.next), p) == if p in groups then groups[p] else [];
    }
  }

  class ServiceMemory {
    var table: Table

    constructor ()
      ensures table == Table(map[], 0)
    {
      table := Table(map[], 0);
    }

    /** The only path onto the table. */
    method WriteConfirmed(service: int, incident: int, diagnosis: Option<Diagnosis>, verdict: Option<Verdict>,
                          approval: Option<Decision>, minConfidence: real, now: int)
      returns (written: bool)
      modifies this
      ensures var row := ConfirmedRow(service, incident, diagnosis, verdict, approval, minConfidence, now);
        written == row.Some? && table == if row.Some? then Write(old(table), row.value) else old(table)
    {
      if diagnosis.None? || diagnosis.value.action == Escalate || diagnosis.value.confidence < minConfidence {
        return false;
      }
      var d := diagnosis.value;
      var row := MemoryRow(service, incident, Join(d.evidence), d.text, d.action, DeriveOutcome(verdict, approval),
                           d.confidence, 1, now);
      table := Table(table.rows[table.next := row], table.next + 1);
      written := true;
    }

    method DeleteEntry(id: int) returns (found: bool)
      modifies this
      ensures found == (id in old(table).rows)
      ensures table == Delete(old(table), id)
    {
      found := id in table.rows;
      table := Table(table.rows - {id}, table.next);
    }

    /** Insertion into a dict of lists, in listing order. */
    method GroupRows(service: int) returns (groups: map<Pattern, seq<int>>)
      requires WfTable(table)
      ensures groups.Keys == Patterns(table, service)
      ensures forall p :: p in groups ==> groups[p] == GroupOf(table, p, table.next)
    {
      var rows := Listing(table, service, table.next);
      ListingSpec(table, service, table.next);
      groups := map[];
      var i := 0;
      while i < |rows|
        invariant 0 <= i <= |rows|
        invariant groups.Keys <= Patterns(table, service)
        invariant GroupedBy(table, groups, rows[..i])
      {
        var p := PatternOf(table.rows[rows[i]]);
        PatternMember(table, service, rows[i]);
        assert rows[..i + 1] == rows[..i] + [rows[i]];
        GroupStep(table, groups, rows[..i], rows[i]);
        groups := groups[p := (if p in groups then groups[p] else []) + [rows[i]]];
        i := i + 1;
      }
      assert rows[..i] == rows;
      GroupsComplete(table, groups, service);
    }

    /** Keeps each group's newest row, gives it the group's sum and maximum, and deletes the stale ones. */
    method Consolidate(service: int) returns (removed: nat)
      requires WfTable(table) && NonNegative(table)
      modifies this
      ensures table == Consolidated(old(table), service)
      ensures removed == |old(table).rows| - |table.rows|
    {
      ghost var t := table;
      var groups := GroupRows(service);
      var todo := groups.Keys;
      ghost var all := todo;
      removed := 0;
      assert MergedWhere(t, all - todo).rows == t.rows;
      while todo != {}
        invariant todo <= all
        invariant table == Table(MergedWhere(t, all - todo).rows, t.next)
        invariant removed == |t.rows| - |table.rows|
        decreases |todo|
      {
        var p :| p in todo;
        GroupNonEmpty(t, service, p);
        MergeStep(t, all - todo, p);
        assert (all - todo) + {p} == all - (todo - {p});
        var dropped := MergeGroup(groups[p], t, p, all - todo);
        removed := removed + dropped;
        todo := todo - {p};
      }
      assert all - todo == all;
    }

    method MergeGroup(group: seq<int>, ghost t: Table, ghost p: Pattern, ghost done: set<Pattern>)
      returns (removed: nat)
      requires WfTable(t) && NonNegative(t) && p !in done && group == GroupOf(t, p, t.next) && group != []
      requires table == Table(MergedWhere(t, done).rows, t.next) && group[0] in t.rows
      modifies this
      ensures table == Table(WithGroupMerged(t, group, old(table).rows), t.next)
      ensures removed == |old(table).rows| - |table.rows|
    {
      MergedTotals(t, p, done);
      GroupOfSpec(t, p, t.next, GroupOf(t, p, t.next));
      removed := 0;
      if |group| < 2 {
        assert WithGroupMerged(t, group, table.rows) == table.rows;
        return;
      }
      var survivor := group[0];
      var merged := table.rows[survivor].(count := Sum(table.rows, group), confidence := Max(table.rows, group));
      table := Table(table.rows[survivor := merged], table.next);
      ghost var rows := table.rows;
      assert rows.Keys == old(table).rows.Keys;
      assert |rows| == |rows.Keys| && |old(table).rows| == |old(table).rows.Keys|;
      var i := 1;
      assert Dropped(rows, group, 1) == rows;
      while i < |group|
        invariant 1 <= i <= |group|
        invariant table == Table(Dropped(rows, group, i), t.next)
        invariant removed == |rows| - |table.rows|
      {
        assert group[i] in group;
        DropStep(rows, group, i);
        table := Table(table.rows - {group[i]}, table.next);
        removed := removed + 1;
        i := i + 1;
      }
    }
  }

  /** Read off the table as it stands, the totals of a group not merged yet are those of the original table. */
  lemma MergedTotals(t: Table, p: Pattern, done: set<Pattern>)
    requires WfTable(t) && NonNegative(t) && p !in done && GroupOf(t, p, t.next) != []
    ensures var group, rows := GroupOf(t, p, t.next), MergedWhere(t, done).rows;
      && (forall i :: 0 <= i < |group| ==> group[i] in rows)
      && Merged(t, group[0]) == rows[group[0]].(count := Sum(rows, group), confidence := Max(rows, group))
      && (|group| == 1 ==> Merged(t, group[0]) == rows[group[0]])
  {
    var group, rows := GroupOf(t, p, t.next), MergedWhere(t, done).rows;
    GroupOfSpec(t, p, t.next, GroupOf(t, p, t.next));
    GroupTotals(t, p, t.next);
    assert forall i :: 0 <= i < |group| ==> group[i] in group;
    TotalsUnchanged(t.rows, rows, group);
    if |group| == 1 {
      assert group == [group[0]];
      SingleTotals(t, p, group[0], t.next);
    }
  }

  ghost predicate AllOf(t: Table, service: int, ids: seq<int>) {
    forall i :: 0 <= i < |ids| ==> ids[i] in t.rows && t.rows[ids[i]].service == service
  }

  lemma {:induction false} ListingSpec(t: Table, service: int, n: nat)
    ensures AllOf(t, service, Listing(t, service, n))
  {
    if n > 0 {
      ListingSpec(t, service, n - 1);
      var rest := Listing(t, service, n - 1);
      assert Listing(t, service, n) == rest || Listing(t, service, n) == [n - 1] + rest;
    }
  }
}
