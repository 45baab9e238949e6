/** What consolidation keeps, and the memory table refined to a plain count of confirmations per pattern. */
module MemoryLedger {
  import opened Wrappers
  import opened Memory

  /** Every row stands alone in its pattern. */
  ghost predicate Clean(t: Table) {
    forall i, j :: i in t.rows && j in t.rows && PatternOf(t.rows[i]) == PatternOf(t.rows[j]) ==> i == j
  }

  ghost predicate Positive(t: Table) { forall id :: id in t.rows ==> t.rows[id].count >= 1 }

  ghost predicate Sound(t: Table) { WfTable(t) && NonNegative(t) && Positive(t) }

  lemma {:induction false} TotalsFrame(t: Table, t': Table, p: Pattern, n: nat)
    requires forall j :: 0 <= j < n ==> (InGroup(t, j, p) <==> InGroup(t', j, p))
    requires forall j :: 0 <= j < n && InGroup(t, j, p) ==> InGroup(t', j, p) && t.rows[j] == t'.rows[j]
    ensures GroupCount(t, p, n) == GroupCount(t', p, n) && GroupBest(t, p, n) == GroupBest(t', p, n)
  {
    if n > 0 {
      TotalsFrame(t, t', p, n - 1);
    }
  }

  lemma {:induction false} EmptyTotals(t: Table, p: Pattern, n: nat)
    requires forall j :: 0 <= j < n ==> !InGroup(t, j, p)
    ensures GroupCount(t, p, n) == 0 && GroupBest(t, p, n) == 0.0
  {
    if n > 0 {
      EmptyTotals(t, p, n - 1);
    }
  }

  lemma {:induction false} TotalsBound(t: Table, p: Pattern, id: int, n: nat)
    requires InGroup(t, id, p) && 0 <= id < n
    ensures GroupCount(t, p, n) >= t.rows[id].count && GroupBest(t, p, n) >= t.rows[id].confidence
  {
    if id < n - 1 {
      TotalsBound(t, p, id, n - 1);
    }
  }

  lemma {:induction false} BestNonNegative(t: Table, p: Pattern, n: nat)
    ensures GroupBest(t, p, n) >= 0.0
  {
    if n > 0 {
      BestNonNegative(t, p, n - 1);
    }
  }

  /** Exactly one row of a non-empty pattern is the newest. */
  lemma NewestExists(t: Table, p: Pattern, id: int) returns (newest: int)
    requires WfTable(t) && InGroup(t, id, p)
    ensures InGroup(t, newest, p) && Newest(t, newest)
  {
    var g := GroupOf(t, p, t.next);
    GroupOfSpec(t, p, t.next, g);
    assert id in g && g[0] in g;
    NewestIsFirst(t, p, g, g[0]);
    newest := g[0];
  }

  lemma NewestUnique(t: Table, p: Pattern, i: int, j: int)
    requires InGroup(t, i, p) && Newest(t, i) && InGroup(t, j, p) && Newest(t, j)
    ensures i == j
  {
  }

  lemma PatternOwner(t: Table, service: int, id: int)
    requires id in t.rows
    ensures PatternOf(t.rows[id]) in Patterns(t, service) <==> t.rows[id].service == service
  {
    if t.rows[id].service == service {
      PatternMember(t, service, id);
    }
  }

  /** Row by row: other services' rows stay, and of each pattern only the newest row is left, merged. */
  lemma ConsolidatedRow(t: Table, service: int, id: int)
    ensures var c := Consolidated(t, service);
      && c.next == t.next
      && (id in c.rows <==> id in t.rows && (t.rows[id].service != service || Newest(t, id)))
      && (id in c.rows && t.rows[id].service != service ==> c.rows[id] == t.rows[id])
      && (id in c.rows && t.rows[id].service == service ==> c.rows[id] == Merged(t, id))
      && (id in c.rows ==> PatternOf(c.rows[id]) == PatternOf(t.rows[id]))
  {
    if id in t.rows {
      PatternOwner(t, service, id);
    }
  }

  /** Consolidating a service leaves every row of every other service untouched. */
  lemma OtherServicesUntouched(t: Table, service: int)
    ensures var c := Consolidated(t, service);
      forall id :: (id in c.rows && c.rows[id].service != service) <==> (id in t.rows && t.rows[id].service != service)
    ensures forall id :: id in t.rows && t.rows[id].service != service ==>
      id in Consolidated(t, service).rows && Consolidated(t, service).rows[id] == t.rows[id]
  {
    forall id { ConsolidatedRow(t, service, id); }
  }

  /** Counts are conserved pattern by pattern, and so is the best confidence. */
  lemma TotalsConserved(t: Table, service: int, p: Pattern)
    requires WfTable(t) && NonNegative(t)
    ensures var c := Consolidated(t, service);
      GroupCount(c, p, c.next) == GroupCount(t, p, t.next) && GroupBest(c, p, c.next) == GroupBest(t, p, t.next)
  {
    var c := Consolidated(t, service);
    forall id { ConsolidatedRow(t, service, id); }
    if p.service != service {
      TotalsFrame(t, c, p, t.next);
    } else if id :| InGroup(t, id, p) {
      var newest := NewestExists(t, p, id);
      BestNonNegative(t, p, t.next);
      forall j | InGroup(c, j, p) ensures j == newest {
        NewestUnique(t, p, j, newest);
      }
      SingleTotals(c, p, newest, c.next);
    } else {
      assert forall j :: InGroup(c, j, p) ==> InGroup(t, j, p);
      EmptyTotals(t, p, t.next);
      EmptyTotals(c, p, c.next);
    }
  }

  /** Any two rows of the consolidated service differ in pattern, and every row is sound. */
  lemma ConsolidatedClean(t: Table, service: int)
    requires Sound(t)
    ensures var c := Consolidated(t, service);
      && Sound(c)
      && forall i, j :: (i in c.rows && j in c.rows && c.rows[i].service == service
                         && PatternOf(c.rows[i]) == PatternOf(c.rows[j])) ==> i == j
  {
    var c := Consolidated(t, service);
    forall id ensures id in c.rows ==>
      0 <= id < c.next && c.rows[id].confidence >= 0.0 && c.rows[id].count >= 1
      && id in t.rows && PatternOf(c.rows[id]) == PatternOf(t.rows[id])
      && (t.rows[id].service == service ==> Newest(t, id))
    {
      ConsolidatedRow(t, service, id);
      if id in c.rows {
        TotalsBound(t, PatternOf(t.rows[id]), id, t.next);
      }
    }
    forall i, j | i in c.rows && j in c.rows && PatternOf(c.rows[i]) == PatternOf(c.rows[j])
                  && c.rows[i].service == service
      ensures i == j
    {
      NewestUnique(t, PatternOf(c.rows[i]), i, j);
    }
  }

  /** Two tables with the same patterns row by row, the same newest rows and the same totals consolidate alike. */
  lemma SameConsolidation(t: Table, u: Table, service: int)
    requires t.next == u.next
    requires forall id :: id in t.rows && t.rows[id].service != service ==> id in u.rows && u.rows[id] == t.rows[id]
    requires forall id :: id in u.rows && u.rows[id].service != service ==> id in t.rows && u.rows[id] == t.rows[id]
    requires forall id :: (id in t.rows && t.rows[id].service == service && Newest(t, id))
                     <==> (id in u.rows && u.rows[id].service == service && Newest(u, id))
    requires forall id :: id in t.rows && t.rows[id].service == service && Newest(t, id) ==>
      Merged(t, id) == Merged(u, id)
    ensures Consolidated(t, service) == Consolidated(u, service)
  {
    var c, d := Consolidated(t, service), Consolidated(u, service);
    forall id ensures (id in c.rows <==> id in d.rows) && (id in c.rows ==> c.rows[id] == d.rows[id]) {
      ConsolidatedRow(t, service, id);
      ConsolidatedRow(u, service, id);
    }
  }

  /** A second consolidation changes nothing. */
  lemma ConsolidationIdempotent(t: Table, service: int)
    requires Sound(t)
    ensures Consolidated(Consolidated(t, service), service) == Consolidated(t, service)
  {
    var c := Consolidated(t, service);
    ConsolidatedClean(t, service);
    var cc := Consolidated(c, service);
    forall id ensures (id in c.rows <==> id in cc.rows) && (id in c.rows ==> c.rows[id] == cc.rows[id]) {
      ConsolidatedRow(c, service, id);
      if id in c.rows {
        ConsolidatedRow(t, service, id);
        TotalsConserved(t, service, PatternOf(c.rows[id]));
      }
    }
  }

  /** A table and its consolidation are told apart by no later write-and-consolidate of that service. */
  lemma ConsolidationAbsorbed(t: Table, r: MemoryRow)
    requires Sound(t) && r.confidence >= 0.0 && r.count >= 1
    ensures Consolidated(Write(Consolidated(t, r.service), r), r.service) == Consolidated(Write(t, r), r.service)
  {
    var service := r.service;
    var c := Consolidated(t, service);
    var t', c' := Write(t, r), Write(c, r);
    forall id { ConsolidatedRow(t, service, id); }
    forall id ensures (id in t'.rows && t'.rows[id].service == service && Newest(t', id))
                 <==> (id in c'.rows && c'.rows[id].service == service && Newest(c', id))
    {
      WriteNewest(t, c, r, id);
    }
    forall id | id in t'.rows && t'.rows[id].service == service && Newest(t', id)
      ensures Merged(t', id) == Merged(c', id)
    {
      WriteNewest(t, c, r, id);
      var p := PatternOf(t'.rows[id]);
      WriteTotals(t, r, p);
      WriteTotals(c, r, p);
      TotalsConserved(t, service, p);
    }
    SameConsolidation(t', c', service);
  }

  lemma WriteNewest(t: Table, c: Table, r: MemoryRow, id: int)
    requires Sound(t) && c == Consolidated(t, r.service)
    ensures var t', c' := Write(t, r), Write(c, r);
      (id in t'.rows && t'.rows[id].service == r.service && Newest(t', id))
      <==> (id in c'.rows && c'.rows[id].service == r.service && Newest(c', id))
    ensures id in Write(c, r).rows ==> (
      && id in Write(t, r).rows
      && PatternOf(Write(c, r).rows[id]) == PatternOf(Write(t, r).rows[id])
      && Write(c, r).rows[id].(count := 1, confidence := 0.0) == Write(t, r).rows[id].(count := 1, confidence := 0.0))
  {
    forall j { ConsolidatedRow(t, r.service, j); }
    var t', c' := Write(t, r), Write(c, r);
    if id in t'.rows && t'.rows[id].service == r.service && Newest(t', id) && id != t.next {
      forall j | j > id ensures !InGroup(t, j, PatternOf(t.rows[id])) {
        assert !InGroup(t', j, PatternOf(t.rows[id]));
      }
      assert Newest(t, id);
      var p := PatternOf(t.rows[id]);
      assert PatternOf(c'.rows[id]) == p && !InGroup(t', t.next, p);
      forall j | j > id ensures !InGroup(c', j, p) {
        assert j != t.next && InGroup(c', j, p) ==> InGroup(t, j, p);
      }
    }
    if id in c'.rows && c'.rows[id].service == r.service && Newest(c', id) && id != t.next {
      var p := PatternOf(t.rows[id]);
      assert Newest(t, id) && !InGroup(c', t.next, p);
      forall j | j > id ensures !InGroup(t', j, p) {
        assert j != t.next ==> !InGroup(t, j, p);
      }
    }
  }

  lemma WriteTotals(t: Table, r: MemoryRow, p: Pattern)
    requires WfTable(t)
    ensures var t' := Write(t, r);
      && GroupCount(t', p, t'.next) == GroupCount(t, p, t.next) + (if PatternOf(r) == p then r.count else 0)
      && GroupBest(t', p, t'.next) ==
         if PatternOf(r) == p && r.confidence > GroupBest(t, p, t.next) then r.confidence else GroupBest(t, p, t.next)
  {
    TotalsFrame(t, Write(t, r), p, t.next);
  }

  // ------------------------------------------------- whole-run refinement

  /** Incidents close with a confirmed row; an admin deletes an entry by id. */
  datatype Event = Confirm(row: MemoryRow) | Erase(id: int)

  ghost function Close(t: Table, r: MemoryRow): Table { Consolidated(Write(t, r), r.service) }

  ghost function Step(t: Table, ev: Event): Table {
    match ev case Confirm(r) => Close(t, r) case Erase(id) => Delete(t, id)
  }

  ghost function After(events: seq<Event>): Table {
    if events == [] then Table(map[], 0) else Step(After(events[..|events| - 1]), events[|events| - 1])
  }

  /** Confirmations of a pattern since it was last deleted. */
  ghost function Confirmed(events: seq<Event>, p: Pattern): nat {
    if events == [] then 0 else
    var before, ev := events[..|events| - 1], events[|events| - 1];
    match ev
    case Confirm(r) => Confirmed(before, p) + if PatternOf(r) == p then 1 else 0
    case Erase(id) => if InGroup(After(before), id, p) then 0 else Confirmed(before, p)
  }

  /** The highest confidence among them. */
  ghost function Best(events: seq<Event>, p: Pattern): real {
    if events == [] then 0.0 else
    var before, ev := events[..|events| - 1], events[|events| - 1];
    match ev
    case Confirm(r) => if PatternOf(r) == p && r.confidence > Best(before, p) then r.confidence else Best(before, p)
    case Erase(id) => if InGroup(After(before), id, p) then 0.0 else Best(before, p)
  }

  /** The pattern's most recent confirmation since it was last deleted. */
  ghost function Last(events: seq<Event>, p: Pattern): Option<MemoryRow> {
    if events == [] then None else
    var before, ev := events[..|events| - 1], events[|events| - 1];
    match ev
    case Confirm(r) => if PatternOf(r) == p then Some(r) else Last(before, p)
    case Erase(id) => if InGroup(After(before), id, p) then None else Last(before, p)
  }

  /** A row is its pattern's most recent confirmation, but for what is merged into it. */
  ghost predicate IsLatest(row: MemoryRow, last: Option<MemoryRow>) {
    last.Some? && row == last.value.(count := row.count, confidence := row.confidence)
  }

  /** Rows enter with a count of one. */
  ghost predicate Fresh(events: seq<Event>) {
    forall i :: 0 <= i < |events| && events[i].Confirm? ==> events[i].row.count == 1 && events[i].row.confidence >= 0.0
  }

  ghost predicate Refined(t: Table, events: seq<Event>) {
    && Sound(t) && Clean(t)
    && (forall p :: GroupCount(t, p, t.next) == Confirmed(events, p) && GroupBest(t, p, t.next) == Best(events, p))
    && forall id :: id in t.rows ==> IsLatest(t.rows[id], Last(events, PatternOf(t.rows[id])))
  }

  lemma WriteSound(t: Table, r: MemoryRow)
    requires Sound(t) && r.confidence >= 0.0 && r.count >= 1
    ensures Sound(Write(t, r))
  {
  }

  lemma CloseClean(t: Table, r: MemoryRow)
    requires Sound(t) && Clean(t) && r.confidence >= 0.0 && r.count >= 1
    ensures Sound(Close(t, r)) && Clean(Close(t, r))
  {
    var t' := Write(t, r);
    WriteSound(t, r);
    ConsolidatedClean(t', r.service);
    forall id { ConsolidatedRow(t', r.service, id); }
  }

  lemma ConfirmRefined(t: Table, before: seq<Event>, r: MemoryRow, p: Pattern)
    requires Refined(t, before) && r.confidence >= 0.0 && r.count == 1
    ensures var t', events := Close(t, r), before + [Confirm(r)];
      GroupCount(t', p, t'.next) == Confirmed(events, p) && GroupBest(t', p, t'.next) == Best(events, p)
  {
    assert (before + [Confirm(r)])[..|before|] == before;
    WriteSound(t, r);
    WriteTotals(t, r, p);
    TotalsConserved(Write(t, r), r.service, p);
  }

  lemma EraseRefined(t: Table, before: seq<Event>, id: int, p: Pattern)
    requires Refined(t, before) && t == After(before)
    ensures var t', events := Delete(t, id), before + [Erase(id)];
      GroupCount(t', p, t'.next) == Confirmed(events, p) && GroupBest(t', p, t'.next) == Best(events, p)
  {
    assert (before + [Erase(id)])[..|before|] == before;
    if InGroup(t, id, p) {
      EmptyTotals(Delete(t, id), p, t.next);
    } else {
      TotalsFrame(t, Delete(t, id), p, t.next);
    }
  }

  lemma ConfirmLatest(t: Table, before: seq<Event>, r: MemoryRow, id: int)
    requires Refined(t, before) && id in Close(t, r).rows
    ensures var row := Close(t, r).rows[id]; IsLatest(row, Last(before + [Confirm(r)], PatternOf(row)))
  {
    assert (before + [Confirm(r)])[..|before|] == before;
    var t' := Write(t, r);
    ConsolidatedRow(t', r.service, id);
    if id != t.next {
      assert t'.rows[id] == t.rows[id] && InGroup(t', t.next, PatternOf(r));
      assert IsLatest(t.rows[id], Last(before, PatternOf(t.rows[id])));
    }
  }

  lemma EraseLatest(t: Table, before: seq<Event>, id: int, j: int)
    requires Refined(t, before) && t == After(before) && j in Delete(t, id).rows
    ensures IsLatest(t.rows[j], Last(before + [Erase(id)], PatternOf(t.rows[j])))
  {
    assert (before + [Erase(id)])[..|before|] == before;
    assert IsLatest(t.rows[j], Last(before, PatternOf(t.rows[j])));
  }

  lemma {:induction false} HistoryRefined(events: seq<Event>)
    requires Fresh(events)
    ensures Refined(After(events), events)
    decreases |events|
  {
    if events == [] {
      forall p { EmptyTotals(After(events), p, 0); }
    } else {
      var before, ev := events[..|events| - 1], events[|events| - 1];
      HistoryRefined(before);
      assert events == before + [ev];
      var t := After(before);
      match ev {
        case Confirm(r) =>
          CloseClean(t, r);
          forall p { ConfirmRefined(t, before, r, p); }
          forall j | j in Close(t, r).rows
            ensures IsLatest(Close(t, r).rows[j], Last(events, PatternOf(Close(t, r).rows[j])))
          {
            ConfirmLatest(t, before, r, j);
          }
        case Erase(id) =>
          forall p { EraseRefined(t, before, id, p); }
          forall j | j in Delete(t, id).rows ensures IsLatest(t.rows[j], Last(events, PatternOf(t.rows[j]))) {
            EraseLatest(t, before, id, j);
          }
      }
    }
  }

  /**
  After any closes and deletes: one row per pattern, there exactly when the pattern was confirmed since its last
  delete, counting those confirmations, carrying their highest confidence, and otherwise the latest of them.
  */
  lemma MemoryIsACount(events: seq<Event>, p: Pattern)
    requires Fresh(events)
    ensures Clean(After(events))
    ensures Present(After(events), p) <==> Confirmed(events, p) > 0
    ensures forall id :: InGroup(After(events), id, p) ==>
      && After(events).rows[id].count == Confirmed(events, p) && After(events).rows[id].confidence == Best(events, p)
      && IsLatest(After(events).rows[id], Last(events, p))
  {
    HistoryRefined(events);
    RowIsTheCount(After(events), events, p);
  }

  ghost predicate Present(t: Table, p: Pattern) { exists id :: InGroup(t, id, p) }

  lemma RowIsTheCount(t: Table, events: seq<Event>, p: Pattern)
    requires Refined(t, events)
    ensures Present(t, p) <==> Confirmed(events, p) > 0
    ensures forall id :: InGroup(t, id, p) ==>
      t.rows[id].count == Confirmed(events, p) && t.rows[id].confidence == Best(events, p)
  {
    assert GroupCount(t, p, t.next) == Confirmed(events, p) && GroupBest(t, p, t.next) == Best(events, p);
    if Present(t, p) {
      forall id | InGroup(t, id, p)
        ensures t.rows[id].count == Confirmed(events, p) && t.rows[id].confidence == Best(events, p)
        ensures Confirmed(events, p) > 0
      {
        SingleTotals(t, p, id, t.next);
        assert t.rows[id].count >= 1;
      }
    } else {
      EmptyTotals(t, p, t.next);
    }
  }

  ghost function WriteAll(t: Table, rows: seq<MemoryRow>): Table {
    if rows == [] then t else Write(WriteAll(t, rows[..|rows| - 1]), rows[|rows| - 1])
  }

  ghost function CloseAll(t: Table, rows: seq<MemoryRow>): Table {
    if rows == [] then t else Close(CloseAll(t, rows[..|rows| - 1]), rows[|rows| - 1])
  }

  // -------------------------------------------------- one service at a time

  predicate Of(t: Table, id: int, service: int) { id in t.rows && t.rows[id].service == service }

  /** The two tables agree on one service. */
  ghost predicate SameSlice(t: Table, u: Table, service: int) {
    && t.next == u.next
    && forall id :: Of(t, id, service) || Of(u, id, service) ==>
         id in t.rows && id in u.rows && t.rows[id] == u.rows[id]
  }

  lemma SliceTwice(t: Table, u: Table, v: Table, service: int)
    requires SameSlice(t, u, service) && SameSlice(u, v, service)
    ensures SameSlice(t, v, service)
  {
    forall id | Of(t, id, service) || Of(v, id, service)
      ensures id in t.rows && id in v.rows && t.rows[id] == v.rows[id]
    {
      assert Of(u, id, service);
    }
  }

  lemma SliceWritten(t: Table, u: Table, r: MemoryRow, service: int)
    requires SameSlice(t, u, service)
    ensures SameSlice(Write(t, r), Write(u, r), service)
  {
    var t', u' := Write(t, r), Write(u, r);
    forall id | Of(t', id, service) || Of(u', id, service)
      ensures id in t'.rows && id in u'.rows && t'.rows[id] == u'.rows[id]
    {
      assert id == t.next || Of(t, id, service) || Of(u, id, service);
    }
  }

  lemma SliceGroups(t: Table, u: Table, id: int, p: Pattern)
    requires SameSlice(t, u, p.service)
    ensures InGroup(t, id, p) <==> InGroup(u, id, p)
    ensures InGroup(t, id, p) ==> t.rows[id] == u.rows[id]
  {
    assert InGroup(t, id, p) ==> Of(t, id, p.service);
    assert InGroup(u, id, p) ==> Of(u, id, p.service);
  }

  /** Which row of a service is the newest of its pattern, and what it merges to, is a matter of that service alone. */
  lemma SliceNewest(t: Table, u: Table, id: int, service: int)
    requires SameSlice(t, u, service) && Of(t, id, service)
    ensures id in u.rows && (Newest(t, id) <==> Newest(u, id)) && Merged(t, id) == Merged(u, id)
  {
    var p := PatternOf(t.rows[id]);
    forall j ensures (InGroup(t, j, p) <==> InGroup(u, j, p)) && (InGroup(t, j, p) ==> t.rows[j] == u.rows[j]) {
      SliceGroups(t, u, j, p);
    }
    TotalsFrame(t, u, p, t.next);
  }

  lemma SliceConsolidated(t: Table, u: Table, service: int)
    requires SameSlice(t, u, service)
    ensures SameSlice(Consolidated(t, service), Consolidated(u, service), service)
  {
    var c, d := Consolidated(t, service), Consolidated(u, service);
    forall id | Of(c, id, service) || Of(d, id, service)
      ensures id in c.rows && id in d.rows && c.rows[id] == d.rows[id]
    {
      ConsolidatedRow(t, service, id);
      ConsolidatedRow(u, service, id);
      assert Of(t, id, service) && Of(u, id, service);
      SliceNewest(t, u, id, service);
    }
  }

  /** Consolidating another service does not show. */
  lemma SliceElsewhere(t: Table, other: int, service: int)
    requires other != service
    ensures SameSlice(Consolidated(t, other), t, service)
  {
    var c := Consolidated(t, other);
    forall id | Of(c, id, service) || Of(t, id, service)
      ensures id in c.rows && id in t.rows && c.rows[id] == t.rows[id]
    {
      ConsolidatedRow(t, other, id);
    }
  }

  /** A row of another service may as well be written before this one is consolidated. */
  lemma WriteElsewhere(t: Table, r: MemoryRow, service: int)
    requires Sound(t) && r.service != service
    ensures SameSlice(Write(Consolidated(t, service), r), Consolidated(Write(t, r), service), service)
  {
    var c, t' := Consolidated(t, service), Write(t, r);
    var w, d := Write(c, r), Consolidated(t', service);
    forall id | Of(w, id, service) || Of(d, id, service)
      ensures id in w.rows && id in d.rows && w.rows[id] == d.rows[id]
    {
      ConsolidatedRow(t, service, id);
      ConsolidatedRow(t', service, id);
      assert Of(t, id, service);
      WrittenNewest(t, r, id, service);
    }
  }

  lemma WrittenNewest(t: Table, r: MemoryRow, id: int, service: int)
    requires Sound(t) && r.service != service && Of(t, id, service)
    ensures var t' := Write(t, r);
      && id in t'.rows && t'.rows[id] == t.rows[id]
      && (Newest(t, id) <==> Newest(t', id)) && Merged(t, id) == Merged(t', id)
  {
    var t', p := Write(t, r), PatternOf(t.rows[id]);
    assert forall j :: InGroup(t, j, p) <==> InGroup(t', j, p);
    WriteTotals(t, r, p);
  }

  ghost predicate Confirmable(rows: seq<MemoryRow>) {
    forall i :: 0 <= i < |rows| ==> rows[i].confidence >= 0.0 && rows[i].count >= 1
  }

  /** Some row of the list is the service's. */
  predicate Writes(rows: seq<MemoryRow>, service: int) {
    rows != [] && (rows[|rows| - 1].service == service || Writes(rows[..|rows| - 1], service))
  }

  lemma {:induction false} WriteAllSound(t: Table, rows: seq<MemoryRow>)
    requires Sound(t) && Confirmable(rows)
    ensures Sound(WriteAll(t, rows))
    decreases |rows|
  {
    if rows != [] {
      WriteAllSound(t, rows[..|rows| - 1]);
      WriteSound(WriteAll(t, rows[..|rows| - 1]), rows[|rows| - 1]);
    }
  }

  /**
  Whatever else is written in between, a service stands as if it were consolidated once, at the end, if it was written
  at all.
  */
  lemma {:induction false} OnceForService(t: Table, rows: seq<MemoryRow>, service: int)
    requires Sound(t) && Confirmable(rows)
    ensures var all := WriteAll(t, rows);
      SameSlice(CloseAll(t, rows), if Writes(rows, service) then Consolidated(all, service) else all, service)
    decreases |rows|
  {
    if rows != [] {
      var before, r := rows[..|rows| - 1], rows[|rows| - 1];
      OnceForService(t, before, service);
      WriteAllSound(t, before);
      var all := WriteAll(t, before);
      OneMoreClose(CloseAll(t, before), all, r, service, Writes(before, service));
    }
  }

  lemma OneMoreClose(closed: Table, all: Table, r: MemoryRow, service: int, written: bool)
    requires Sound(all) && r.confidence >= 0.0 && r.count >= 1
    requires SameSlice(closed, if written then Consolidated(all, service) else all, service)
    ensures var all' := Write(all, r);
      var once := if written || r.service == service then Consolidated(all', service) else all';
      SameSlice(Close(closed, r), once, service)
  {
    var base := if written then Consolidated(all, service) else all;
    SliceWritten(closed, base, r, service);
    if r.service == service {
      SliceConsolidated(Write(closed, r), Write(base, r), service);
      ConsolidationAbsorbed(all, r);
    } else {
      SliceElsewhere(Write(closed, r), r.service, service);
      SliceTwice(Close(closed, r), Write(closed, r), Write(base, r), service);
      if written {
        WriteElsewhere(all, r, service);
        SliceTwice(Close(closed, r), Write(base, r), Consolidated(Write(all, r), service), service);
      }
    }
  }

  ghost function ConsolidateEach(t: Table, services: seq<int>): Table
    decreases |services|
  {
    if services == [] then t else ConsolidateEach(Consolidated(t, services[0]), services[1..])
  }

  lemma {:induction false} EachForService(t: Table, services: seq<int>, service: int)
    requires Sound(t)
    ensures var once := if service in services then Consolidated(t, service) else t;
      SameSlice(ConsolidateEach(t, services), once, service)
    decreases |services|
  {
    if services != [] {
      var first, rest := Consolidated(t, services[0]), services[1..];
      ConsolidatedClean(t, services[0]);
      EachForService(first, rest, service);
      if services[0] == service {
        ConsolidationIdempotent(t, service);
      } else {
        SliceElsewhere(t, services[0], service);
        SliceConsolidated(first, t, service);
        var each := ConsolidateEach(first, rest);
        if service in rest {
          SliceTwice(each, Consolidated(first, service), Consolidated(t, service), service);
        } else {
          SliceTwice(each, first, t, service);
        }
      }
    }
  }

  lemma SlicesMakeTables(t: Table, u: Table)
    requires forall service :: SameSlice(t, u, service)
    ensures t == u
  {
    assert SameSlice(t, u, 0);
    forall id ensures (id in t.rows <==> id in u.rows) && (id in t.rows ==> t.rows[id] == u.rows[id]) {
      if id in t.rows { assert SameSlice(t, u, t.rows[id].service) && Of(t, id, t.rows[id].service); }
      if id in u.rows { assert SameSlice(t, u, u.rows[id].service) && Of(u, id, u.rows[id].service); }
    }
  }

  /**
  Consolidating after every write, however the services' writes interleave, is consolidating each written service
  once at the end, in any order.
  */
  lemma OnceAtTheEnd(t: Table, rows: seq<MemoryRow>, services: seq<int>)
    requires Sound(t) && Confirmable(rows)
    requires forall service :: service in services <==> Writes(rows, service)
    ensures CloseAll(t, rows) == ConsolidateEach(WriteAll(t, rows), services)
  {
    var all := WriteAll(t, rows);
    WriteAllSound(t, rows);
    forall service ensures SameSlice(CloseAll(t, rows), ConsolidateEach(all, services), service) {
      OnceForService(t, rows, service);
      EachForService(all, services, service);
      var once := if service in services then Consolidated(all, service) else all;
      SliceBack(ConsolidateEach(all, services), once, service);
      SliceTwice(CloseAll(t, rows), once, ConsolidateEach(all, services), service);
    }
    SlicesMakeTables(CloseAll(t, rows), ConsolidateEach(all, services));
  }

  lemma SliceBack(t: Table, u: Table, service: int)
    requires SameSlice(t, u, service)
    ensures SameSlice(u, t, service)
  {
  }
}
