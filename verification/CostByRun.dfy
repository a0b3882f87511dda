/** Cost per run, computed twice from one ledger: `costByRun` of
    scripts/factory-weekly-cost-report.mjs and the fold of
    scripts/hq-cost-by-run.mjs. A JavaScript Map iterates in insertion order, so
    a table of rows is a sequence. */
module CostByRun {
  import opened Collections

  /** A validated cost event. `at` is the timestamp as the scripts compare it,
      `time` what Date makes of it; an absent id is "". */
  datatype CostEvent = CostEvent(
    eventId: string, reversal: bool, supersedes: string, runId: string, sourceEventId: string,
    at: int, time: int, input: nat, cached: nat, output: nat, costMicros: Option<nat>)

  function Replaced(events: seq<CostEvent>): set<string> {
    set e | e in events && e.supersedes != "" :: e.supersedes
  }

  predicate IsLive(gone: set<string>, e: CostEvent) {
    !e.reversal && e.eventId !in gone
  }

  predicate InWindow(e: CostEvent, since: int, now: int) {
    since <= e.time <= now
  }

  function Key(e: CostEvent): string {
    if e.runId != "" then e.runId else e.sourceEventId
  }

  function Tokens(e: CostEvent): int { e.input + e.cached + e.output }
  function Cost(e: CostEvent): int { if e.costMicros.Some? then e.costMicros.value else 0 }
  function Unpriced(e: CostEvent): int { if e.costMicros.Some? then 0 else 1 }

  // ----- the weekly report's rows -----

  datatype Row = Row(run: string, at: int, tokens: int, costMicros: int, unpriced: int)

  function Bump(r: Row, e: CostEvent): Row {
    Row(r.run, if e.at < r.at then e.at else r.at, r.tokens + Tokens(e), r.costMicros + Cost(e), r.unpriced + Unpriced(e))
  }

  function NewRow(e: CostEvent): Row {
    Bump(Row(Key(e), e.at, 0, 0, 0), e)
  }

  /** rows.get(key) || fresh row; update it; rows.set(key, row) */
  function Add(table: seq<Row>, e: CostEvent): seq<Row> {
    if table == [] then [NewRow(e)]
    else if table[0].run == Key(e) then [Bump(table[0], e)] + table[1..]
    else [table[0]] + Add(table[1..], e)
  }

  function Table(live: seq<CostEvent>): seq<Row> {
    if live == [] then [] else Add(Table(live[..|live| - 1]), live[|live| - 1])
  }

  // ----- the other script's rows, which keep the three token counts apart -----

  datatype SplitRow = SplitRow(run: string, at: int, input: int, cached: int, output: int, costMicros: int, unpriced: int)

  function BumpSplit(r: SplitRow, e: CostEvent): SplitRow {
    SplitRow(r.run, r.at, r.input + e.input, r.cached + e.cached, r.output + e.output,
             if e.costMicros.None? then r.costMicros else r.costMicros + e.costMicros.value,
             if e.costMicros.None? then r.unpriced + 1 else r.unpriced)
  }

  function AddSplit(table: seq<SplitRow>, e: CostEvent): seq<SplitRow> {
    if table == [] then [BumpSplit(SplitRow(Key(e), e.at, 0, 0, 0, 0, 0), e)]
    else if table[0].run == Key(e) then [BumpSplit(table[0], e)] + table[1..]
    else [table[0]] + AddSplit(table[1..], e)
  }

  function SplitTable(live: seq<CostEvent>): seq<SplitRow> {
    if live == [] then [] else AddSplit(SplitTable(live[..|live| - 1]), live[|live| - 1])
  }

  // ----- the two loops -----

  function Alive(gone: set<string>): CostEvent -> bool {
    (e: CostEvent) => IsLive(gone, e)
  }

  function IsCounted(gone: set<string>, since: int, now: int): CostEvent -> bool {
    (e: CostEvent) => IsLive(gone, e) && InWindow(e, since, now)
  }

  function Counted(events: seq<CostEvent>, since: int, now: int): seq<CostEvent> {
    Filter(IsCounted(Replaced(events), since, now), events)
  }

  function Live(events: seq<CostEvent>): seq<CostEvent> {
    Filter(Alive(Replaced(events)), events)
  }

  datatype Total = Total(runs: nat, tokens: int, costMicros: int, unpriced: int)

  function TotalOf(table: seq<Row>): Total {
    Total(|table|, SumInt((r: Row) => r.tokens, table), SumInt((r: Row) => r.costMicros, table), SumInt((r: Row) => r.unpriced, table))
  }

  function SplitTotal(table: seq<SplitRow>): Total {
    Total(|table|, SumInt((r: SplitRow) => r.input + r.cached + r.output, table),
          SumInt((r: SplitRow) => r.costMicros, table), SumInt((r: SplitRow) => r.unpriced, table))
  }

  /** The order of the weekly list: by time, then by run. `le` is localeCompare
      on run ids answering at most zero. */
  function ByTimeThenRun(le: (string, string) -> bool): (Row, Row) -> bool {
    (a: Row, b: Row) => a.at < b.at || (a.at == b.at && le(a.run, b.run))
  }

  /** costByRun */
  method WeeklyCostByRun(events: seq<CostEvent>, since: int, now: int, le: (string, string) -> bool)
    returns (runs: seq<Row>, total: Total)
    ensures runs == StableSort(ByTimeThenRun(le), Table(Counted(events, since, now)))
    ensures total == TotalOf(runs)
  {
    var rows := CollectRows(events, Replaced(events), since, now);
    runs := StableSort(ByTimeThenRun(le), rows);
    total := AddUp(runs);
  }

  /** Its loop over the ledger. */
  method CollectRows(events: seq<CostEvent>, gone: set<string>, since: int, now: int) returns (rows: seq<Row>)
    ensures rows == Table(Filter(IsCounted(gone, since, now), events))
  {
    ghost var p := IsCounted(gone, since, now);
    rows := [];
    for i := 0 to |events|
      invariant rows == Table(Filter(p, events[..i]))
    {
      var e := events[i];
      OneMoreCounted(p, events, i);
      var skipped := e.reversal || e.eventId in gone || e.time < since || e.time > now;
      assert p(e) == !skipped;
      if !skipped { rows := Add(rows, e); }
    }
    assert events[..|events|] == events;
  }

  /** runs.reduce(...) */
  method AddUp(runs: seq<Row>) returns (total: Total)
    ensures total == TotalOf(runs)
  {
    total := Total(0, 0, 0, 0);
    for i := 0 to |runs|
      invariant total == TotalOf(runs[..i])
    {
      assert runs[..i + 1] == runs[..i] + [runs[i]];
      SumIntAppend((r: Row) => r.tokens, runs[..i], [runs[i]]);
      SumIntAppend((r: Row) => r.costMicros, runs[..i], [runs[i]]);
      SumIntAppend((r: Row) => r.unpriced, runs[..i], [runs[i]]);
      assert [runs[i]][1..] == [];
      total := Total(total.runs + 1, total.tokens + runs[i].tokens, total.costMicros + runs[i].costMicros, total.unpriced + runs[i].unpriced);
    }
    assert runs[..|runs|] == runs;
  }

  lemma {:induction false} OneMoreCounted(p: CostEvent -> bool, events: seq<CostEvent>, i: nat)
    requires i < |events|
    ensures var before, after := Filter(p, events[..i]), Filter(p, events[..i + 1]);
            && Table(after) == (if p(events[i]) then Add(Table(before), events[i]) else Table(before))
            && SplitTable(after) == (if p(events[i]) then AddSplit(SplitTable(before), events[i]) else SplitTable(before))
  {
    var before := Filter(p, events[..i]);
    Snoc(p, events, i);
    assert (before + [events[i]])[..|before|] == before;
  }

  /** The fold of hq-cost-by-run.mjs. */
  method SplitCostByRun(events: seq<CostEvent>) returns (rows: seq<SplitRow>)
    ensures rows == SplitTable(Live(events))
  {
    var gone := Replaced(events);
    ghost var p := Alive(gone);
    rows := [];
    for i := 0 to |events|
      invariant rows == SplitTable(Filter(p, events[..i]))
    {
      var e := events[i];
      OneMoreCounted(p, events, i);
      if !(e.reversal || e.eventId in gone) { rows := AddSplit(rows, e); }
    }
    assert events[..|events|] == events;
  }

  lemma {:induction false} Snoc(p: CostEvent -> bool, events: seq<CostEvent>, i: nat)
    requires i < |events|
    ensures Filter(p, events[..i + 1]) == if p(events[i]) then Filter(p, events[..i]) + [events[i]] else Filter(p, events[..i])
  {
    assert events[..i + 1] == events[..i] + [events[i]];
    FilterAppend(p, events[..i], [events[i]]);
    FilterCons(p, events[i], []);
    assert [events[i]] + [] == [events[i]];
  }

  // ----- conservation: a table's totals are the sums over its events -----

  lemma {:induction false} AddConserves(table: seq<Row>, e: CostEvent)
    ensures var t := TotalOf(Add(table, e));
            && t.tokens == TotalOf(table).tokens + Tokens(e)
            && t.costMicros == TotalOf(table).costMicros + Cost(e)
            && t.unpriced == TotalOf(table).unpriced + Unpriced(e)
  {
    if table == [] {
      assert [NewRow(e)][1..] == [];
    } else if table[0].run == Key(e) {
      assert ([Bump(table[0], e)] + table[1..])[1..] == table[1..];
    } else {
      AddConserves(table[1..], e);
      assert ([table[0]] + Add(table[1..], e))[1..] == Add(table[1..], e);
    }
  }

  lemma {:induction false} TableConserves(live: seq<CostEvent>)
    ensures var t := TotalOf(Table(live));
            && t.tokens == SumInt(Tokens, live) && t.costMicros == SumInt(Cost, live) && t.unpriced == SumInt(Unpriced, live)
  {
    if live != [] {
      var front, last := live[..|live| - 1], live[|live| - 1];
      TableConserves(front);
      AddConserves(Table(front), last);
      assert live == front + [last] && [last][1..] == [];
      SumIntAppend(Tokens, front, [last]);
      SumIntAppend(Cost, front, [last]);
      SumIntAppend(Unpriced, front, [last]);
    }
  }

  /** The prices of the events that have one. */
  function Prices(events: seq<CostEvent>): seq<nat> {
    if events == [] then []
    else if events[0].costMicros.None? then Prices(events[1..])
    else [events[0].costMicros.value] + Prices(events[1..])
  }

  /** An event without a price is counted, and adds nothing to the cost. */
  lemma {:induction false} UnpricedAreCounted(live: seq<CostEvent>)
    ensures SumInt(Cost, live) == SumInt((m: nat) => m, Prices(live))
    ensures SumInt(Unpriced, live) == |live| - |Prices(live)|
  {
    if live != [] {
      UnpricedAreCounted(live[1..]);
      if live[0].costMicros.Some? { assert Prices(live)[1..] == Prices(live[1..]); }
    }
  }

  /** The events that count: no reversals, and none that another event of the
      ledger supersedes; for the weekly report only those in its window. */
  lemma {:induction false} LiveExactly(events: seq<CostEvent>, since: int, now: int, e: CostEvent)
    ensures e in Live(events) <==>
              e in events && !e.reversal && forall f :: f in events ==> f.supersedes == "" || f.supersedes != e.eventId
    ensures e in Counted(events, since, now) <==> e in Live(events) && since <= e.time <= now
  {
    FilterMembers(Alive(Replaced(events)), events);
    FilterMembers(IsCounted(Replaced(events), since, now), events);
  }

  // ----- the two scripts agree -----

  /** Row by row: the same run, the same sums, and a time no later. */
  ghost predicate SameRow(r: Row, s: SplitRow) {
    && r.run == s.run && r.tokens == s.input + s.cached + s.output
    && r.costMicros == s.costMicros && r.unpriced == s.unpriced && r.at <= s.at
  }

  ghost predicate SameRows(table: seq<Row>, split: seq<SplitRow>) {
    |table| == |split| && forall i :: 0 <= i < |table| ==> SameRow(table[i], split[i])
  }

  lemma {:induction false} AddAgrees(table: seq<Row>, split: seq<SplitRow>, e: CostEvent)
    requires SameRows(table, split)
    ensures SameRows(Add(table, e), AddSplit(split, e))
  {
    if table != [] {
      assert SameRow(table[0], split[0]);
      if table[0].run != Key(e) {
        assert SameRows(table[1..], split[1..]) by {
          forall i | 0 <= i < |table[1..]| ensures SameRow(table[1..][i], split[1..][i]) {
            assert SameRow(table[i + 1], split[i + 1]);
          }
        }
        AddAgrees(table[1..], split[1..], e);
      }
    }
  }

  lemma {:induction false} TablesAgree(live: seq<CostEvent>)
    ensures SameRows(Table(live), SplitTable(live))
  {
    if live != [] {
      TablesAgree(live[..|live| - 1]);
      AddAgrees(Table(live[..|live| - 1]), SplitTable(live[..|live| - 1]), live[|live| - 1]);
    }
  }

  lemma {:induction false} TotalsAgree(table: seq<Row>, split: seq<SplitRow>)
    requires SameRows(table, split)
    ensures TotalOf(table) == SplitTotal(split)
  {
    if table != [] {
      assert SameRow(table[0], split[0]);
      assert SameRows(table[1..], split[1..]) by {
        forall i | 0 <= i < |table[1..]| ensures SameRow(table[1..][i], split[1..][i]) {
          assert SameRow(table[i + 1], split[i + 1]);
        }
      }
      TotalsAgree(table[1..], split[1..]);
    }
  }

  /** A total does not depend on the order of the rows it adds up. */
  lemma {:induction false} TotalIgnoresOrder(xs: seq<Row>, ys: seq<Row>)
    requires multiset(xs) == multiset(ys)
    ensures TotalOf(xs) == TotalOf(ys)
  {
    assert |multiset(xs)| == |xs| && |multiset(ys)| == |ys|;
    SumIntMultiset((r: Row) => r.tokens, xs, ys);
    SumIntMultiset((r: Row) => r.costMicros, xs, ys);
    SumIntMultiset((r: Row) => r.unpriced, xs, ys);
  }

  lemma {:induction false} SplitTotalIgnoresOrder(xs: seq<SplitRow>, ys: seq<SplitRow>)
    requires multiset(xs) == multiset(ys)
    ensures SplitTotal(xs) == SplitTotal(ys)
  {
    assert |multiset(xs)| == |xs| && |multiset(ys)| == |ys|;
    SumIntMultiset((r: SplitRow) => r.input + r.cached + r.output, xs, ys);
    SumIntMultiset((r: SplitRow) => r.costMicros, xs, ys);
    SumIntMultiset((r: SplitRow) => r.unpriced, xs, ys);
  }

  /** When every live event falls in the window the two scripts report the same
      runs with the same tokens, cost and unpriced counts, and both totals, of
      the lists as sorted and printed, are the plain sums over the events that
      are neither reversals nor superseded. */
  lemma {:induction false} ScriptsAgree(events: seq<CostEvent>, since: int, now: int, weekly: seq<Row>, split: seq<SplitRow>)
    requires forall e :: e in Live(events) ==> InWindow(e, since, now)
    requires multiset(weekly) == multiset(Table(Counted(events, since, now)))
    requires multiset(split) == multiset(SplitTable(Live(events)))
    ensures Counted(events, since, now) == Live(events)
    ensures SameRows(Table(Counted(events, since, now)), SplitTable(Live(events)))
    ensures var t := TotalOf(weekly);
            && t == SplitTotal(split)
            && t.tokens == SumInt(Tokens, Live(events))
            && t.costMicros == SumInt(Cost, Live(events))
            && t.unpriced == SumInt(Unpriced, Live(events))
  {
    var gone := Replaced(events);
    var live := Alive(gone);
    var counted := IsCounted(gone, since, now);
    FilterMembers(live, events);
    FilterSame(counted, live, events);
    TablesAgree(Live(events));
    TotalsAgree(Table(Live(events)), SplitTable(Live(events)));
    TableConserves(Live(events));
    TotalIgnoresOrder(weekly, Table(Live(events)));
    SplitTotalIgnoresOrder(split, SplitTable(Live(events)));
  }

  /** Both scripts run on one ledger, with every live event in the window: the
      totals they print are equal. */
  method BothTotals(events: seq<CostEvent>, since: int, now: int, le: (string, string) -> bool)
    returns (weekly: Total, other: Total)
    requires forall e :: e in Live(events) ==> InWindow(e, since, now)
    ensures weekly == other && weekly.tokens == SumInt(Tokens, Live(events))
    ensures weekly.costMicros == SumInt(Cost, Live(events)) && weekly.unpriced == SumInt(Unpriced, Live(events))
  {
    var runs, total := WeeklyCostByRun(events, since, now, le);
    var rows := SplitCostByRun(events);
    var list := StableSort((a: SplitRow, b: SplitRow) => a.at <= b.at, rows);
    ScriptsAgree(events, since, now, runs, list);
    return total, SplitTotal(list);
  }

  /** The other script keeps the time of a run's first event in the file, so it
      shows the earliest time only when the ledger is in time order. */
  lemma {:induction false} TimesAgreeInOrder(live: seq<CostEvent>)
    requires forall i, j :: 0 <= i < j < |live| ==> live[i].at <= live[j].at
    ensures |Table(live)| == |SplitTable(live)|
    ensures forall i :: 0 <= i < |Table(live)| ==> Table(live)[i].at == SplitTable(live)[i].at
    ensures forall i :: 0 <= i < |Table(live)| ==> Table(live)[i].at <= (if live == [] then 0 else live[|live| - 1].at)
  {
    if live != [] {
      var front, last := live[..|live| - 1], live[|live| - 1];
      TimesAgreeInOrder(front);
      TablesAgree(front);
      assert forall i :: 0 <= i < |Table(front)| ==> Table(front)[i].at <= last.at;
      AddInOrder(Table(front), SplitTable(front), last);
    }
  }

  lemma {:induction false} AddInOrder(table: seq<Row>, split: seq<SplitRow>, e: CostEvent)
    requires SameRows(table, split)
    requires forall i :: 0 <= i < |table| ==> table[i].at == split[i].at <= e.at
    ensures |Add(table, e)| == |AddSplit(split, e)|
    ensures forall i :: 0 <= i < |Add(table, e)| ==> Add(table, e)[i].at == AddSplit(split, e)[i].at <= e.at
  {
    if table != [] {
      assert SameRow(table[0], split[0]);
      if table[0].run != Key(e) {
        assert SameRows(table[1..], split[1..]) by {
          forall i | 0 <= i < |table[1..]| ensures SameRow(table[1..][i], split[1..][i]) {
            assert SameRow(table[i + 1], split[i + 1]);
          }
        }
        AddInOrder(table[1..], split[1..], e);
      }
    }
  }

  // ----- the weekly list does not depend on the order of the ledger -----

  function OfRun(run: string): CostEvent -> bool {
    (e: CostEvent) => if e.runId == "" then e.sourceEventId == run else e.runId == run
  }

  function Earliest(events: seq<CostEvent>): int
    requires events != []
  {
    var last := events[|events| - 1].at;
    if |events| == 1 then last
    else
      var before := Earliest(events[..|events| - 1]);
      if last < before then last else before
  }

  /** What the row of a run must be, said without the table. */
  ghost predicate RowFor(live: seq<CostEvent>, r: Row) {
    var own := Filter(OfRun(r.run), live);
    own != [] && r == OwnRow(r.run, own)
  }

  function OwnRow(run: string, own: seq<CostEvent>): Row
    requires own != []
  {
    Row(run, Earliest(own), SumInt(Tokens, own), SumInt(Cost, own), SumInt(Unpriced, own))
  }

  ghost predicate DistinctRuns(table: seq<Row>) {
    forall i, j :: 0 <= i < j < |table| ==> table[i].run != table[j].run
  }

  ghost predicate HasRun(table: seq<Row>, run: string) {
    exists i :: 0 <= i < |table| && table[i].run == run
  }

  lemma {:induction false} AddShape(table: seq<Row>, e: CostEvent)
    requires DistinctRuns(table)
    ensures DistinctRuns(Add(table, e))
    ensures forall r :: r in Add(table, e) <==>
              if r.run != Key(e) then r in table
              else if HasRun(table, Key(e)) then exists s :: s in table && s.run == Key(e) && r == Bump(s, e)
              else r == NewRow(e)
  {
    if table != [] {
      var rest := table[1..];
      assert forall r :: r in table <==> r == table[0] || r in rest;
      if table[0].run == Key(e) {
        assert HasRun(table, Key(e));
        assert forall s :: s in table && s.run == Key(e) ==> s == table[0];
        assert forall r :: r in rest ==> r.run != Key(e);
      } else {
        AddShape(rest, e);
        assert HasRun(table, Key(e)) <==> HasRun(rest, Key(e)) by {
          if i :| 0 <= i < |table| && table[i].run == Key(e) { assert rest[i - 1].run == Key(e); }
          if i :| 0 <= i < |rest| && rest[i].run == Key(e) { assert table[i + 1].run == Key(e); }
        }
        var grown := Add(rest, e);
        forall j | 0 <= j < |grown| ensures grown[j].run != table[0].run {
          assert grown[j] in grown;
          if grown[j].run != Key(e) { assert grown[j] in rest; }
        }
      }
    }
  }

  /** Each run with a live event has exactly one row, and it is the run's own. */
  lemma {:induction false} TableIsRows(live: seq<CostEvent>)
    ensures DistinctRuns(Table(live))
    ensures forall r :: r in Table(live) <==> RowFor(live, r)
  {
    if live == [] {
      assert forall run :: Filter(OfRun(run), live) == [];
    } else {
      var front, e := live[..|live| - 1], live[|live| - 1];
      TableIsRows(front);
      AddKeepsRows(front, e);
      assert live == front + [e];
    }
  }

  lemma {:induction false} AddKeepsRows(front: seq<CostEvent>, e: CostEvent)
    requires DistinctRuns(Table(front)) && forall s :: s in Table(front) <==> RowFor(front, s)
    ensures DistinctRuns(Add(Table(front), e))
    ensures forall r :: r in Add(Table(front), e) <==> RowFor(front + [e], r)
  {
    AddShape(Table(front), e);
    forall r ensures r in Add(Table(front), e) <==> RowFor(front + [e], r) {
      OneMoreEvent(front, e, r);
    }
  }

  lemma {:induction false} OneMoreEvent(front: seq<CostEvent>, e: CostEvent, r: Row)
    requires DistinctRuns(Table(front)) && DistinctRuns(Add(Table(front), e))
    requires forall s :: s in Table(front) <==> RowFor(front, s)
    requires r in Add(Table(front), e) <==>
               if r.run != Key(e) then r in Table(front)
               else if HasRun(Table(front), Key(e)) then exists s :: s in Table(front) && s.run == Key(e) && r == Bump(s, e)
               else r == NewRow(e)
    ensures r in Add(Table(front), e) <==> RowFor(front + [e], r)
  {
    if r.run != Key(e) {
      OwnEvents(front, e, r.run);
    } else if Filter(OfRun(Key(e)), front) == [] {
      assert !HasRun(Table(front), Key(e)) by {
        forall i | 0 <= i < |Table(front)| ensures Table(front)[i].run != Key(e) {
          assert Table(front)[i] in Table(front);
        }
      }
      NewIsRowFor(front, e, r);
    } else {
      var s := KnownRun(front, e);
      BumpIsRowFor(front, e, s, r);
    }
  }

  lemma {:induction false} NewIsRowFor(front: seq<CostEvent>, e: CostEvent, r: Row)
    requires r.run == Key(e) && Filter(OfRun(Key(e)), front) == []
    ensures r == NewRow(e) <==> RowFor(front + [e], r)
  {
    OwnEvents(front, e, r.run);
    assert [] + [e] == [e];
    FirstOfItsRun(e);
  }

  lemma {:induction false} BumpIsRowFor(front: seq<CostEvent>, e: CostEvent, s: Row, r: Row)
    requires r.run == s.run == Key(e) && RowFor(front, s)
    ensures r == Bump(s, e) <==> RowFor(front + [e], r)
  {
    OwnEvents(front, e, r.run);
    Extended(Filter(OfRun(r.run), front), e);
  }

  lemma {:induction false} KnownRun(front: seq<CostEvent>, e: CostEvent) returns (s: Row)
    requires DistinctRuns(Table(front)) && forall s :: s in Table(front) <==> RowFor(front, s)
    requires Filter(OfRun(Key(e)), front) != []
    ensures RowFor(front, s) && s.run == Key(e) && s in Table(front) && HasRun(Table(front), Key(e))
    ensures forall t :: t in Table(front) && t.run == Key(e) ==> t == s
  {
    var own := Filter(OfRun(Key(e)), front);
    s := OwnRow(Key(e), own);
    assert RowFor(front, s);
    var i :| 0 <= i < |Table(front)| && Table(front)[i] == s;
    assert Table(front)[i].run == Key(e);
  }

  lemma {:induction false} FirstOfItsRun(e: CostEvent)
    ensures NewRow(e) == OwnRow(Key(e), [e])
  {
    assert [e][1..] == [];
    assert SumInt(Tokens, [e]) == Tokens(e) && SumInt(Cost, [e]) == Cost(e) && SumInt(Unpriced, [e]) == Unpriced(e);
    assert Earliest([e]) == e.at;
  }

  lemma {:induction false} OwnEvents(front: seq<CostEvent>, e: CostEvent, run: string)
    ensures Filter(OfRun(run), front + [e]) ==
            if Key(e) == run then Filter(OfRun(run), front) + [e] else Filter(OfRun(run), front)
  {
    FilterAppend(OfRun(run), front, [e]);
    FilterCons(OfRun(run), e, []);
    assert [e] + [] == [e];
  }

  lemma {:induction false} Extended(own: seq<CostEvent>, e: CostEvent)
    requires own != []
    ensures forall run :: OwnRow(run, own + [e]) == Bump(OwnRow(run, own), e)
  {
    assert (own + [e])[..|own|] == own;
    assert [e][1..] == [];
    SumIntAppend(Tokens, own, [e]);
    SumIntAppend(Cost, own, [e]);
    SumIntAppend(Unpriced, own, [e]);
  }

  lemma {:induction false} EarliestIsLeast(events: seq<CostEvent>)
    requires events != []
    ensures exists e :: e in events && e.at == Earliest(events)
    ensures forall e :: e in events ==> Earliest(events) <= e.at
  {
    var front, last := events[..|events| - 1], events[|events| - 1];
    assert events == front + [last];
    if |events| > 1 {
      EarliestIsLeast(front);
      var e :| e in front && e.at == Earliest(front);
      assert e in events && last in events;
    } else {
      assert last in events;
    }
  }

  lemma {:induction false} RowForPermuted(xs: seq<CostEvent>, ys: seq<CostEvent>, r: Row)
    requires multiset(xs) == multiset(ys) && RowFor(xs, r)
    ensures RowFor(ys, r)
  {
    var a, b := Filter(OfRun(r.run), xs), Filter(OfRun(r.run), ys);
    FilterMultiset(OfRun(r.run), xs, ys);
    assert |multiset(a)| == |a| && |multiset(b)| == |b|;
    SumIntMultiset(Tokens, a, b);
    SumIntMultiset(Cost, a, b);
    SumIntMultiset(Unpriced, a, b);
    EarliestIsLeast(a);
    EarliestIsLeast(b);
    assert forall e :: e in multiset(a) <==> e in multiset(b);
    assert forall e :: e in a <==> e in multiset(a);
    assert forall e :: e in b <==> e in multiset(b);
  }

  lemma {:induction false} DistinctMultiset(table: seq<Row>, r: Row)
    requires DistinctRuns(table)
    ensures multiset(table)[r] == if r in table then 1 else 0
  {
    if table != [] {
      assert table == [table[0]] + table[1..];
      DistinctMultiset(table[1..], r);
    }
  }

  lemma {:induction false} TablesPermute(xs: seq<CostEvent>, ys: seq<CostEvent>)
    requires multiset(xs) == multiset(ys)
    ensures multiset(Table(xs)) == multiset(Table(ys))
  {
    TableIsRows(xs);
    TableIsRows(ys);
    forall r ensures multiset(Table(xs))[r] == multiset(Table(ys))[r] {
      DistinctMultiset(Table(xs), r);
      DistinctMultiset(Table(ys), r);
      if RowFor(xs, r) { RowForPermuted(xs, ys, r); }
      if RowFor(ys, r) { RowForPermuted(ys, xs, r); }
    }
  }

  lemma {:induction false} SameReplaced(xs: seq<CostEvent>, ys: seq<CostEvent>)
    requires multiset(xs) == multiset(ys)
    ensures Replaced(xs) == Replaced(ys)
  {
    assert forall e :: e in xs <==> e in multiset(xs);
    assert forall e :: e in ys <==> e in multiset(ys);
  }

  /** Whatever order the ledger is in, the weekly list is the same list. */
  lemma {:induction false} WeeklyListIgnoresLedgerOrder(xs: seq<CostEvent>, ys: seq<CostEvent>, since: int, now: int, le: (string, string) -> bool)
    requires multiset(xs) == multiset(ys)
    requires TotalPreorder(le) && forall a, b :: le(a, b) && le(b, a) ==> a == b
    ensures StableSort(ByTimeThenRun(le), Table(Counted(xs, since, now)))
            == StableSort(ByTimeThenRun(le), Table(Counted(ys, since, now)))
  {
    SameReplaced(xs, ys);
    var gone := Replaced(xs);
    var p := IsCounted(gone, since, now);
    FilterMultiset(p, xs, ys);
    var a, b := Counted(xs, since, now), Counted(ys, since, now);
    TablesPermute(a, b);
    var order := ByTimeThenRun(le);
    assert TotalPreorder(order) by {
      forall x, y ensures order(x, y) || order(y, x) { assert le(x.run, y.run) || le(y.run, x.run); }
      forall x, y, z | order(x, y) && order(y, z) ensures order(x, z) {
        assert le(x.run, y.run) && le(y.run, z.run) ==> le(x.run, z.run);
      }
    }
    var s, t := StableSort(order, Table(a)), StableSort(order, Table(b));
    StableSortSorted(order, Table(a));
    StableSortSorted(order, Table(b));
    TableIsRows(a);
    forall r, q | r in s && q in s && order(r, q) && order(q, r) ensures r == q {
      assert r in multiset(s) && q in multiset(s);
      assert r in Table(a) && q in Table(a);
    }
    SortedIsUnique(order, s, t);
  }

  // ----- a split time loses nothing -----

  function Plus(a: Total, b: Total): Total {
    Total(a.runs + b.runs, a.tokens + b.tokens, a.costMicros + b.costMicros, a.unpriced + b.unpriced)
  }

  lemma {:induction false} SplitAddsUp(rows: seq<SplitRow>, split: int)
    ensures Plus(SplitTotal(Filter((r: SplitRow) => r.at < split, rows)), SplitTotal(Filter((r: SplitRow) => r.at >= split, rows)))
            == SplitTotal(rows)
  {
    if rows != [] {
      SplitAddsUp(rows[1..], split);
      var before, after := (r: SplitRow) => r.at < split, (r: SplitRow) => r.at >= split;
      var p := if rows[0].at < split then before else after;
      assert ([rows[0]] + Filter(p, rows[1..]))[1..] == Filter(p, rows[1..]);
    }
  }
}
