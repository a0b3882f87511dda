/** The weekly failure report: `cmp`, `failuresByCause` and `buildReport` of
    scripts/factory-weekly-cost-report.mjs. Costs are reals: rounding is not the
    point here. What the regexes classify a row as is an input. */
module WeeklyReport {
  import opened Collections

  datatype CostVec = CostVec(quotaPct: real, usd: real, credits: real, minutes: real)
  datatype Kind = Failure | Rework

  /** A ledger row. `reason` is failure_reason with its white space collapsed. */
  datatype LedgerRow = LedgerRow(studio: string, time: int, reason: string, kind: Option<Kind>, cost: CostVec)

  // ----- cmp -----

  function RankKey(c: CostVec): seq<real> {
    [c.quotaPct, c.usd, c.credits, c.minutes]
  }

  /** More expensive first, one measure after the other. */
  ghost predicate AtLeastAsDear(x: seq<real>, y: seq<real>)
    requires |x| == |y|
  {
    x == [] || x[0] > y[0] || (x[0] == y[0] && AtLeastAsDear(x[1..], y[1..]))
  }

  method Cmp(a: CostVec, b: CostVec) returns (r: real)
    ensures r <= 0.0 <==> AtLeastAsDear(RankKey(a), RankKey(b))
    ensures r == 0.0 <==> a == b
  {
    var x, y := RankKey(a), RankKey(b);
    for i := 0 to |x|
      invariant x[..i] == y[..i]
      invariant AtLeastAsDear(x, y) <==> AtLeastAsDear(x[i..], y[i..])
    {
      if x[i] != y[i] {
        assert x[i..][0] == x[i] && y[i..][0] == y[i];
        return y[i] - x[i];
      }
      assert x[i..][1..] == x[i + 1..] && y[i..][1..] == y[i + 1..];
      assert x[..i + 1] == x[..i] + [x[i]] && y[..i + 1] == y[..i] + [y[i]];
    }
    assert x[..4] == x && y[..4] == y && x[4..] == [];
    assert x[0] == y[0] && x[1] == y[1] && x[2] == y[2] && x[3] == y[3];
    return 0.0;
  }

  /** cmp answering at most zero, as one expression. */
  predicate Dearer(a: CostVec, b: CostVec) {
    a.quotaPct > b.quotaPct || (a.quotaPct == b.quotaPct && (a.usd > b.usd || (a.usd == b.usd &&
      (a.credits > b.credits || (a.credits == b.credits && a.minutes >= b.minutes)))))
  }

  lemma {:induction false} DearerIsCmp(a: CostVec, b: CostVec)
    ensures Dearer(a, b) <==> AtLeastAsDear(RankKey(a), RankKey(b))
  {
    var x, y := RankKey(a), RankKey(b);
    assert x[1..][1..] == x[2..] && x[2..][1..] == x[3..] && x[3..][1..] == [];
    assert y[1..][1..] == y[2..] && y[2..][1..] == y[3..] && y[3..][1..] == [];
    assert AtLeastAsDear(x[3..], y[3..]) <==> a.minutes >= b.minutes;
    assert AtLeastAsDear(x[2..], y[2..]) <==> a.credits > b.credits || (a.credits == b.credits && a.minutes >= b.minutes);
  }

  function RowOrder(): (LedgerRow, LedgerRow) -> bool {
    (a: LedgerRow, b: LedgerRow) => Dearer(a.cost, b.cost)
  }

  /** cmp is a total preorder whose only ties are equal costs. */
  lemma {:induction false} CmpIsTotal()
    ensures TotalPreorder(Dearer) && TotalPreorder(RowOrder())
    ensures forall a, b :: Dearer(a, b) && Dearer(b, a) ==> a == b
  {
    var o := RowOrder();
    forall a, b ensures o(a, b) || o(b, a) { assert Dearer(a.cost, b.cost) || Dearer(b.cost, a.cost); }
    forall a, b, c | o(a, b) && o(b, c) ensures o(a, c) { assert Dearer(a.cost, c.cost); }
  }

  // ----- byStudio -----

  datatype StudioRow = StudioRow(studio: string, runs: int, minutes: real, quotaPct: real, failures: int, reworks: int)

  function StudioOf(r: LedgerRow): string { if r.studio == "" then "?" else r.studio }

  function Is(r: LedgerRow, k: Kind): int { if r.kind == Some(k) then 1 else 0 }

  function CountRun(s: StudioRow, r: LedgerRow): StudioRow {
    StudioRow(s.studio, s.runs + 1, s.minutes + r.cost.minutes, s.quotaPct + r.cost.quotaPct,
              s.failures + Is(r, Failure), s.reworks + Is(r, Rework))
  }

  /** byStudio[...] ||= { zeros }, then the increments. */
  function AddStudio(table: seq<StudioRow>, r: LedgerRow): seq<StudioRow> {
    if table == [] then [CountRun(StudioRow(StudioOf(r), 0, 0.0, 0.0, 0, 0), r)]
    else if table[0].studio == StudioOf(r) then [CountRun(table[0], r)] + table[1..]
    else [table[0]] + AddStudio(table[1..], r)
  }

  /** The five studio columns added up. */
  function StudioSums(table: seq<StudioRow>): StudioRow {
    if table == [] then StudioRow("", 0, 0.0, 0.0, 0, 0)
    else
      var rest := StudioSums(table[1..]);
      StudioRow("", table[0].runs + rest.runs, table[0].minutes + rest.minutes, table[0].quotaPct + rest.quotaPct,
                table[0].failures + rest.failures, table[0].reworks + rest.reworks)
  }

  lemma {:induction false} AddStudioConserves(table: seq<StudioRow>, r: LedgerRow)
    ensures StudioSums(AddStudio(table, r)) == CountRun(StudioSums(table), r)
  {
    if table == [] {
    } else if table[0].studio == StudioOf(r) {
      assert ([CountRun(table[0], r)] + table[1..])[1..] == table[1..];
    } else {
      AddStudioConserves(table[1..], r);
      assert ([table[0]] + AddStudio(table[1..], r))[1..] == AddStudio(table[1..], r);
    }
  }

  /** byStudio[name], or a row of zeros. */
  function StudioFor(table: seq<StudioRow>, name: string): StudioRow {
    if table == [] then StudioRow(name, 0, 0.0, 0.0, 0, 0)
    else if table[0].studio == name then table[0]
    else StudioFor(table[1..], name)
  }

  lemma {:induction false} AddStudioAt(table: seq<StudioRow>, r: LedgerRow, name: string)
    ensures StudioFor(AddStudio(table, r), name) ==
            if StudioOf(r) == name then CountRun(StudioFor(table, name), r) else StudioFor(table, name)
  {
    if table == [] {
      assert [CountRun(StudioRow(StudioOf(r), 0, 0.0, 0.0, 0, 0), r)][1..] == [];
    } else if table[0].studio == StudioOf(r) {
      assert ([CountRun(table[0], r)] + table[1..])[1..] == table[1..];
    } else {
      AddStudioAt(table[1..], r, name);
      assert ([table[0]] + AddStudio(table[1..], r))[1..] == AddStudio(table[1..], r);
    }
  }

  function OfStudio(name: string): LedgerRow -> bool {
    (r: LedgerRow) => if r.studio == "" then name == "?" else r.studio == name
  }

  /** What a studio's row must be, said without the table. */
  function StudioTotals(name: string, own: seq<LedgerRow>): StudioRow {
    var cost := CostSum(own);
    StudioRow(name, |own|, cost.minutes, cost.quotaPct, |Filter(IsFailure, own)|, |Filter(IsRework, own)|)
  }

  lemma {:induction false} StudioTotalsSnoc(name: string, rows: seq<LedgerRow>, i: nat)
    requires i < |rows|
    ensures var own := Filter(OfStudio(name), rows[..i]);
            StudioTotals(name, Filter(OfStudio(name), rows[..i + 1])) ==
            if StudioOf(rows[i]) == name then CountRun(StudioTotals(name, own), rows[i]) else StudioTotals(name, own)
  {
    var own := Filter(OfStudio(name), rows[..i]);
    SnocLength(OfStudio(name), rows, i);
    if StudioOf(rows[i]) == name {
      var all := own + [rows[i]];
      assert all[..|own|] == own && all[..|own| + 1] == all;
      OneMoreTallied(all, |own|);
    } else {
      assert own + [] == own;
    }
  }

  // ----- failuresByCause -----

  datatype Cause = Cause(cause: string, count: int, cost: CostVec)

  const UNKNOWN := "sem causa registrada"

  predicate HasCause(r: LedgerRow) { r.reason != "" || r.kind == Some(Failure) }

  function CauseOf(r: LedgerRow): string { if r.reason != "" then r.reason else UNKNOWN }

  function PlusCost(a: CostVec, b: CostVec): CostVec {
    CostVec(a.quotaPct + b.quotaPct, a.usd + b.usd, a.credits + b.credits, a.minutes + b.minutes)
  }

  const FREE := CostVec(0.0, 0.0, 0.0, 0.0)

  function AddCause(table: seq<Cause>, r: LedgerRow): seq<Cause> {
    if table == [] then [Cause(CauseOf(r), 1, PlusCost(FREE, r.cost))]
    else if table[0].cause == CauseOf(r) then [Cause(table[0].cause, table[0].count + 1, PlusCost(table[0].cost, r.cost))] + table[1..]
    else [table[0]] + AddCause(table[1..], r)
  }

  function CauseTable(rows: seq<LedgerRow>): seq<Cause> {
    if rows == [] then []
    else
      var before, last := CauseTable(rows[..|rows| - 1]), rows[|rows| - 1];
      if HasCause(last) then AddCause(before, last) else before
  }

  /** What stands against a cause, or a row of zeros. */
  function CauseFor(table: seq<Cause>, cause: string): Cause {
    if table == [] then Cause(cause, 0, FREE)
    else if table[0].cause == cause then table[0]
    else CauseFor(table[1..], cause)
  }

  function Counts(table: seq<Cause>): int {
    if table == [] then 0 else table[0].count + Counts(table[1..])
  }

  lemma {:induction false} AddCauseAt(table: seq<Cause>, r: LedgerRow, cause: string)
    ensures Counts(AddCause(table, r)) == Counts(table) + 1
    ensures CauseFor(AddCause(table, r), cause) ==
            if CauseOf(r) != cause then CauseFor(table, cause)
            else Cause(cause, CauseFor(table, cause).count + 1, PlusCost(CauseFor(table, cause).cost, r.cost))
  {
    if table == [] {
      assert [Cause(CauseOf(r), 1, PlusCost(FREE, r.cost))][1..] == [];
    } else if table[0].cause == CauseOf(r) {
      var bumped := Cause(table[0].cause, table[0].count + 1, PlusCost(table[0].cost, r.cost));
      assert ([bumped] + table[1..])[1..] == table[1..];
    } else {
      AddCauseAt(table[1..], r, cause);
      assert ([table[0]] + AddCause(table[1..], r))[1..] == AddCause(table[1..], r);
    }
  }

  function CausedBy(cause: string): LedgerRow -> bool {
    (r: LedgerRow) => if r.reason == "" then r.kind == Some(Failure) && cause == "sem causa registrada" else r.reason == cause
  }

  /** Against each cause stand exactly its own rows, counted and with their
      costs added; over all causes the counts add up to the rows that have a
      recorded reason or count as a failure. */
  lemma {:induction false} CausesCount(rows: seq<LedgerRow>, cause: string)
    ensures var own := Filter(CausedBy(cause), rows);
            CauseFor(CauseTable(rows), cause) == Cause(cause, |own|, CostSum(own))
    ensures Counts(CauseTable(rows)) == |Filter(HasCause, rows)|
  {
    if rows != [] {
      var n := |rows| - 1;
      var last := rows[n];
      CausesCount(rows[..n], cause);
      assert rows[..n + 1] == rows;
      SnocLength(HasCause, rows, n);
      SnocLength(CausedBy(cause), rows, n);
      CostSumSnoc(Filter(CausedBy(cause), rows[..n]), last);
      AddCauseAt(CauseTable(rows[..n]), last, cause);
      assert Filter(CausedBy(cause), rows[..n]) + [] == Filter(CausedBy(cause), rows[..n]);
    }
  }

  ghost predicate DistinctCauses(table: seq<Cause>) {
    forall i, j :: 0 <= i < j < |table| ==> table[i].cause != table[j].cause
  }

  /** One row a cause, and none without a row of the ledger. */
  lemma {:induction false} CausesAreDistinct(rows: seq<LedgerRow>)
    ensures DistinctCauses(CauseTable(rows))
    ensures forall c :: c in CauseTable(rows) ==> c.count > 0 && c == CauseFor(CauseTable(rows), c.cause)
  {
    if rows != [] && HasCause(rows[|rows| - 1]) {
      CausesAreDistinct(rows[..|rows| - 1]);
      AddCauseDistinct(CauseTable(rows[..|rows| - 1]), rows[|rows| - 1]);
    } else if rows != [] {
      CausesAreDistinct(rows[..|rows| - 1]);
    }
    forall c | c in CauseTable(rows) ensures c == CauseFor(CauseTable(rows), c.cause) {
      FoundByCause(CauseTable(rows), c);
    }
  }

  lemma {:induction false} AddCauseDistinct(table: seq<Cause>, r: LedgerRow)
    requires DistinctCauses(table) && forall c :: c in table ==> c.count > 0
    ensures DistinctCauses(AddCause(table, r)) && forall c :: c in AddCause(table, r) ==> c.count > 0
    ensures forall c :: c in AddCause(table, r) ==> c.cause == CauseOf(r) || c in table
  {
    if table != [] && table[0].cause != CauseOf(r) {
      var rest := table[1..];
      AddCauseDistinct(rest, r);
      var grown := AddCause(rest, r);
      forall j | 0 <= j < |grown| ensures grown[j].cause != table[0].cause {
        assert grown[j] in grown;
      }
    }
  }

  lemma {:induction false} FoundByCause(table: seq<Cause>, c: Cause)
    requires DistinctCauses(table) && c in table
    ensures CauseFor(table, c.cause) == c
  {
    if table[0] != c {
      var i :| 0 < i < |table| && table[i] == c;
      FoundByCause(table[1..], c);
    }
  }

  /** b.count - a.count || cmp(a, b) || a.cause.localeCompare(b.cause), at most
      zero; `le` is localeCompare answering at most zero. */
  function CauseOrder(le: (string, string) -> bool): (Cause, Cause) -> bool {
    (a: Cause, b: Cause) =>
      a.count > b.count || (a.count == b.count && Dearer(a.cost, b.cost) && (a.cost == b.cost ==> le(a.cause, b.cause)))
  }

  lemma {:induction false} CauseOrderIsTotal(le: (string, string) -> bool)
    requires TotalPreorder(le)
    ensures TotalPreorder(CauseOrder(le))
  {
    var o := CauseOrder(le);
    CmpIsTotal();
    forall a, b ensures o(a, b) || o(b, a) {
      assert Dearer(a.cost, b.cost) || Dearer(b.cost, a.cost);
      assert le(a.cause, b.cause) || le(b.cause, a.cause);
    }
    forall a, b, c | o(a, b) && o(b, c) ensures o(a, c) {
      if a.count == b.count == c.count {
        assert Dearer(a.cost, c.cost);
        assert le(a.cause, b.cause) && le(b.cause, c.cause) ==> le(a.cause, c.cause);
      }
    }
  }

  /** failuresByCause */
  method FailuresByCause(rows: seq<LedgerRow>, le: (string, string) -> bool) returns (causes: seq<Cause>)
    requires TotalPreorder(le)
    ensures multiset(causes) == multiset(CauseTable(rows)) && Sorted(CauseOrder(le), causes)
    ensures forall i, j :: 0 <= i < j < |causes| ==>
              var a, b := causes[i], causes[j];
              && a.count >= b.count
              && (a.count == b.count ==> AtLeastAsDear(RankKey(a.cost), RankKey(b.cost)))
              && (a.count == b.count && a.cost == b.cost ==> le(a.cause, b.cause))
  {
    var table: seq<Cause> := [];
    for i := 0 to |rows|
      invariant table == CauseTable(rows[..i])
    {
      assert rows[..i + 1][..i] == rows[..i];
      if rows[i].reason == "" && rows[i].kind != Some(Failure) { continue; }
      table := AddCause(table, rows[i]);
    }
    assert rows[..|rows|] == rows;
    CauseOrderIsTotal(le);
    StableSortSorted(CauseOrder(le), table);
    causes := StableSort(CauseOrder(le), table);
    forall i, j | 0 <= i < j < |causes|
      ensures CauseOrder(le)(causes[i], causes[j])
      ensures Dearer(causes[i].cost, causes[j].cost) <==> AtLeastAsDear(RankKey(causes[i].cost), RankKey(causes[j].cost))
    {
      DearerIsCmp(causes[i].cost, causes[j].cost);
    }
  }

  lemma {:induction false} SnocLength(p: LedgerRow -> bool, rows: seq<LedgerRow>, i: nat)
    requires i < |rows|
    ensures |Filter(p, rows[..i + 1])| == |Filter(p, rows[..i])| + (if p(rows[i]) then 1 else 0)
    ensures Filter(p, rows[..i + 1]) == Filter(p, rows[..i]) + (if p(rows[i]) then [rows[i]] else [])
  {
    assert rows[..i + 1] == rows[..i] + [rows[i]];
    FilterAppend(p, rows[..i], [rows[i]]);
    FilterCons(p, rows[i], []);
    assert [rows[i]] + [] == [rows[i]];
  }

  /** The four sums over the window, each the plain sum of its measure. */
  function CostSum(rows: seq<LedgerRow>): CostVec {
    if rows == [] then FREE else PlusCost(rows[0].cost, CostSum(rows[1..]))
  }

  lemma {:induction false} CostSumSnoc(rows: seq<LedgerRow>, r: LedgerRow)
    ensures CostSum(rows + [r]) == PlusCost(CostSum(rows), r.cost)
  {
    if rows == [] {
      assert rows + [r] == [r] && [r][1..] == [];
    } else {
      assert (rows + [r])[1..] == rows[1..] + [r];
      CostSumSnoc(rows[1..], r);
    }
  }

  function SumReal<T>(f: T -> real, xs: seq<T>): real {
    if xs == [] then 0.0 else f(xs[0]) + SumReal(f, xs[1..])
  }

  /** Each measure is summed on its own. */
  lemma {:induction false} CostSumIsPerMeasure(rows: seq<LedgerRow>)
    ensures CostSum(rows) ==
            CostVec(SumReal((r: LedgerRow) => r.cost.quotaPct, rows), SumReal((r: LedgerRow) => r.cost.usd, rows),
                    SumReal((r: LedgerRow) => r.cost.credits, rows), SumReal((r: LedgerRow) => r.cost.minutes, rows))
  {
    if rows != [] { CostSumIsPerMeasure(rows[1..]); }
  }

  // ----- buildReport -----

  /** `ranked` is in order and nothing left out is dearer than anything in it. */
  ghost predicate BestOf(ranked: seq<LedgerRow>, flags: seq<LedgerRow>) {
    && Sorted(RowOrder(), ranked)
    && exists rest: seq<LedgerRow> :: multiset(flags) == multiset(ranked) + multiset(rest) && AllDearer(ranked, rest)
  }

  ghost predicate AllDearer(ranked: seq<LedgerRow>, rest: seq<LedgerRow>) {
    forall r, s :: r in ranked && s in rest ==> Dearer(r.cost, s.cost)
  }

  datatype Report = Report(rows: int, failures: int, reworks: int, total: CostVec, byStudio: seq<StudioRow>,
                           top: Option<LedgerRow>, ranked: seq<LedgerRow>)

  predicate Flagged(r: LedgerRow) { r.kind.Some? }
  predicate IsFailure(r: LedgerRow) { r.kind == Some(Failure) }
  predicate IsRework(r: LedgerRow) { r.kind == Some(Rework) }

  function InWindow(since: int, now: int): LedgerRow -> bool {
    (r: LedgerRow) => since <= r.time <= now
  }

  function Flags(rows: seq<LedgerRow>): seq<LedgerRow> { Filter(Flagged, rows) }

  method BuildReport(runs: seq<LedgerRow>, since: int, now: int) returns (report: Report)
    ensures var rows := Filter(InWindow(since, now), runs);
            && report.rows == |rows| && report.total == CostSum(rows)
            && report.failures == |Filter(IsFailure, rows)| && report.reworks == |Filter(IsRework, rows)|
            && (forall r :: r in rows <==> r in runs && since <= r.time <= now)
            && (forall r :: r in Flags(rows) <==> r in rows && r.kind.Some?)
    // each studio's row is its own, and the studios add up to the report
    ensures var rows := Filter(InWindow(since, now), runs);
            forall name :: StudioFor(report.byStudio, name) == StudioTotals(name, Filter(OfStudio(name), rows))
    ensures StudioSums(report.byStudio) ==
            StudioRow("", report.rows, report.total.minutes, report.total.quotaPct, report.failures, report.reworks)
    // top is maximal among the flagged rows, ranked the best five in order
    ensures var flags := Flags(Filter(InWindow(since, now), runs));
            && (report.top.None? <==> flags == [])
            && (report.top.Some? ==> report.top.value in flags && forall r :: r in flags ==> Dearer(report.top.value.cost, r.cost))
            && |report.ranked| == (if |flags| < 5 then |flags| else 5)
            && BestOf(report.ranked, flags)
  {
    var rows := Filter(InWindow(since, now), runs);
    var byStudio, total, failures, reworks := Tally(rows);
    var flags := Flags(rows);
    FilterMembers(InWindow(since, now), runs);
    FilterMembers(Flagged, rows);
    var top, ranked := Rank(flags);
    report := Report(|rows|, failures, reworks, total, byStudio, top, ranked);
  }

  /** flagged.sort(cmp), flagged[0] and flagged.slice(0, 5) */
  method Rank(flags: seq<LedgerRow>) returns (top: Option<LedgerRow>, ranked: seq<LedgerRow>)
    ensures top.None? <==> flags == []
    ensures top.Some? ==> top.value in flags && forall r :: r in flags ==> Dearer(top.value.cost, r.cost)
    ensures |ranked| == (if |flags| < 5 then |flags| else 5) && BestOf(ranked, flags)
  {
    var sorted := StableSort(RowOrder(), flags);
    CmpIsTotal();
    StableSortSorted(RowOrder(), flags);
    var k := if |sorted| < 5 then |sorted| else 5;
    BestFive(flags, sorted, k);
    top := if sorted == [] then None else Some(sorted[0]);
    ranked := sorted[..k];
  }

  lemma {:induction false} OneMoreTallied(rows: seq<LedgerRow>, i: nat)
    requires i < |rows|
    ensures CostSum(rows[..i + 1]) == PlusCost(CostSum(rows[..i]), rows[i].cost)
    ensures |Filter(IsFailure, rows[..i + 1])| == |Filter(IsFailure, rows[..i])| + (if IsFailure(rows[i]) then 1 else 0)
    ensures |Filter(IsRework, rows[..i + 1])| == |Filter(IsRework, rows[..i])| + (if IsRework(rows[i]) then 1 else 0)
  {
    assert rows[..i + 1] == rows[..i] + [rows[i]];
    CostSumSnoc(rows[..i], rows[i]);
    SnocLength(IsFailure, rows, i);
    SnocLength(IsRework, rows, i);
  }

  ghost predicate StudiosRight(table: seq<StudioRow>, rows: seq<LedgerRow>) {
    forall name :: StudioFor(table, name) == StudioTotals(name, Filter(OfStudio(name), rows))
  }

  lemma {:induction false} StudiosStayRight(table: seq<StudioRow>, rows: seq<LedgerRow>, i: nat)
    requires i < |rows| && StudiosRight(table, rows[..i])
    ensures StudiosRight(AddStudio(table, rows[i]), rows[..i + 1])
  {
    forall name ensures StudioFor(AddStudio(table, rows[i]), name) == StudioTotals(name, Filter(OfStudio(name), rows[..i + 1])) {
      AddStudioAt(table, rows[i], name);
      StudioTotalsSnoc(name, rows, i);
    }
  }

  /** The accumulating loops of buildReport. */
  method Tally(rows: seq<LedgerRow>) returns (byStudio: seq<StudioRow>, total: CostVec, failures: int, reworks: int)
    ensures total == CostSum(rows)
    ensures failures == |Filter(IsFailure, rows)| && reworks == |Filter(IsRework, rows)|
    ensures StudioSums(byStudio) == StudioRow("", |rows|, total.minutes, total.quotaPct, failures, reworks)
    ensures forall name :: StudioFor(byStudio, name) == StudioTotals(name, Filter(OfStudio(name), rows))
  {
    byStudio, total, failures, reworks := [], FREE, 0, 0;
    for i := 0 to |rows|
      invariant total == CostSum(rows[..i])
      invariant failures == |Filter(IsFailure, rows[..i])| && reworks == |Filter(IsRework, rows[..i])|
      invariant StudioSums(byStudio) == StudioRow("", i, total.minutes, total.quotaPct, failures, reworks)
      invariant StudiosRight(byStudio, rows[..i])
    {
      var r := rows[i];
      OneMoreTallied(rows, i);
      StudiosStayRight(byStudio, rows, i);
      AddStudioConserves(byStudio, r);
      byStudio := AddStudio(byStudio, r);
      total := PlusCost(total, r.cost);
      if r.kind == Some(Failure) { failures := failures + 1; }
      if r.kind == Some(Rework) { reworks := reworks + 1; }
    }
    assert rows[..|rows|] == rows;
  }

  lemma {:induction false} BestFive(flags: seq<LedgerRow>, sorted: seq<LedgerRow>, k: nat)
    requires multiset(flags) == multiset(sorted) && Sorted(RowOrder(), sorted) && k <= |sorted|
    ensures BestOf(sorted[..k], flags)
    ensures sorted != [] ==> sorted[0] in flags && forall r :: r in flags ==> Dearer(sorted[0].cost, r.cost)
    ensures |sorted| == |flags|
  {
    assert |multiset(flags)| == |flags| && |multiset(sorted)| == |sorted|;
    var order := RowOrder();
    var ranked, rest := sorted[..k], sorted[k..];
    assert sorted == ranked + rest;
    forall r, s | r in ranked && s in rest ensures Dearer(r.cost, s.cost) {
      var i :| 0 <= i < |ranked| && ranked[i] == r;
      var j :| 0 <= j < |rest| && rest[j] == s;
      assert order(sorted[i], sorted[k + j]);
    }
    assert AllDearer(ranked, rest) && multiset(flags) == multiset(ranked) + multiset(rest);
    if sorted != [] {
      assert sorted[0] in multiset(sorted) && sorted[0] in multiset(flags);
      forall r | r in flags ensures Dearer(sorted[0].cost, r.cost) {
        assert r in multiset(flags) && r in multiset(sorted);
        var j :| 0 <= j < |sorted| && sorted[j] == r;
        assert j == 0 || order(sorted[0], sorted[j]);
      }
    }
  }
}
