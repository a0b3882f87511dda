/** The task board of control-plane/public/board.mjs: which column a task sits
    in, whether it has stalled, the grouped and ordered board, and the filters
    that narrow it. Date parsing and string collation are inputs. */
module TaskBoard {
  import opened Collections

  datatype Column = Inbox | Assigned | InProgress | Review | Finished | Stuck

  const COLUMNS: seq<Column> := [Inbox, Assigned, InProgress, Review, Finished, Stuck]

  const DAY_MS := 86_400_000
  const STALLED_AFTER_DAYS := 3

  /** A published row. `status` is already in lower case; a row that is null or
      has no id has id "". */
  datatype Task = Task(id: string, status: string, stage: string, project: string, updatedAt: string)

  datatype Movement = Movement(ms: nat, days: nat, stalled: bool)

  /** A card: the row it was drawn from, its column and its movement. */
  datatype Card = Card(task: Task, column: Column, movement: Option<Movement>)

  /** `parse` is Date.parse, `le` is localeCompare answering at most zero. */
  datatype Clock = Clock(now: int, parse: string -> Option<int>, le: (string, string) -> bool)

  function BoardColumn(t: Task): Column {
    if t.status == "blocked" || t.status == "failed" then Stuck
    else if t.status in ["merge-ready", "merged", "complete", "completed"] then Finished
    else if t.stage in ["reviewer", "qa", "security"] then Review
    else if t.stage == "builder" || t.stage == "release" then InProgress
    else if t.stage in ["product", "architect"] then Assigned
    else Inbox
  }

  function MovementOf(clock: Clock, updatedAt: string, column: Column): Option<Movement> {
    match clock.parse(updatedAt)
    case None => None
    case Some(at) =>
      var ms: nat := if clock.now - at > 0 then clock.now - at else 0;
      Some(Movement(ms, ms / DAY_MS, ms >= STALLED_AFTER_DAYS * DAY_MS && column != Finished))
  }

  function CardOf(clock: Clock, t: Task): Card {
    var column := BoardColumn(t);
    Card(t, column, MovementOf(clock, t.updatedAt, column))
  }

  predicate StalledCard(c: Card) {
    c.movement.Some? && c.movement.value.stalled
  }

  predicate StalledTask(clock: Clock, t: Task) {
    var m := MovementOf(clock, t.updatedAt, BoardColumn(t));
    m.Some? && m.value.stalled
  }

  // ----- the filters -----

  function FilterStalled(clock: Clock, tasks: seq<Task>): seq<Task> {
    Filter((t: Task) => StalledTask(clock, t), tasks)
  }

  function FilterByProject(tasks: seq<Task>, project: string): seq<Task> {
    if project == "" then tasks else Filter((t: Task) => t.project == project, tasks)
  }

  // ----- what the board is -----

  /** The cards of the rows that have an id, in row order. */
  function Cards(clock: Clock, tasks: seq<Task>): seq<Card> {
    if tasks == [] then []
    else if tasks[0].id == "" then Cards(clock, tasks[1..])
    else [CardOf(clock, tasks[0])] + Cards(clock, tasks[1..])
  }

  function InColumn(c: Column): Card -> bool {
    (card: Card) => card.column == c
  }

  function NewestFirst(clock: Clock): (Card, Card) -> bool {
    (a: Card, b: Card) => clock.le(b.task.updatedAt, a.task.updatedAt)
  }

  function ColumnCards(clock: Clock, tasks: seq<Task>, c: Column): seq<Card> {
    StableSort(NewestFirst(clock), Filter(InColumn(c), Cards(clock, tasks)))
  }

  datatype Board = Board(columns: map<Column, seq<Card>>, counts: map<Column, nat>, total: nat, stalled: nat)

  function StalledIn(board: map<Column, seq<Card>>, columns: seq<Column>): nat
    requires forall c :: c in columns ==> c in board
  {
    if columns == [] then 0
    else StalledIn(board, columns[..|columns| - 1]) + |Filter(StalledCard, board[columns[|columns| - 1]])|
  }

  /** buildBoard's first loop: push each card onto its column. */
  method GroupCards(clock: Clock, tasks: seq<Task>) returns (columns: map<Column, seq<Card>>, total: nat)
    ensures forall c :: c in columns && columns[c] == Filter(InColumn(c), Cards(clock, tasks))
    ensures total == |Cards(clock, tasks)|
  {
    EveryColumn();
    columns := map c: Column | c in COLUMNS :: [];
    total := 0;
    for i := 0 to |tasks|
      invariant forall c :: c in columns
      invariant forall c :: columns[c] == Filter(InColumn(c), Cards(clock, tasks[..i]))
      invariant total == |Cards(clock, tasks[..i])|
    {
      OneMoreRow(clock, tasks, i);
      if tasks[i].id != "" {
        var card := CardOf(clock, tasks[i]);
        columns := columns[card.column := columns[card.column] + [card]];
        total := total + 1;
      }
    }
    assert tasks[..|tasks|] == tasks;
  }

  lemma {:induction false} OneMoreRow(clock: Clock, tasks: seq<Task>, i: nat)
    requires i < |tasks|
    ensures tasks[i].id == "" ==> Cards(clock, tasks[..i + 1]) == Cards(clock, tasks[..i])
    ensures tasks[i].id != "" ==> |Cards(clock, tasks[..i + 1])| == |Cards(clock, tasks[..i])| + 1
    ensures tasks[i].id != "" ==>
              forall c :: Filter(InColumn(c), Cards(clock, tasks[..i + 1])) ==
                          if CardOf(clock, tasks[i]).column == c then Filter(InColumn(c), Cards(clock, tasks[..i])) + [CardOf(clock, tasks[i])]
                          else Filter(InColumn(c), Cards(clock, tasks[..i]))
  {
    var before, row := Cards(clock, tasks[..i]), tasks[i];
    assert tasks[..i + 1] == tasks[..i] + [row];
    CardsAppend(clock, tasks[..i], [row]);
    assert Cards(clock, [row][1..]) == [];
    if row.id != "" {
      var card := CardOf(clock, row);
      forall c ensures Filter(InColumn(c), before + [card]) ==
                       if card.column == c then Filter(InColumn(c), before) + [card] else Filter(InColumn(c), before)
      {
        FilterAppend(InColumn(c), before, [card]);
        FilterCons(InColumn(c), card, []);
        assert [card] + [] == [card];
      }
    }
  }

  /** Its second: sort each column in place. */
  method SortColumns(clock: Clock, grouped: map<Column, seq<Card>>) returns (columns: map<Column, seq<Card>>)
    requires forall c :: c in grouped
    ensures forall c :: c in columns && columns[c] == StableSort(NewestFirst(clock), grouped[c])
  {
    SixColumns();
    columns := grouped;
    for k := 0 to |COLUMNS|
      invariant forall c :: c in columns
      invariant forall c :: columns[c] == if c in COLUMNS[..k] then StableSort(NewestFirst(clock), grouped[c]) else grouped[c]
    {
      var c := COLUMNS[k];
      assert COLUMNS[..k + 1] == COLUMNS[..k] + [c];
      assert c !in COLUMNS[..k];
      columns := columns[c := StableSort(NewestFirst(clock), columns[c])];
    }
    EveryColumn();
    assert COLUMNS[..|COLUMNS|] == COLUMNS;
  }

  method CountStalled(columns: map<Column, seq<Card>>) returns (stalled: nat)
    requires forall c :: c in columns
    ensures stalled == StalledIn(columns, COLUMNS)
  {
    stalled := 0;
    for k := 0 to |COLUMNS|
      invariant stalled == StalledIn(columns, COLUMNS[..k])
    {
      assert COLUMNS[..k + 1][..k] == COLUMNS[..k];
      stalled := stalled + |Filter(StalledCard, columns[COLUMNS[k]])|;
    }
    assert COLUMNS[..|COLUMNS|] == COLUMNS;
  }

  /** buildBoard: group the cards, sort each column, count the stalled. */
  method BuildBoard(clock: Clock, tasks: seq<Task>) returns (board: Board)
    ensures forall c :: c in board.columns && board.columns[c] == ColumnCards(clock, tasks, c)
    ensures forall c :: multiset(Rows(board.columns[c])) == multiset(Filter(Belongs(c), tasks))
    ensures forall c, card :: card in board.columns[c] ==> card.column == c && MovedAsShown(clock, card)
    ensures TotalPreorder(clock.le) ==>
              forall c, i, j :: 0 <= i < j < |board.columns[c]| ==>
                clock.le(board.columns[c][j].task.updatedAt, board.columns[c][i].task.updatedAt)
    ensures forall c :: c in board.counts && board.counts[c] == |board.columns[c]|
    ensures board.total == |Cards(clock, tasks)|
    ensures board.stalled == StalledIn(board.columns, COLUMNS)
  {
    var grouped, total := GroupCards(clock, tasks);
    var columns := SortColumns(clock, grouped);
    var stalled := CountStalled(columns);
    board := Board(columns, map c | c in columns :: |columns[c]|, total, stalled);
    forall c
      ensures multiset(Rows(columns[c])) == multiset(Filter(Belongs(c), tasks))
      ensures forall card: Card :: card in columns[c] ==> card.column == c && MovedAsShown(clock, card)
      ensures TotalPreorder(clock.le) ==> NewestOnTop(clock, columns[c])
    {
      ColumnHolds(clock, tasks, c);
      if TotalPreorder(clock.le) { ColumnOrder(clock, tasks, c, ""); }
    }
  }

  // ----- what a column holds, in the words of its row -----

  function Rows(cards: seq<Card>): (rows: seq<Task>)
    ensures |rows| == |cards|
    ensures forall i :: 0 <= i < |cards| ==> rows[i] == cards[i].task
  {
    seq(|cards|, i requires 0 <= i < |cards| => cards[i].task)
  }

  /** The rows that a column is for: stuck and finished work by its status, all
      other work by its stage. */
  function Belongs(c: Column): Task -> bool {
    (t: Task) => t.id != "" && BelongsIn(c, t)
  }

  predicate BelongsIn(c: Column, t: Task) {
    var stuck := t.status in {"blocked", "failed"};
    var done := t.status in {"merge-ready", "merged", "complete", "completed"};
    match c
    case Stuck => stuck
    case Finished => done
    case Review => !stuck && !done && t.stage in {"reviewer", "qa", "security"}
    case InProgress => !stuck && !done && t.stage in {"builder", "release"}
    case Assigned => !stuck && !done && t.stage in {"product", "architect"}
    case Inbox =>
      !stuck && !done && t.stage !in {"reviewer", "qa", "security", "builder", "release", "product", "architect"}
  }

  /** A card shows how long ago its row moved, in whole days too, if the row's
      date can be read, and that it has stalled exactly when that is three days
      or more and it is not finished. */
  predicate MovedAsShown(clock: Clock, card: Card) {
    match clock.parse(card.task.updatedAt)
    case None => card.movement.None?
    case Some(at) =>
      && card.movement.Some?
      && var m := card.movement.value;
         && m.ms == (if at <= clock.now then clock.now - at else 0)
         && m.days * 86_400_000 <= m.ms < (m.days + 1) * 86_400_000
         && (m.stalled <==> clock.now - at >= 259_200_000 && card.column != Finished)
  }

  predicate NewestOnTop(clock: Clock, cards: seq<Card>) {
    forall i, j :: 0 <= i < j < |cards| ==> clock.le(cards[j].task.updatedAt, cards[i].task.updatedAt)
  }

  lemma {:induction false} CardBelongs(t: Task, c: Column)
    ensures BoardColumn(t) == c <==> BelongsIn(c, t)
  {
  }

  lemma {:induction false} RowsOfColumn(clock: Clock, tasks: seq<Task>, c: Column)
    ensures Rows(Filter(InColumn(c), Cards(clock, tasks))) == Filter(Belongs(c), tasks)
  {
    if tasks != [] {
      RowsOfColumn(clock, tasks[1..], c);
      CardBelongs(tasks[0], c);
      FilterCons(InColumn(c), CardOf(clock, tasks[0]), Cards(clock, tasks[1..]));
    }
  }

  lemma {:induction false} RowsFilter(p: Task -> bool, q: Card -> bool, cards: seq<Card>)
    requires forall card :: q(card) == p(card.task)
    ensures Rows(Filter(q, cards)) == Filter(p, Rows(cards))
  {
    if cards != [] {
      RowsFilter(p, q, cards[1..]);
      assert Rows(cards)[1..] == Rows(cards[1..]);
    }
  }

  lemma {:induction false} RowsMultiset(xs: seq<Card>, ys: seq<Card>)
    requires multiset(xs) == multiset(ys)
    ensures multiset(Rows(xs)) == multiset(Rows(ys))
  {
    forall t ensures multiset(Rows(xs))[t] == multiset(Rows(ys))[t] {
      RowCount(xs, t);
      RowCount(ys, t);
      FilterLengthByMultiset((card: Card) => card.task == t, xs, ys);
    }
  }

  lemma {:induction false} RowCount(xs: seq<Card>, t: Task)
    ensures multiset(Rows(xs))[t] == |Filter((card: Card) => card.task == t, xs)|
  {
    if xs != [] {
      RowCount(xs[1..], t);
      assert Rows(xs) == [xs[0].task] + Rows(xs[1..]);
    }
  }

  /** A column holds exactly the rows that it is for, each as often as it was
      published, and shows of each when it last moved. */
  lemma {:induction false} ColumnHolds(clock: Clock, tasks: seq<Task>, c: Column)
    ensures multiset(Rows(ColumnCards(clock, tasks, c))) == multiset(Filter(Belongs(c), tasks))
    ensures forall card :: card in ColumnCards(clock, tasks, c) ==> card.column == c && MovedAsShown(clock, card)
  {
    var cards := Filter(InColumn(c), Cards(clock, tasks));
    RowsOfColumn(clock, tasks, c);
    RowsMultiset(ColumnCards(clock, tasks, c), cards);
    CardsShow(clock, tasks);
    forall card | card in ColumnCards(clock, tasks, c) ensures card.column == c && card in Cards(clock, tasks) {
      InItsColumn(clock, tasks, c, card);
    }
  }

  lemma {:induction false} InItsColumn(clock: Clock, tasks: seq<Task>, c: Column, card: Card)
    requires card in ColumnCards(clock, tasks, c)
    ensures card.column == c && card in Cards(clock, tasks)
  {
    var cards := Filter(InColumn(c), Cards(clock, tasks));
    assert multiset(ColumnCards(clock, tasks, c)) == multiset(cards);
    assert card in multiset(cards) && card in cards;
    FilterMembers(InColumn(c), Cards(clock, tasks));
  }

  lemma {:induction false} CardsShow(clock: Clock, tasks: seq<Task>)
    ensures forall card :: card in Cards(clock, tasks) ==> MovedAsShown(clock, card)
  {
    if tasks != [] { CardsShow(clock, tasks[1..]); }
  }

  function Dated(clock: Clock, date: string): Task -> bool {
    (t: Task) => clock.le(t.updatedAt, date) && clock.le(date, t.updatedAt)
  }

  /** A column has its newest rows on top, and rows of one date in the order in
      which they were published. */
  lemma {:induction false} ColumnOrder(clock: Clock, tasks: seq<Task>, c: Column, date: string)
    requires TotalPreorder(clock.le)
    ensures NewestOnTop(clock, ColumnCards(clock, tasks, c))
    ensures Filter(Dated(clock, date), Rows(ColumnCards(clock, tasks, c))) == Filter(Dated(clock, date), Filter(Belongs(c), tasks))
  {
    var le, cards := NewestFirst(clock), Filter(InColumn(c), Cards(clock, tasks));
    NewestFirstIsPreorder(clock);
    StableSortSorted(le, cards);
    DatedKeepOrder(clock, cards, date);
    RowsOfColumn(clock, tasks, c);
  }

  lemma {:induction false} DatedKeepOrder(clock: Clock, cards: seq<Card>, date: string)
    requires TotalPreorder(NewestFirst(clock))
    ensures Filter(Dated(clock, date), Rows(StableSort(NewestFirst(clock), cards))) == Filter(Dated(clock, date), Rows(cards))
  {
    var le, p := NewestFirst(clock), Dated(clock, date);
    var q := (card: Card) => p(card.task);
    RowsFilter(p, q, cards);
    RowsFilter(p, q, StableSort(le, cards));
    StableSortCommutesWithFilter(le, q, cards);
    FilterMembers(q, cards);
    SortingTies(le, Filter(q, cards), Card(Task("", "", "", "", date), Inbox, None));
  }

  lemma {:induction false} EveryColumn()
    ensures forall c: Column :: c in COLUMNS
  {
    forall c: Column ensures c in COLUMNS {
      match c
      case Inbox => assert COLUMNS[0] == c;
      case Assigned => assert COLUMNS[1] == c;
      case InProgress => assert COLUMNS[2] == c;
      case Review => assert COLUMNS[3] == c;
      case Finished => assert COLUMNS[4] == c;
      case Stuck => assert COLUMNS[5] == c;
    }
  }

  lemma {:induction false} CardsAppend(clock: Clock, a: seq<Task>, b: seq<Task>)
    ensures Cards(clock, a + b) == Cards(clock, a) + Cards(clock, b)
  {
    if a == [] {
      assert a + b == b;
    } else {
      assert (a + b)[1..] == a[1..] + b;
      CardsAppend(clock, a[1..], b);
    }
  }

  // ----- filtering commutes with the board -----

  /** A row filter and a card filter that ask the same question. */
  ghost predicate Agree(clock: Clock, p: Task -> bool, q: Card -> bool) {
    forall t :: q(CardOf(clock, t)) == p(t)
  }

  lemma {:induction false} CardsOfFiltered(clock: Clock, p: Task -> bool, q: Card -> bool, tasks: seq<Task>)
    requires Agree(clock, p, q)
    ensures Cards(clock, Filter(p, tasks)) == Filter(q, Cards(clock, tasks))
  {
    if tasks != [] {
      CardsOfFiltered(clock, p, q, tasks[1..]);
      var rest := Filter(p, tasks[1..]);
      assert q(CardOf(clock, tasks[0])) == p(tasks[0]);
      if p(tasks[0]) {
        assert ([tasks[0]] + rest)[1..] == rest;
      }
      FilterCons(q, CardOf(clock, tasks[0]), Cards(clock, tasks[1..]));
    }
  }

  lemma {:induction false} FiltersCommute<T>(p: T -> bool, q: T -> bool, xs: seq<T>)
    ensures Filter(p, Filter(q, xs)) == Filter(q, Filter(p, xs))
  {
    if xs != [] {
      FiltersCommute(p, q, xs[1..]);
      FilterCons(p, xs[0], Filter(q, xs[1..]));
      FilterCons(q, xs[0], Filter(p, xs[1..]));
    }
  }

  lemma {:induction false} NewestFirstIsPreorder(clock: Clock)
    requires TotalPreorder(clock.le)
    ensures TotalPreorder(NewestFirst(clock))
  {
    var le := NewestFirst(clock);
    forall a, b ensures le(a, b) || le(b, a) {
      assert clock.le(b.task.updatedAt, a.task.updatedAt) || clock.le(a.task.updatedAt, b.task.updatedAt);
    }
    forall a, b, c | le(a, b) && le(b, c) ensures le(a, c) {
      assert clock.le(c.task.updatedAt, b.task.updatedAt) && clock.le(b.task.updatedAt, a.task.updatedAt);
    }
  }

  /** Narrowing the rows and then building the board gives, column by column and
      in the same order, what narrowing the full board's cards gives. */
  lemma {:induction false} FilterCommutesWithBoard(clock: Clock, p: Task -> bool, q: Card -> bool, tasks: seq<Task>, c: Column)
    requires TotalPreorder(clock.le) && Agree(clock, p, q)
    ensures ColumnCards(clock, Filter(p, tasks), c) == Filter(q, ColumnCards(clock, tasks, c))
  {
    var cards := Cards(clock, tasks);
    CardsOfFiltered(clock, p, q, tasks);
    FiltersCommute(InColumn(c), q, cards);
    NewestFirstIsPreorder(clock);
    StableSortCommutesWithFilter(NewestFirst(clock), q, Filter(InColumn(c), cards));
  }

  /** The stalled-only board is the stalled part of the full board. */
  lemma {:induction false} StalledBoard(clock: Clock, tasks: seq<Task>, c: Column)
    requires TotalPreorder(clock.le)
    ensures ColumnCards(clock, FilterStalled(clock, tasks), c) == Filter(StalledCard, ColumnCards(clock, tasks, c))
  {
    FilterCommutesWithBoard(clock, (t: Task) => StalledTask(clock, t), StalledCard, tasks, c);
  }

  lemma {:induction false} ProjectBoard(clock: Clock, tasks: seq<Task>, project: string, c: Column)
    requires TotalPreorder(clock.le)
    ensures ColumnCards(clock, FilterByProject(tasks, project), c) ==
            if project == "" then ColumnCards(clock, tasks, c)
            else Filter((card: Card) => card.task.project == project, ColumnCards(clock, tasks, c))
  {
    FilterCommutesWithBoard(clock, (t: Task) => t.project == project, (card: Card) => card.task.project == project, tasks, c);
  }

  // ----- nothing is lost between the columns -----

  function Sizes(clock: Clock, tasks: seq<Task>, columns: seq<Column>, p: Card -> bool): nat {
    if columns == [] then 0
    else Sizes(clock, tasks, columns[..|columns| - 1], p) + |Filter(p, ColumnCards(clock, tasks, columns[|columns| - 1]))|
  }

  function CountIn(cards: seq<Card>, columns: seq<Column>): nat {
    if columns == [] then 0
    else CountIn(cards, columns[..|columns| - 1]) + |Filter(InColumn(columns[|columns| - 1]), cards)|
  }

  lemma {:induction false} FilterLengthByMultiset<T(!new)>(p: T -> bool, xs: seq<T>, ys: seq<T>)
    requires multiset(xs) == multiset(ys)
    ensures |Filter(p, xs)| == |Filter(p, ys)|
  {
    FilterMultiset(p, xs, ys);
    assert |multiset(Filter(p, xs))| == |Filter(p, xs)|;
    assert |multiset(Filter(p, ys))| == |Filter(p, ys)|;
  }

  lemma {:induction false} SizesCount(clock: Clock, tasks: seq<Task>, columns: seq<Column>, p: Card -> bool)
    ensures Sizes(clock, tasks, columns, p) == CountIn(Filter(p, Cards(clock, tasks)), columns)
  {
    if columns != [] {
      var last := columns[|columns| - 1];
      SizesCount(clock, tasks, columns[..|columns| - 1], p);
      var cards := Cards(clock, tasks);
      FilterLengthByMultiset(p, ColumnCards(clock, tasks, last), Filter(InColumn(last), cards));
      FiltersCommute(p, InColumn(last), cards);
    }
  }

  lemma {:induction false} EachInOneColumn(cards: seq<Card>, columns: seq<Column>)
    requires forall i, j :: 0 <= i < j < |columns| ==> columns[i] != columns[j]
    ensures CountIn(cards, columns) == |Filter((c: Card) => c.column in columns, cards)|
  {
    if columns == [] {
      NoneIn(cards);
    } else {
      var front, last := columns[..|columns| - 1], columns[|columns| - 1];
      EachInOneColumn(cards, front);
      assert columns == front + [last];
      SplitCount(cards, front, last);
    }
  }

  lemma {:induction false} NoneIn(cards: seq<Card>)
    ensures Filter((c: Card) => c.column in [], cards) == []
  {
    if cards != [] { NoneIn(cards[1..]); }
  }

  lemma {:induction false} SplitCount(cards: seq<Card>, front: seq<Column>, last: Column)
    requires last !in front
    ensures |Filter((c: Card) => c.column in front + [last], cards)|
            == |Filter((c: Card) => c.column in front, cards)| + |Filter(InColumn(last), cards)|
  {
    if cards != [] { SplitCount(cards[1..], front, last); }
  }

  lemma {:induction false} SixColumns()
    ensures forall i, j :: 0 <= i < j < |COLUMNS| ==> COLUMNS[i] != COLUMNS[j]
  {
    assert COLUMNS[0] == Inbox && COLUMNS[1] == Assigned && COLUMNS[2] == InProgress
        && COLUMNS[3] == Review && COLUMNS[4] == Finished && COLUMNS[5] == Stuck;
  }

  /** Over the six columns every card is counted exactly once. */
  lemma {:induction false} ColumnsPartition(clock: Clock, tasks: seq<Task>, p: Card -> bool)
    ensures Sizes(clock, tasks, COLUMNS, p) == |Filter(p, Cards(clock, tasks))|
  {
    var picked := Filter(p, Cards(clock, tasks));
    SizesCount(clock, tasks, COLUMNS, p);
    SixColumns();
    EachInOneColumn(picked, COLUMNS);
    EveryColumn();
    FilterAll((c: Card) => c.column in COLUMNS, picked);
  }

  lemma {:induction false} StalledInIsSizes(clock: Clock, tasks: seq<Task>, board: map<Column, seq<Card>>, columns: seq<Column>)
    requires forall c :: c in board && board[c] == ColumnCards(clock, tasks, c)
    ensures StalledIn(board, columns) == Sizes(clock, tasks, columns, StalledCard)
  {
    if columns != [] { StalledInIsSizes(clock, tasks, board, columns[..|columns| - 1]); }
  }

  /** The two boards of one set of rows: the stalled-only board's total is the
      full board's `stalled`, each of its columns the stalled part of the same
      column in the same order, and the counts of either add up to its total. */
  method BothBoards(clock: Clock, tasks: seq<Task>) returns (all: Board, stalled: Board)
    requires TotalPreorder(clock.le)
    ensures forall c :: c in all.columns && c in stalled.columns && stalled.columns[c] == Filter(StalledCard, all.columns[c])
    ensures stalled.total == all.stalled == stalled.stalled
    ensures forall c :: c in all.counts && all.counts[c] == |all.columns[c]|
    ensures all.total == Sizes(clock, tasks, COLUMNS, (c: Card) => true)
  {
    all := BuildBoard(clock, tasks);
    stalled := BuildBoard(clock, FilterStalled(clock, tasks));
    forall c ensures ColumnCards(clock, FilterStalled(clock, tasks), c) == Filter(StalledCard, ColumnCards(clock, tasks, c)) {
      StalledBoard(clock, tasks, c);
    }
    CardsOfFiltered(clock, (t: Task) => StalledTask(clock, t), StalledCard, tasks);
    StalledInIsSizes(clock, tasks, all.columns, COLUMNS);
    ColumnsPartition(clock, tasks, StalledCard);
    StalledInIsSizes(clock, FilterStalled(clock, tasks), stalled.columns, COLUMNS);
    ColumnsPartition(clock, FilterStalled(clock, tasks), StalledCard);
    FilterMembers(StalledCard, Cards(clock, tasks));
    FilterAll(StalledCard, Cards(clock, FilterStalled(clock, tasks)));
    ColumnsPartition(clock, tasks, (c: Card) => true);
    FilterAll((c: Card) => true, Cards(clock, tasks));
  }
}
