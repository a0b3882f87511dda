/** The fixed-window login throttle `tooMany` of control-plane/api/session.mjs.
    Attempts arrive in time order; each names its client. */
module LoginThrottle {
  import opened Collections

  const WINDOW_MS := 60_000
  const MAX_ATTEMPTS := 8

  type Client = string

  datatype Window = Window(start: int, count: nat)
  datatype Attempt = Attempt(client: Client, at: int)

  /** What one attempt does to its own client's record. */
  function Count(record: Option<Window>, now: int): Window {
    if record.None? || now - record.value.start > WINDOW_MS then Window(now, 1)
    else Window(record.value.start, record.value.count + 1)
  }

  predicate Refused(record: Option<Window>, now: int) {
    !(record.None? || now - record.value.start > WINDOW_MS) && record.value.count + 1 > MAX_ATTEMPTS
  }

  class Limiter {
    var attempts: map<Client, Window>

    constructor ()
      ensures attempts == map[]
    {
      attempts := map[];
    }

    function Record(key: Client): Option<Window>
      reads this
    {
      if key in attempts then Some(attempts[key]) else None
    }

    /** tooMany: answers for this client from this client's record alone, and
        touches no other. */
    method TooMany(key: Client, now: int) returns (refused: bool)
      modifies this
      ensures refused <==> Refused(old(Record(key)), now)
      ensures attempts == old(attempts)[key := Count(old(Record(key)), now)]
    {
      if key !in attempts || now - attempts[key].start > WINDOW_MS {
        attempts := attempts[key := Window(now, 1)];
        return false;
      }
      attempts := attempts[key := attempts[key].(count := attempts[key].count + 1)];
      return attempts[key].count > MAX_ATTEMPTS;
    }
  }

  // ----- whole histories -----

  ghost predicate InOrder(history: seq<Attempt>) {
    forall i, j :: 0 <= i < j < |history| ==> history[i].at <= history[j].at
  }

  /** The client's record after a history. */
  function RecordAfter(history: seq<Attempt>, key: Client): Option<Window> {
    if history == [] then None
    else
      var last := history[|history| - 1];
      var before := RecordAfter(history[..|history| - 1], key);
      if last.client == key then Some(Count(before, last.at)) else before
  }

  predicate Admitted(history: seq<Attempt>, i: nat)
    requires i < |history|
  {
    !Refused(RecordAfter(history[..i], history[i].client), history[i].at)
  }

  /** The limiter run over a history answers each attempt as `Admitted` says. */
  method Serve(history: seq<Attempt>) returns (admitted: seq<bool>)
    ensures |admitted| == |history|
    ensures forall i :: 0 <= i < |history| ==> admitted[i] == Admitted(history, i)
  {
    var limiter := new Limiter();
    admitted := [];
    for i := 0 to |history|
      invariant |admitted| == i
      invariant forall k :: limiter.Record(k) == RecordAfter(history[..i], k)
      invariant forall j :: 0 <= j < i ==> admitted[j] == Admitted(history, j)
    {
      assert history[..i + 1][..i] == history[..i];
      var refused := limiter.TooMany(history[i].client, history[i].at);
      admitted := admitted + [!refused];
    }
  }

  /** One client's answers do not depend on anybody else's attempts. */
  lemma {:induction false} ClientsAreIndependent(history: seq<Attempt>, key: Client)
    ensures RecordAfter(history, key) == RecordAfter(Filter(Mine(key), history), key)
  {
    var own := Mine(key);
    if history != [] {
      var front, last := history[..|history| - 1], history[|history| - 1];
      ClientsAreIndependent(front, key);
      assert history == front + [last];
      FilterAppend(own, front, [last]);
      assert [last][1..] == [];
      var mine := Filter(own, front);
      if last.client == key {
        assert Filter(own, history) == mine + [last];
        assert (mine + [last])[..|mine|] == mine;
      } else {
        assert Filter(own, history) == mine + [];
        assert mine + [] == mine;
      }
    }
  }

  /** An attempt more than the window after the window's start is admitted. */
  lemma {:induction false} LateAttemptsAreAdmitted(history: seq<Attempt>, i: nat)
    requires i < |history|
    requires var r := RecordAfter(history[..i], history[i].client); r.Some? ==> history[i].at - r.value.start > WINDOW_MS
    ensures Admitted(history, i)
    ensures RecordAfter(history[..i + 1], history[i].client) == Some(Window(history[i].at, 1))
  {
    assert history[..i + 1][..i] == history[..i];
  }

  /** The i-th attempt opens a window of its client. */
  predicate Opens(history: seq<Attempt>, i: nat)
    requires i < |history|
  {
    var r := RecordAfter(history[..i], history[i].client);
    r.None? || history[i].at - r.value.start > WINDOW_MS
  }

  function Mine(key: Client): Attempt -> bool {
    (a: Attempt) => a.client == key
  }

  /** The j-th attempt opened the window its client is still in at the end. */
  ghost predicate OpenedCurrent(history: seq<Attempt>, key: Client, j: nat) {
    && j < |history| && history[j].client == key && Opens(history, j)
    && forall k :: j < k < |history| && history[k].client == key ==> !Opens(history, k)
  }

  /** The record says when the current window opened and how many attempts of
      the client there were since, counting that one. */
  lemma {:induction false} RecordIsWindow(history: seq<Attempt>, key: Client) returns (j: nat)
    requires RecordAfter(history, key).Some?
    ensures OpenedCurrent(history, key, j)
    ensures RecordAfter(history, key) == Some(Window(history[j].at, |Filter(Mine(key), history[j..])|))
  {
    var n := |history| - 1;
    var front := history[..n];
    forall k | 0 <= k < n ensures Opens(history, k) == Opens(front, k) { assert front[..k] == history[..k]; }
    if history[n].client == key && Opens(history, n) {
      j := n;
      MineSince(history, key, n);
    } else {
      j := RecordIsWindow(front, key);
      MineSince(history, key, j);
    }
  }

  lemma {:induction false} MineSince(history: seq<Attempt>, key: Client, j: nat)
    requires j < |history|
    ensures var n := |history| - 1;
            |Filter(Mine(key), history[j..])| ==
            (if j < n then |Filter(Mine(key), history[..n][j..])| else 0) + (if history[n].client == key then 1 else 0)
  {
    var n := |history| - 1;
    var before, last := history[..n][j..], history[n];
    assert history[j..] == before + [last];
    FilterAppend(Mine(key), before, [last]);
    assert [last][1..] == [];
    assert |Filter(Mine(key), [last])| == if last.client == key then 1 else 0;
    if j == n { assert before == []; }
  }

  /** Exactly when an attempt is refused, told from the history alone: it falls
      within the length of its client's current window, in which the client has
      already tried MAX_ATTEMPTS times or more. */
  lemma {:induction false} RefusedExactly(history: seq<Attempt>, i: nat)
    requires i < |history|
    ensures !Admitted(history, i) <==>
            exists j :: 0 <= j < i && OpenedCurrent(history[..i], history[i].client, j)
                     && history[i].at - history[j].at <= WINDOW_MS
                     && |Filter(Mine(history[i].client), history[j..i])| >= MAX_ATTEMPTS
  {
    var past, key := history[..i], history[i].client;
    if RecordAfter(past, key).Some? {
      var j := RecordIsWindow(past, key);
      assert past[j..] == history[j..i];
      forall k | 0 <= k < i && OpenedCurrent(past, key, k) ensures k == j {
      }
    } else {
      NeverTried(past, key);
    }
  }

  lemma {:induction false} NeverTried(history: seq<Attempt>, key: Client)
    requires RecordAfter(history, key).None?
    ensures forall i :: 0 <= i < |history| ==> history[i].client != key
  {
    if history != [] { NeverTried(history[..|history| - 1], key); }
  }

  // ----- the bound -----

  /** Attempts of one client admitted at or after `from`, along the history. */
  function AdmittedSince(history: seq<Attempt>, key: Client, from: int): nat {
    if history == [] then 0
    else
      var n := |history| - 1;
      AdmittedSince(history[..n], key, from)
      + (if history[n].client == key && history[n].at >= from && Admitted(history, n) then 1 else 0)
  }

  function Least(a: nat, b: nat): nat { if a < b then a else b }

  lemma {:induction false} StartInHistory(history: seq<Attempt>, key: Client)
    requires RecordAfter(history, key).Some?
    ensures exists i :: 0 <= i < |history| && history[i].at == RecordAfter(history, key).value.start
    decreases |history|
  {
    var n := |history| - 1;
    var before := RecordAfter(history[..n], key);
    if history[n].client == key && RecordAfter(history, key).value.start == history[n].at {
    } else {
      StartInHistory(history[..n], key);
      var i :| 0 <= i < n && history[..n][i].at == before.value.start;
      assert history[i].at == before.value.start;
    }
  }

  lemma {:induction false} NoneYet(history: seq<Attempt>, key: Client, from: int)
    requires forall i :: 0 <= i < |history| ==> history[i].at < from
    ensures AdmittedSince(history, key, from) == 0 && Opened(history, key, from) == 0
    decreases |history|
  {
    if history != [] { NoneYet(history[..|history| - 1], key, from); }
  }

  /** The bound for an interval of any length, ends included, over the history
      up to its end: each further window that can open inside it adds
      MAX_ATTEMPTS. */
  lemma {:induction false} AnyLength(history: seq<Attempt>, key: Client, from: int, windows: nat)
    requires InOrder(history)
    requires forall i :: 0 <= i < |history| ==> history[i].at <= from + (windows + 1) * (WINDOW_MS + 1) - 1
    ensures AdmittedSince(history, key, from) <= (windows + 2) * MAX_ATTEMPTS - 1
    decreases windows
  {
    AnyLengthHolds(history, key, from);
    if RecordAfter(history, key).Some? {
      StartInHistory(history, key);
      WindowsOpened(history, key, from, windows);
    }
  }

  /** In any interval of length WINDOW_MS, ends included, a client is admitted
      at most 2 * MAX_ATTEMPTS - 1 times: fifteen, one less than two full
      windows, because the older window's first attempt lies before it. */
  lemma {:induction false} AtMostFifteen(history: seq<Attempt>, key: Client, from: int)
    requires InOrder(history)
    requires forall i :: 0 <= i < |history| ==> history[i].at <= from + WINDOW_MS
    ensures AdmittedSince(history, key, from) <= 2 * MAX_ATTEMPTS - 1
  {
    AnyLength(history, key, from, 0);
  }

  /** How many windows have opened at or after `from`. */
  function Opened(history: seq<Attempt>, key: Client, from: int): nat {
    if history == [] then 0
    else
      var n := |history| - 1;
      var r := RecordAfter(history[..n], key);
      Opened(history[..n], key, from)
      + (if history[n].client == key && history[n].at >= from && (r.None? || history[n].at - r.value.start > WINDOW_MS) then 1 else 0)
  }

  /** The invariant behind the bound: a window open since before `from` does not
      count its own first attempt, and each one opened since adds at most
      MAX_ATTEMPTS. */
  lemma {:induction false} AnyLengthHolds(history: seq<Attempt>, key: Client, from: int)
    requires InOrder(history)
    ensures var r := RecordAfter(history, key);
            var n := AdmittedSince(history, key, from);
            && (r.None? ==> n == 0 && Opened(history, key, from) == 0)
            && (r.Some? ==> r.value.count >= 1)
            && (r.Some? && r.value.start < from ==> n <= Least(r.value.count, MAX_ATTEMPTS) - 1 && Opened(history, key, from) == 0)
            && (r.Some? && r.value.start >= from ==>
                  Opened(history, key, from) >= 1
                  && n <= Opened(history, key, from) * MAX_ATTEMPTS - 1 + Least(r.value.count, MAX_ATTEMPTS))
    decreases |history|
  {
    if history != [] {
      var n := |history| - 1;
      AnyLengthHolds(history[..n], key, from);
      if history[n].at < from { NoneYet(history[..n], key, from); }
      if RecordAfter(history[..n], key).Some? { StartInHistory(history[..n], key); }
    }
  }

  /** The k-th window to open lies at least k - 1 windows after `from`. */
  lemma {:induction false} WindowsOpened(history: seq<Attempt>, key: Client, from: int, windows: nat)
    requires InOrder(history) && RecordAfter(history, key).Some?
    requires forall i :: 0 <= i < |history| ==> history[i].at <= from + (windows + 1) * (WINDOW_MS + 1) - 1
    ensures Opened(history, key, from) <= windows + 1
  {
    OpenedSpread(history, key, from);
    StartInHistory(history, key);
  }

  lemma {:induction false} OpenedSpread(history: seq<Attempt>, key: Client, from: int)
    requires InOrder(history)
    ensures var r := RecordAfter(history, key);
            var k := Opened(history, key, from);
            && (r.None? ==> k == 0)
            && (r.Some? && k > 0 ==> r.value.start >= from + (k - 1) * (WINDOW_MS + 1))
    decreases |history|
  {
    if history != [] {
      OpenedSpread(history[..|history| - 1], key, from);
    }
  }

  // ----- both bounds are reached -----

  /** `n` attempts of one client at the same instant. */
  function Burst(key: Client, at: int, n: nat): (b: seq<Attempt>)
    ensures |b| == n && forall i :: 0 <= i < n ==> b[i] == Attempt(key, at)
  {
    seq(n, _ => Attempt(key, at))
  }

  lemma {:induction false} BurstRun(history: seq<Attempt>, key: Client, at: int, n: nat, from: int)
    requires var r := RecordAfter(history, key); r.Some? && 0 <= at - r.value.start <= WINDOW_MS && r.value.count + n <= MAX_ATTEMPTS
    requires at >= from
    ensures var h := history + Burst(key, at, n);
            && RecordAfter(h, key) == Some(Window(RecordAfter(history, key).value.start, RecordAfter(history, key).value.count + n))
            && AdmittedSince(h, key, from) == AdmittedSince(history, key, from) + n
    decreases n
  {
    if n == 0 {
      assert history + Burst(key, at, 0) == history;
    } else {
      BurstRun(history, key, at, n - 1, from);
      var shorter := history + Burst(key, at, n - 1);
      var h := history + Burst(key, at, n);
      assert h == shorter + [Attempt(key, at)];
      assert h[..|h| - 1] == shorter;
    }
  }

  lemma {:induction false} OpenRun(history: seq<Attempt>, key: Client, at: int, from: int)
    requires var r := RecordAfter(history, key); r.None? || at - r.value.start > WINDOW_MS
    ensures var h := history + [Attempt(key, at)];
            && RecordAfter(h, key) == Some(Window(at, 1))
            && AdmittedSince(h, key, from) == AdmittedSince(history, key, from) + (if at >= from then 1 else 0)
  {
    var h := history + [Attempt(key, at)];
    assert h[..|h| - 1] == history;
  }

  /** One attempt at 0, seven at the end of that window, then a full window one
      millisecond later: eight then eight. */
  function Schedule(key: Client): seq<Attempt> {
    [] + [Attempt(key, 0)] + Burst(key, WINDOW_MS, MAX_ATTEMPTS - 1) + [Attempt(key, WINDOW_MS + 1)] + Burst(key, WINDOW_MS + 1, MAX_ATTEMPTS - 1)
  }

  lemma {:induction false} ScheduleAdmits(key: Client, from: int)
    requires from <= WINDOW_MS
    ensures AdmittedSince(Schedule(key), key, from) == 2 * MAX_ATTEMPTS - (if from > 0 then 1 else 0)
    ensures InOrder(Schedule(key))
  {
    ScheduleInOrder(key);
    FirstWindow(key, from);
    SecondWindow(UpToTheEnd(key), key, from);
  }

  function UpToTheEnd(key: Client): seq<Attempt> {
    [] + [Attempt(key, 0)] + Burst(key, WINDOW_MS, MAX_ATTEMPTS - 1)
  }

  lemma {:induction false} FirstWindow(key: Client, from: int)
    requires from <= WINDOW_MS
    ensures AdmittedSince(UpToTheEnd(key), key, from) == MAX_ATTEMPTS - (if from > 0 then 1 else 0)
    ensures RecordAfter(UpToTheEnd(key), key) == Some(Window(0, MAX_ATTEMPTS))
  {
    OpenRun([], key, 0, from);
    BurstRun([] + [Attempt(key, 0)], key, WINDOW_MS, MAX_ATTEMPTS - 1, from);
  }

  lemma {:induction false} SecondWindow(history: seq<Attempt>, key: Client, from: int)
    requires RecordAfter(history, key) == Some(Window(0, MAX_ATTEMPTS)) && from <= WINDOW_MS
    ensures var h := history + [Attempt(key, WINDOW_MS + 1)] + Burst(key, WINDOW_MS + 1, MAX_ATTEMPTS - 1);
            AdmittedSince(h, key, from) == AdmittedSince(history, key, from) + MAX_ATTEMPTS
  {
    OpenRun(history, key, WINDOW_MS + 1, from);
    BurstRun(history + [Attempt(key, WINDOW_MS + 1)], key, WINDOW_MS + 1, MAX_ATTEMPTS - 1, from);
  }

  lemma {:induction false} ScheduleInOrder(key: Client)
    ensures InOrder(Schedule(key))
  {
  }

  /** Fifteen admissions do fall within one window's length, all of them in
      [1, WINDOW_MS + 1]; the sixteenth needs one millisecond more. */
  lemma {:induction false} BoundsAreReached(key: Client)
    ensures InOrder(Schedule(key)) && forall i :: 0 <= i < |Schedule(key)| ==> Schedule(key)[i].at <= WINDOW_MS + 1
    ensures AdmittedSince(Schedule(key), key, 1) == 2 * MAX_ATTEMPTS - 1
    ensures AdmittedSince(Schedule(key), key, 0) == 2 * MAX_ATTEMPTS
  {
    ScheduleAdmits(key, 1);
    ScheduleAdmits(key, 0);
  }
}
