/** The bounded worker pool of scripts/factory-run-many.mjs.

    A lane of the pool is an async function, so between two awaits it runs
    alone: one step of the machine is "the awaited worker call of this lane has
    settled; write its entry, take the next index, start the next call".
    A schedule is any order in which the awaited calls settle. */
module WorkerPool {
  import opened Collections

  /** What one call of the worker comes to, whatever else is in flight; a run's
      calls are a sequence of these, one per item. `Threw` is a worker that throws
      before it returns a promise: `.catch` is then never attached. A rejection
      with null or undefined makes the handler itself throw, reading its message. */
  datatype Settlement<+R> =
    | Fulfilled(value: R)
    | Rejected(message: string)
    | RejectedNothing(message: string)
    | Threw(message: string)

  /** What the pool does not contain: it takes the lane down. */
  predicate Escapes<R>(s: Settlement<R>) { s.Threw? || s.RejectedNothing? }

  /** One slot of the results array, once written. */
  datatype Entry<+R> = Done(value: R) | Failed(error: string)

  datatype Lane = InFlight(index: nat) | Returned | Crashed(error: string)

  datatype Start = Start(index: nat, lane: nat)

  /** `next` counts past the end: every lane that finds no work still takes a number. */
  datatype Pool<R> = Pool(next: nat, lanes: seq<Lane>, results: seq<Option<Entry<R>>>, started: seq<Start>)

  /** A JavaScript number as far as a lane count goes; one past every list stands for infinity. */
  datatype Size = NotANumber | Count(n: real)

  function Contained<R>(s: Settlement<R>): Entry<R>
    requires !Escapes(s)
  {
    match s case Fulfilled(v) => Done(v) case Rejected(m) => Failed(m)
  }

  /** The reference: the items one after the other, each error kept at its place. */
  function SequentialMap<R>(calls: seq<Settlement<R>>): (r: seq<Entry<R>>)
    requires forall i :: 0 <= i < |calls| ==> !Escapes(calls[i])
    ensures |r| == |calls|
    ensures forall i :: 0 <= i < |calls| ==> r[i] == Contained(calls[i])
  {
    if calls == [] then [] else [Contained(calls[0])] + SequentialMap(calls[1..])
  }

  /** Array.from({ length: Math.min(size, items.length) }): as many whole lanes
      as fit below both numbers, and none for a size that is not a number. */
  function LaneCount(size: Size, n: nat): (k: nat)
    ensures k <= n && (k > 0 ==> size.Count? && k as real <= size.n)
    ensures size.Count? && k < n ==> size.n < k as real + 1.0
  {
    match size
    case NotANumber => 0
    case Count(k) => if k <= 0.0 then 0 else if k < n as real then k.Floor else n
  }

  // ----- the steps -----

  function Claim<R>(calls: seq<Settlement<R>>, p: Pool<R>, lane: nat): Pool<R>
    requires lane < |p.lanes|
  {
    var i := p.next;
    if i >= |calls| then
      p.(next := i + 1, lanes := p.lanes[lane := Returned])
    else
      var now := if calls[i].Threw? then Crashed(calls[i].message) else InFlight(i);
      p.(next := i + 1, lanes := p.lanes[lane := now], started := p.started + [Start(i, lane)])
  }

  function Resume<R>(calls: seq<Settlement<R>>, p: Pool<R>, lane: nat): Pool<R>
    requires lane < |p.lanes| && p.lanes[lane].InFlight?
    requires p.lanes[lane].index < |p.results| == |calls|
    requires !calls[p.lanes[lane].index].Threw?
  {
    var i := p.lanes[lane].index;
    if Escapes(calls[i]) then p.(lanes := p.lanes[lane := Crashed(calls[i].message)])
    else Claim(calls, p.(results := p.results[i := Some(Contained(calls[i]))]), lane)
  }

  function AddLane<R>(calls: seq<Settlement<R>>, p: Pool<R>): Pool<R> {
    Claim(calls, p.(lanes := p.lanes + [Returned]), |p.lanes|)
  }

  function Empty<R>(n: nat): Pool<R> {
    Pool(0, [], seq(n, _ => None), [])
  }

  function Launch<R>(calls: seq<Settlement<R>>, k: nat): Pool<R> {
    if k == 0 then Empty(|calls|) else AddLane(calls, Launch(calls, k - 1))
  }

  // ----- what every interleaving keeps -----

  /** Indices are handed out once each, in order. */
  ghost predicate StartedOnce<R>(calls: seq<Settlement<R>>, p: Pool<R>) {
    && |p.started| == (if p.next < |calls| then p.next else |calls|)
    && forall i :: 0 <= i < |p.started| ==> p.started[i].index == i && p.started[i].lane < |p.lanes|
  }

  /** While an item is unclaimed, no lane is idle. */
  ghost predicate Saturated<R>(calls: seq<Settlement<R>>, p: Pool<R>) {
    forall l :: 0 <= l < |p.lanes| && p.lanes[l].Returned? ==> p.next > |calls|
  }

  /** A claimed item is written, or in flight on the lane that claimed it, or
      that lane is the one it brought down. */
  ghost predicate Accounted<R>(calls: seq<Settlement<R>>, p: Pool<R>)
    requires StartedOnce(calls, p) && |p.results| == |calls|
  {
    && (forall i :: 0 <= i < |p.started| ==>
          || (p.results[i].Some? && !Escapes(calls[i]))
          || (p.results[i].None? && !calls[i].Threw? && p.lanes[p.started[i].lane] == InFlight(i))
          || (p.results[i].None? && Escapes(calls[i]) && p.lanes[p.started[i].lane] == Crashed(calls[i].message)))
    && (forall i :: |p.started| <= i < |calls| ==> p.results[i].None?)
  }

  ghost predicate LanesHonest<R>(calls: seq<Settlement<R>>, p: Pool<R>)
    requires StartedOnce(calls, p) && |p.results| == |calls|
  {
    && (forall l :: 0 <= l < |p.lanes| && p.lanes[l].InFlight? ==>
          var i := p.lanes[l].index;
          i < |p.started| && p.started[i].lane == l && p.results[i].None? && !calls[i].Threw?)
    && (forall l :: 0 <= l < |p.lanes| && p.lanes[l].Crashed? ==>
          exists i :: 0 <= i < |p.started| && Escapes(calls[i]) && calls[i].message == p.lanes[l].error)
  }

  /** Nothing but the call's own outcome is ever written at its index. */
  ghost predicate OwnOutcome<R>(calls: seq<Settlement<R>>, p: Pool<R>) {
    && |p.results| == |calls|
    && forall i :: 0 <= i < |calls| && p.results[i].Some? ==>
         !Escapes(calls[i]) && p.results[i].value == Contained(calls[i])
  }

  ghost predicate Inv<R>(calls: seq<Settlement<R>>, p: Pool<R>) {
    OwnOutcome(calls, p) && StartedOnce(calls, p) && Saturated(calls, p) && Accounted(calls, p) && LanesHonest(calls, p)
  }

  /** Everything but the one lane that is about to claim. */
  ghost predicate InvBut<R>(calls: seq<Settlement<R>>, p: Pool<R>, lane: nat) {
    && lane < |p.lanes|
    && OwnOutcome(calls, p) && StartedOnce(calls, p)
    && (forall l :: 0 <= l < |p.lanes| && l != lane && p.lanes[l].Returned? ==> p.next > |calls|)
    && (forall i :: 0 <= i < |p.started| ==>
          || (p.results[i].Some? && !Escapes(calls[i]))
          || (p.started[i].lane != lane && p.results[i].None? && !calls[i].Threw? && p.lanes[p.started[i].lane] == InFlight(i))
          || (p.started[i].lane != lane && p.results[i].None? && Escapes(calls[i]) && p.lanes[p.started[i].lane] == Crashed(calls[i].message)))
    && (forall i :: |p.started| <= i < |calls| ==> p.results[i].None?)
    && (forall l :: 0 <= l < |p.lanes| && l != lane && p.lanes[l].InFlight? ==>
          var i := p.lanes[l].index;
          i < |p.started| && p.started[i].lane == l && p.results[i].None? && !calls[i].Threw?)
    && (forall l :: 0 <= l < |p.lanes| && l != lane && p.lanes[l].Crashed? ==>
          exists i :: 0 <= i < |p.started| && Escapes(calls[i]) && calls[i].message == p.lanes[l].error)
  }

  lemma {:induction false} ClaimKeeps<R>(calls: seq<Settlement<R>>, p: Pool<R>, lane: nat)
    requires InvBut(calls, p, lane)
    ensures Inv(calls, Claim(calls, p, lane))
  {
    var q := Claim(calls, p, lane);
    assert StartedOnce(calls, q);
    assert Saturated(calls, q);
    assert Accounted(calls, q);
    forall l | 0 <= l < |q.lanes| && q.lanes[l].Crashed?
      ensures exists i :: 0 <= i < |q.started| && Escapes(calls[i]) && calls[i].message == q.lanes[l].error
    {
      if l == lane {
        assert Escapes(calls[p.next]) && calls[p.next].message == q.lanes[l].error;
      } else {
        var i :| 0 <= i < |p.started| && Escapes(calls[i]) && calls[i].message == p.lanes[l].error;
        assert i < |q.started|;
      }
    }
  }

  lemma {:induction false} ResumeKeeps<R>(calls: seq<Settlement<R>>, p: Pool<R>, lane: nat)
    requires Inv(calls, p) && lane < |p.lanes| && p.lanes[lane].InFlight?
    ensures Inv(calls, Resume(calls, p, lane))
    ensures Holes(Resume(calls, p, lane).results) == Holes(p.results) - if Escapes(calls[p.lanes[lane].index]) then 0 else 1
    ensures Escapes(calls[p.lanes[lane].index]) ==> Resume(calls, p, lane).lanes[lane].Crashed?
  {
    var i := p.lanes[lane].index;
    if Escapes(calls[i]) {
      CrashKeeps(calls, p, lane);
    } else {
      var q := p.(results := p.results[i := Some(Contained(calls[i]))]);
      assert InvBut(calls, q, lane);
      ClaimKeeps(calls, q, lane);
      FillingAHole(p.results, i, Contained(calls[i]));
    }
  }

  lemma {:induction false} CrashKeeps<R>(calls: seq<Settlement<R>>, p: Pool<R>, lane: nat)
    requires Inv(calls, p) && lane < |p.lanes| && p.lanes[lane].InFlight? && Escapes(calls[p.lanes[lane].index])
    ensures Inv(calls, p.(lanes := p.lanes[lane := Crashed(calls[p.lanes[lane].index].message)]))
  {
    var i := p.lanes[lane].index;
    var q := p.(lanes := p.lanes[lane := Crashed(calls[i].message)]);
    assert forall j :: 0 <= j < |p.started| && p.started[j].lane == lane && p.results[j].None? && p.lanes[lane] == InFlight(j) ==> j == i;
    forall l | 0 <= l < |q.lanes| && q.lanes[l].Crashed?
      ensures exists j :: 0 <= j < |q.started| && Escapes(calls[j]) && calls[j].message == q.lanes[l].error
    {
      if l == lane {
        assert i < |q.started|;
      } else {
        assert p.lanes[l].Crashed?;
      }
    }
  }

  lemma {:induction false} OpeningALane<R>(calls: seq<Settlement<R>>, p: Pool<R>)
    requires Inv(calls, p)
    ensures InvBut(calls, p.(lanes := p.lanes + [Returned]), |p.lanes|)
  {
    var q := p.(lanes := p.lanes + [Returned]);
    assert forall l :: 0 <= l < |p.lanes| ==> q.lanes[l] == p.lanes[l];
    assert forall i :: 0 <= i < |p.started| ==> p.started[i].lane < |p.lanes|;
  }

  lemma {:induction false} AddLaneKeeps<R>(calls: seq<Settlement<R>>, p: Pool<R>)
    requires Inv(calls, p)
    ensures Inv(calls, AddLane(calls, p)) && |AddLane(calls, p).lanes| == |p.lanes| + 1
  {
    OpeningALane(calls, p);
    ClaimKeeps(calls, p.(lanes := p.lanes + [Returned]), |p.lanes|);
  }

  lemma {:induction false} LaunchKeeps<R>(calls: seq<Settlement<R>>, k: nat)
    ensures forall p :: p == Launch(calls, k) ==> Inv(calls, p) && |p.lanes| == k
  {
    if k == 0 {
      assert Inv(calls, Empty<R>(|calls|));
    } else {
      LaunchKeeps(calls, k - 1);
      AddLaneKeeps(calls, Launch(calls, k - 1));
    }
  }

  // ----- every schedule -----

  /** A schedule names, step by step, the lane whose awaited call settles next. */
  ghost predicate Follows<R>(calls: seq<Settlement<R>>, p: Pool<R>, schedule: seq<nat>)
    decreases |schedule|
  {
    schedule == [] ||
    (var l := schedule[0];
     && l < |p.lanes| && p.lanes[l].InFlight?
     && p.lanes[l].index < |p.results| == |calls| && !calls[p.lanes[l].index].Threw?
     && Follows(calls, Resume(calls, p, l), schedule[1..]))
  }

  ghost function After<R>(calls: seq<Settlement<R>>, p: Pool<R>, schedule: seq<nat>): Pool<R>
    requires Follows(calls, p, schedule)
    decreases |schedule|
  {
    if schedule == [] then p else After(calls, Resume(calls, p, schedule[0]), schedule[1..])
  }

  ghost predicate Settled<R>(p: Pool<R>) {
    forall l :: 0 <= l < |p.lanes| ==> !p.lanes[l].InFlight?
  }

  lemma {:induction false} EveryMoment<R>(calls: seq<Settlement<R>>, p: Pool<R>, schedule: seq<nat>)
    requires Inv(calls, p) && Follows(calls, p, schedule)
    ensures forall q :: q == After(calls, p, schedule) ==> Inv(calls, q) && |q.lanes| == |p.lanes|
    decreases |schedule|
  {
    if schedule != [] {
      ResumeKeeps(calls, p, schedule[0]);
      EveryMoment(calls, Resume(calls, p, schedule[0]), schedule[1..]);
    }
  }

  function Busy<R>(p: Pool<R>): set<nat> {
    set l: nat | l < |p.lanes| && p.lanes[l].InFlight?
  }

  lemma {:induction false} BusyLanes(lanes: set<nat>, n: nat)
    requires forall l :: l in lanes ==> l < n
    ensures |lanes| <= n
  {
    if n > 0 {
      assert |lanes| <= |lanes - {n - 1}| + 1;
      BusyLanes(lanes - {n - 1}, n - 1);
    }
  }

  /** At every moment of every interleaving: no index is started twice; there are
      as many lanes as fit below both the size and the number of items, so that
      many calls are in flight at most, each on an index of its own; while an
      item is unclaimed every lane is busy or was brought down; and whatever is
      written at an index is that call's own outcome. */
  lemma {:induction false} EveryInterleaving<R>(calls: seq<Settlement<R>>, size: Size, schedule: seq<nat>)
    requires Follows(calls, Launch(calls, LaneCount(size, |calls|)), schedule)
    ensures forall q :: q == After(calls, Launch(calls, LaneCount(size, |calls|)), schedule) ==>
            && Inv(calls, q)
            && (forall i, j :: 0 <= i < j < |q.started| ==> q.started[i].index != q.started[j].index)
            && |Busy(q)| <= |q.lanes| <= |calls|
            && (q.lanes != [] ==> size.Count? && |Busy(q)| as real <= |q.lanes| as real <= size.n)
            && (size.Count? ==> |q.lanes| == |calls| || size.n < |q.lanes| as real + 1.0)
            && (forall l, m :: 0 <= l < m < |q.lanes| && q.lanes[l].InFlight? && q.lanes[m].InFlight? ==>
                  q.lanes[l].index != q.lanes[m].index)
            && (q.next < |calls| ==> forall l :: 0 <= l < |q.lanes| ==> q.lanes[l].InFlight? || q.lanes[l].Crashed?)
            && (forall i :: 0 <= i < |calls| && q.results[i].Some? ==> !Escapes(calls[i]) && q.results[i].value == Contained(calls[i]))
  {
    LaunchKeeps(calls, LaneCount(size, |calls|));
    EveryMoment(calls, Launch(calls, LaneCount(size, |calls|)), schedule);
    var q := After(calls, Launch(calls, LaneCount(size, |calls|)), schedule);
    BusyLanes(Busy(q), |q.lanes|);
  }

  ghost predicate NoneEscapes<R>(calls: seq<Settlement<R>>) {
    forall i :: 0 <= i < |calls| ==> !Escapes(calls[i])
  }

  ghost predicate NoneCrashed<R>(p: Pool<R>) {
    forall l :: 0 <= l < |p.lanes| ==> !p.lanes[l].Crashed?
  }

  /** When nothing is in flight any more, the pool's promise fulfils (no lane
      crashed) exactly when no worker call escapes containment, or the pool
      never had a lane; and with a lane, what it fulfils with is
      the sequential map. */
  lemma {:induction false} SettledPool<R>(calls: seq<Settlement<R>>, p: Pool<R>)
    requires Inv(calls, p) && Settled(p)
    ensures NoneCrashed(p) <==> (NoneEscapes(calls) || |p.lanes| == 0)
    ensures NoneCrashed(p) && |p.lanes| > 0 ==>
              && |p.started| == |calls|
              && forall i :: 0 <= i < |calls| ==> p.results[i] == Some(SequentialMap(calls)[i])
  {
    if |p.lanes| > 0 {
      if NoneCrashed(p) {
        assert p.lanes[0].Returned?;
        forall i | 0 <= i < |calls| ensures p.results[i].Some? && !Escapes(calls[i]) {
          assert i < |p.started|;
          var l := p.started[i].lane;
          assert !p.lanes[l].InFlight? && !p.lanes[l].Crashed?;
        }
      } else {
        var l :| 0 <= l < |p.lanes| && p.lanes[l].Crashed?;
        assert exists i :: 0 <= i < |p.started| && Escapes(calls[i]) && calls[i].message == p.lanes[l].error;
      }
    }
  }

  /** With no lanes at all nothing is ever started: every slot stays a hole. */
  lemma {:induction false} NoLanesNoWork<R>(calls: seq<Settlement<R>>, size: Size)
    ensures LaneCount(size, |calls|) == 0 <==> calls == [] || size.NotANumber? || size.n < 1.0
    ensures LaneCount(size, |calls|) == 0 ==>
              forall i :: 0 <= i < |calls| ==> Launch(calls, LaneCount(size, |calls|)).results[i].None?
  {
  }

  // ----- holes measure progress -----

  function Holes<R>(results: seq<Option<Entry<R>>>): nat {
    if results == [] then 0 else (if results[0].None? then 1 else 0) + Holes(results[1..])
  }

  lemma {:induction false} FillingAHole<R>(results: seq<Option<Entry<R>>>, i: nat, e: Entry<R>)
    requires i < |results| && results[i].None?
    ensures Holes(results[i := Some(e)]) == Holes(results) - 1
  {
    var filled := results[i := Some(e)];
    if i == 0 {
      assert filled[1..] == results[1..];
    } else {
      FillingAHole(results[1..], i - 1, e);
      assert filled[1..] == results[1..][i - 1 := Some(e)];
    }
  }

  // ----- the code, updating one counter and one array in place -----

  class LanePool<R> {
    const calls: seq<Settlement<R>>
    const results: array<Option<Entry<R>>>
    var next: nat
    var lanes: seq<Lane>
    ghost var started: seq<Start>

    ghost function State(): Pool<R>
      reads this, results
    {
      Pool(next, lanes, results[..], started)
    }

    constructor (calls: seq<Settlement<R>>)
      ensures this.calls == calls && fresh(results) && results.Length == |calls|
      ensures State() == Empty(|calls|)
    {
      this.calls := calls;
      this.results := new Option<Entry<R>>[|calls|](_ => None);
      next, lanes, started := 0, [], [];
      new;
      assert results[..] == seq(|calls|, _ => None);
    }

    method TakeNext(lane: nat)
      requires lane < |lanes|
      modifies this
      ensures State() == Claim(calls, old(State()), lane)
    {
      var i := next;
      next := next + 1;
      if i >= |calls| {
        lanes := lanes[lane := Returned];
      } else {
        started := started + [Start(i, lane)];
        lanes := lanes[lane := if calls[i].Threw? then Crashed(calls[i].message) else InFlight(i)];
      }
    }

    method Open()
      modifies this
      ensures State() == AddLane(calls, old(State()))
    {
      lanes := lanes + [Returned];
      TakeNext(|lanes| - 1);
    }

    method Settle(lane: nat)
      requires lane < |lanes| && lanes[lane].InFlight?
      requires results.Length == |calls| && lanes[lane].index < |calls| && !calls[lanes[lane].index].Threw?
      modifies this, results
      ensures State() == Resume(calls, old(State()), lane)
    {
      var i := lanes[lane].index;
      if Escapes(calls[i]) {
        lanes := lanes[lane := Crashed(calls[i].message)];
      } else {
        results[i] := Some(Contained(calls[i]));
        TakeNext(lane);
      }
    }
  }

  datatype PoolResult<+R> = AllSettled(results: seq<Option<Entry<R>>>) | LaneCrash(error: string)

  /** The schedule ends with the first crash of a lane: while the lanes are
      started, the lowest one that crashes counts. */
  ghost predicate FirstCrash<R>(calls: seq<Settlement<R>>, k: nat, schedule: seq<nat>, lane: nat, error: string) {
    && Follows(calls, Launch(calls, k), schedule)
    && var q := After(calls, Launch(calls, k), schedule);
       && lane < |q.lanes| && q.lanes[lane] == Crashed(error)
       && if schedule == [] then forall l :: 0 <= l < lane ==> !q.lanes[l].Crashed?
          else
            var front := schedule[..|schedule| - 1];
            Follows(calls, Launch(calls, k), front) && NoneCrashed(After(calls, Launch(calls, k), front))
  }

  lemma {:induction false} OneMoreSettles<R>(calls: seq<Settlement<R>>, p: Pool<R>, schedule: seq<nat>, lane: nat)
    requires Follows(calls, p, schedule)
    requires var q := After(calls, p, schedule);
             && lane < |q.lanes| && q.lanes[lane].InFlight?
             && q.lanes[lane].index < |q.results| == |calls| && !calls[q.lanes[lane].index].Threw?
    ensures Follows(calls, p, schedule + [lane])
    ensures After(calls, p, schedule + [lane]) == Resume(calls, After(calls, p, schedule), lane)
    decreases |schedule|
  {
    var longer := schedule + [lane];
    if schedule == [] {
      assert longer[1..] == [];
      assert Follows(calls, Resume(calls, p, lane), []);
    } else {
      assert longer[1..] == schedule[1..] + [lane];
      OneMoreSettles(calls, Resume(calls, p, schedule[0]), schedule[1..], lane);
    }
  }

  /** The pool is up after this schedule: no lane has crashed. */
  ghost predicate UpAfter<R>(calls: seq<Settlement<R>>, k: nat, schedule: seq<nat>, p: Pool<R>) {
    && Follows(calls, Launch(calls, k), schedule) && p == After(calls, Launch(calls, k), schedule)
    && Inv(calls, p) && NoneCrashed(p) && |p.lanes| == k
  }

  /** One settlement either leaves the pool up, with a hole filled, or is the first crash. */
  lemma {:induction false} SettlesOrCrashes<R>(calls: seq<Settlement<R>>, k: nat, schedule: seq<nat>, p: Pool<R>, lane: nat)
    requires UpAfter(calls, k, schedule, p) && lane < |p.lanes| && p.lanes[lane].InFlight?
    ensures var q := Resume(calls, p, lane);
            && lane < |q.lanes|
            && (!q.lanes[lane].Crashed? ==> UpAfter(calls, k, schedule + [lane], q) && Holes(q.results) < Holes(p.results))
            && (q.lanes[lane].Crashed? ==> FirstCrash(calls, k, schedule + [lane], lane, q.lanes[lane].error) && !NoneEscapes(calls))
  {
    ResumeKeeps(calls, p, lane);
    OneMoreSettles(calls, Launch(calls, k), schedule, lane);
    var q := Resume(calls, p, lane);
    assert forall l :: 0 <= l < |p.lanes| && l != lane ==> q.lanes[l] == p.lanes[l];
    assert (schedule + [lane])[..|schedule + [lane]| - 1] == schedule;
    if q.lanes[lane].Crashed? { CrashedEscaped(calls, q, lane); }
  }

  lemma {:induction false} CrashedEscaped<R>(calls: seq<Settlement<R>>, p: Pool<R>, lane: nat)
    requires Inv(calls, p) && lane < |p.lanes| && p.lanes[lane].Crashed?
    ensures !NoneEscapes(calls)
  {
    var i :| 0 <= i < |p.started| && Escapes(calls[i]) && calls[i].message == p.lanes[lane].error;
  }

  /** What runPool may answer with k lanes. */
  ghost predicate PoolAnswer<R>(calls: seq<Settlement<R>>, k: nat, r: PoolResult<R>) {
    && (k == 0 ==> r.AllSettled? && r.results == seq(|calls|, _ => None))
    && (k > 0 ==> (r.AllSettled? <==> NoneEscapes(calls)))
    && (k > 0 && r.AllSettled? ==>
          && |r.results| == |calls|
          && forall i :: 0 <= i < |calls| ==> r.results[i] == Some(SequentialMap(calls)[i]))
    && (r.LaneCrash? ==> exists schedule, lane :: FirstCrash(calls, k, schedule, lane, r.error))
  }

  lemma {:induction false} CrashAnswers<R>(calls: seq<Settlement<R>>, k: nat, schedule: seq<nat>, lane: nat, error: string)
    requires k > 0 && FirstCrash(calls, k, schedule, lane, error) && !NoneEscapes(calls)
    ensures PoolAnswer(calls, k, LaneCrash(error))
  {
  }

  lemma {:induction false} CrashedAtLaunch<R>(calls: seq<Settlement<R>>, k: nat, lane: nat)
    requires var p := Launch(calls, k);
             lane < |p.lanes| && p.lanes[lane].Crashed? && forall l :: 0 <= l < lane ==> !p.lanes[l].Crashed?
    ensures PoolAnswer(calls, k, LaneCrash(Launch(calls, k).lanes[lane].error))
  {
    var p := Launch(calls, k);
    LaunchKeeps(calls, k);
    CrashedEscaped(calls, p, lane);
    assert After(calls, p, []) == p;
    CrashAnswers(calls, k, [], lane, p.lanes[lane].error);
  }

  lemma {:induction false} SettledAnswers<R>(calls: seq<Settlement<R>>, k: nat, schedule: seq<nat>, p: Pool<R>)
    requires UpAfter(calls, k, schedule, p) && Settled(p)
    ensures PoolAnswer(calls, k, AllSettled(p.results))
  {
    SettledPool(calls, p);
    if k == 0 {
      assert p.results == seq(|calls|, _ => None);
    }
  }

  /** runPool. Which in-flight call settles next is not ours to choose: the
      loop takes any, so its contract holds for every interleaving. Promise.all
      rejects with the first lane that crashes; what other lanes go on to do
      then is not in the result. */
  method RunPool<R>(calls: seq<Settlement<R>>, size: Size) returns (r: PoolResult<R>)
    ensures PoolAnswer(calls, LaneCount(size, |calls|), r)
  {
    var k := LaneCount(size, |calls|);
    var pool := StartLanes(calls, k);
    LaunchKeeps(calls, k);
    var down := LowestCrash(pool.lanes);
    if down.Some? {
      CrashedAtLaunch(calls, k, down.value);
      return LaneCrash(pool.lanes[down.value].error);
    }
    assert UpAfter(calls, k, [], Launch(calls, k));
    r := SettleAll(calls, pool, k);
  }

  method LowestCrash(lanes: seq<Lane>) returns (lane: Option<nat>)
    ensures lane.Some? ==> lane.value < |lanes| && lanes[lane.value].Crashed?
    ensures forall l :: 0 <= l < (if lane.Some? then lane.value else |lanes|) ==> !lanes[l].Crashed?
  {
    for l := 0 to |lanes|
      invariant forall m :: 0 <= m < l ==> !lanes[m].Crashed?
    {
      if lanes[l].Crashed? { return Some(l); }
    }
    return None;
  }

  method StartLanes<R>(calls: seq<Settlement<R>>, k: nat) returns (pool: LanePool<R>)
    ensures fresh(pool) && fresh(pool.results) && pool.calls == calls && pool.State() == Launch(calls, k)
  {
    pool := new LanePool<R>(calls);
    for j := 0 to k
      invariant fresh(pool) && fresh(pool.results) && pool.calls == calls
      invariant pool.State() == Launch(calls, j)
    {
      pool.Open();
    }
  }

  /** From the lanes' start until all have returned, or the first crash. */
  method SettleAll<R>(calls: seq<Settlement<R>>, pool: LanePool<R>, k: nat) returns (r: PoolResult<R>)
    requires pool.calls == calls && UpAfter(calls, k, [], pool.State())
    modifies pool, pool.results
    ensures PoolAnswer(calls, k, r)
  {
    ghost var schedule: seq<nat> := [];
    while exists l :: 0 <= l < |pool.lanes| && pool.lanes[l].InFlight?
      invariant UpAfter(calls, k, schedule, pool.State())
      decreases Holes(pool.results[..])
    {
      var l :| 0 <= l < |pool.lanes| && pool.lanes[l].InFlight?;
      SettlesOrCrashes(calls, k, schedule, pool.State(), l);
      schedule := schedule + [l];
      pool.Settle(l);
      if pool.lanes[l].Crashed? {
        CrashAnswers(calls, k, schedule, l, pool.lanes[l].error);
        return LaneCrash(pool.lanes[l].error);
      }
    }
    SettledAnswers(calls, k, schedule, pool.State());
    return AllSettled(pool.results[..]);
  }

  // ----- runMany and the report the command prints -----

  datatype TaskResult = TaskResult(objective: string, status: string)

  /** `handle` is awaited inside an async function, so it can only reject. */
  datatype Handled = Answered(status: string) | Refused(message: string) | RefusedNothing(message: string)

  function TaskCall(objective: string, h: Handled): Settlement<TaskResult> {
    match h
    case Answered(status) => Fulfilled(TaskResult(objective, status))
    case Refused(m) => Rejected(m)
    case RefusedNothing(m) => RejectedNothing(m)
  }

  function TaskCalls(objectives: seq<string>, handled: seq<Handled>): (calls: seq<Settlement<TaskResult>>)
    requires |objectives| == |handled|
    ensures |calls| == |handled|
    ensures forall i :: 0 <= i < |handled| ==> calls[i] == TaskCall(objectives[i], handled[i])
  {
    seq(|handled|, i requires 0 <= i < |handled| => TaskCall(objectives[i], handled[i]))
  }

  datatype Report = Printed(exitCode: nat) | TypeErrorAt(row: nat) | Aborted(error: string)

  /** The command's loop over the results: a contained error has no `objective`,
      and neither has a hole, so printing either row throws. */
  method PrintReport(results: seq<Option<Entry<TaskResult>>>) returns (report: Report)
    ensures !report.Aborted?
    ensures report.TypeErrorAt? <==> exists i :: 0 <= i < |results| && !(results[i].Some? && results[i].value.Done?)
    ensures report.TypeErrorAt? ==>
              && report.row < |results| && !(results[report.row].Some? && results[report.row].value.Done?)
              && forall i :: 0 <= i < report.row ==> results[i].Some? && results[i].value.Done?
    ensures report.Printed? ==>
              (report.exitCode == 0 <==>
               forall i :: 0 <= i < |results| ==> results[i].Some? && results[i].value.Done? && results[i].value.value.status == "merge-ready")
  {
    var ok := 0;
    for i := 0 to |results|
      invariant forall j :: 0 <= j < i ==> results[j].Some? && results[j].value.Done?
      invariant 0 <= ok <= i
      invariant ok == i <==> forall j :: 0 <= j < i ==> results[j].Some? && results[j].value.Done? && results[j].value.value.status == "merge-ready"
    {
      if results[i].None? || results[i].value.Failed? {
        return TypeErrorAt(i);
      }
      if results[i].value.value.status == "merge-ready" { ok := ok + 1; }
    }
    return Printed(if ok == |results| then 0 else 1);
  }

  // Math.max(1, Number(...))
  function Concurrency(argument: Size): Size {
    match argument
    case NotANumber => NotANumber
    case Count(n) => Count(if n < 1.0 then 1.0 else n)
  }

  /** The command end to end, for every interleaving of its lanes: it prints its
      whole report exactly when the concurrency argument is a number and no
      task was refused, and then exits 0 exactly when every task is merge-ready. */
  method RunMany(objectives: seq<string>, handled: seq<Handled>, argument: Size) returns (report: Report)
    requires |objectives| == |handled| > 0
    ensures report.Printed? <==> !argument.NotANumber? && forall i :: 0 <= i < |handled| ==> handled[i].Answered?
    ensures report.Printed? ==>
              (report.exitCode == 0 <==> forall i :: 0 <= i < |handled| ==> handled[i] == Answered("merge-ready"))
    ensures report.Aborted? <==> !argument.NotANumber? && exists i :: 0 <= i < |handled| && handled[i].RefusedNothing?
    ensures report.TypeErrorAt? && !argument.NotANumber? ==>
              report.row < |handled| && handled[report.row].Refused?
  {
    var calls := TaskCalls(objectives, handled);
    assert forall i :: 0 <= i < |handled| ==> (Escapes(calls[i]) <==> handled[i].RefusedNothing?);
    var size := Concurrency(argument);
    var r := RunPool(calls, size);
    if r.LaneCrash? { return Aborted(r.error); }
    report := PrintReport(r.results);
    if argument.NotANumber? {
      assert r.results[0].None?;
    } else {
      assert forall i :: 0 <= i < |handled| ==> r.results[i] == Some(Contained(TaskCall(objectives[i], handled[i])));
    }
  }
}
