/** The founder-intent queue and the machine that drains it: the endpoint
    (control-plane/api/intents.mjs over _lib/queue.mjs) hands intents out and
    accepts reports, the machine (scripts/hq-intents.mjs over intent-worker.mjs)
    polls, executes and reports.

    Every blob operation and every handler run is a step of its own, so a run
    may interleave any number of polls, abandon any call anywhere (a crash, a
    timeout, a lost reply) and go on polling. */
module IntentQueue {
  import opened Collections

  type Id = nat
  type CallId = nat

  datatype Status = Done | Failed | Rejected

  // ----- the blob store: one blob per intent under each prefix -----

  datatype Blobs = Blobs(pending: set<Id>, claimed: set<Id>, results: map<Id, Status>)

  function PutPending(b: Blobs, id: Id): Blobs { b.(pending := b.pending + {id}) }

  /** `put` with allowOverwrite: false; the store decides who wins. */
  function PutClaimed(b: Blobs, id: Id): Option<Blobs> {
    if id in b.claimed then None else Some(b.(claimed := b.claimed + {id}))
  }

  function DelPending(b: Blobs, id: Id): Blobs { b.(pending := b.pending - {id}) }

  function PutResult(b: Blobs, id: Id, status: Status): Blobs { b.(results := b.results[id := status]) }

  function DelClaimed(b: Blobs, id: Id): Blobs { b.(claimed := b.claimed - {id}) }

  // ----- the queue under any interleaving -----

  /** One server-side `claim(id)`, and what the machine does with the record it won. */
  datatype Phase = Holding | Won | Granted | Ran(status: Status) | Reported | Over
  datatype Call = Call(id: Id, phase: Phase)

  /** `issued`, `winners`, `handled` and `unmarked` only grow; they remember
      what happened. `handled` holds the calls whose handler was run. */
  datatype Queue = Queue(
    blobs: Blobs,
    calls: map<CallId, Call>,
    issued: set<Id>,
    winners: set<CallId>,
    handled: map<CallId, Status>,
    unmarked: set<Id>)

  const Start := Queue(Blobs({}, {}, map[]), map[], {}, {}, map[], {})

  datatype Step =
    | Enqueue(id: Id)
    | Read(call: CallId, of: Id)               // head and read of the pending blob
    | Lose(call: CallId)                       // the claimed put is refused, or fails
    | Win(call: CallId)                        // the claimed put is accepted
    | WinUnheard(call: CallId)                 // accepted, but the caller saw an error
    | Unlist(call: CallId)                     // the pending blob is deleted
    | UnlistFails(call: CallId)                // that delete fails, silently
    | Execute(call: CallId, outcome: Status)   // on the machine; Rejected runs no handler
    | Report(call: CallId)                     // the result blob is written
    | Unmark(call: CallId)                     // report then deletes the claimed blob

  predicate InPhase(q: Queue, call: CallId, phase: Phase) {
    call in q.calls && q.calls[call].phase == phase
  }

  predicate Enabled(q: Queue, step: Step) {
    match step
    case Enqueue(id) => id !in q.issued
    case Read(call, id) => call !in q.calls && id in q.blobs.pending
    case Lose(call) => InPhase(q, call, Holding)
    case Win(call) => InPhase(q, call, Holding) && PutClaimed(q.blobs, q.calls[call].id).Some?
    case WinUnheard(call) => InPhase(q, call, Holding) && PutClaimed(q.blobs, q.calls[call].id).Some?
    case Unlist(call) => InPhase(q, call, Won)
    case UnlistFails(call) => InPhase(q, call, Won)
    case Execute(call, outcome) => InPhase(q, call, Granted)
    case Report(call) => call in q.calls && q.calls[call].phase.Ran?
    case Unmark(call) => InPhase(q, call, Reported)
  }

  function Move(q: Queue, call: CallId, phase: Phase): Queue
    requires call in q.calls
  {
    q.(calls := q.calls[call := Call(q.calls[call].id, phase)])
  }

  function Apply(q: Queue, step: Step): Queue
    requires Enabled(q, step)
  {
    match step
    case Enqueue(id) => q.(blobs := PutPending(q.blobs, id), issued := q.issued + {id})
    case Read(call, id) => q.(calls := q.calls[call := Call(id, Holding)])
    case Lose(call) => Move(q, call, Over)
    case Win(call) =>
      Move(q.(blobs := PutClaimed(q.blobs, q.calls[call].id).value, winners := q.winners + {call}), call, Won)
    case WinUnheard(call) => Move(q.(blobs := PutClaimed(q.blobs, q.calls[call].id).value), call, Over)
    case Unlist(call) => Move(q.(blobs := DelPending(q.blobs, q.calls[call].id)), call, Granted)
    case UnlistFails(call) => Move(q, call, Granted)
    case Execute(call, outcome) =>
      Move(if outcome == Rejected then q else q.(handled := q.handled[call := outcome]), call, Ran(outcome))
    case Report(call) =>
      Move(q.(blobs := PutResult(q.blobs, q.calls[call].id, q.calls[call].phase.status)), call, Reported)
    case Unmark(call) =>
      Move(q.(blobs := DelClaimed(q.blobs, q.calls[call].id), unmarked := q.unmarked + {q.calls[call].id}), call, Over)
  }

  ghost predicate Follows(q: Queue, run: seq<Step>)
    decreases |run|
  {
    run == [] || (Enabled(q, run[0]) && Follows(Apply(q, run[0]), run[1..]))
  }

  ghost function After(q: Queue, run: seq<Step>): Queue
    requires Follows(q, run)
    decreases |run|
  {
    if run == [] then q else After(Apply(q, run[0]), run[1..])
  }

  lemma {:induction false} Append(q: Queue, a: seq<Step>, b: seq<Step>)
    requires Follows(q, a) && Follows(After(q, a), b)
    ensures Follows(q, a + b) && After(q, a + b) == After(After(q, a), b)
    decreases |a|
  {
    if a == [] {
      assert a + b == b;
    } else {
      assert (a + b)[1..] == a[1..] + b;
      Append(Apply(q, a[0]), a[1..], b);
    }
  }

  lemma {:induction false} Prepend(q: Queue, step: Step, rest: seq<Step>)
    requires Enabled(q, step) && Follows(Apply(q, step), rest)
    ensures Follows(q, [step] + rest) && After(q, [step] + rest) == After(Apply(q, step), rest)
  {
    assert ([step] + rest)[1..] == rest;
  }

  lemma {:induction false} TwoSteps(q: Queue, a: Step, b: Step)
    requires Enabled(q, a) && Enabled(Apply(q, a), b)
    ensures Follows(q, [a, b]) && After(q, [a, b]) == Apply(Apply(q, a), b)
  {
    var q2 := Apply(Apply(q, a), b);
    assert Follows(q2, []) && After(q2, []) == q2;
    assert [b][1..] == [] && [a, b][1..] == [b];
    assert Follows(Apply(q, a), [b]) && After(Apply(q, a), [b]) == q2;
  }

  lemma {:induction false} ThreeSteps(q: Queue, a: Step, b: Step, c: Step)
    requires Enabled(q, a) && Enabled(Apply(q, a), b) && Enabled(Apply(Apply(q, a), b), c)
    ensures Follows(q, [a, b, c]) && After(q, [a, b, c]) == Apply(Apply(Apply(q, a), b), c)
  {
    TwoSteps(Apply(q, a), b, c);
    assert [a, b, c][1..] == [b, c];
  }

  // ----- what every run keeps -----

  ghost predicate CallsKnown(q: Queue) {
    && q.blobs.pending <= q.issued
    && (forall c :: c in q.calls ==> q.calls[c].id in q.issued)
    && (forall c :: c in q.winners ==> c in q.calls)
    && (forall c :: c in q.handled ==> c in q.winners)
  }

  ghost predicate PhasesTell(q: Queue) {
    forall c :: c in q.calls ==>
      match q.calls[c].phase
      case Holding => c !in q.winners
      case Won => c in q.winners && c !in q.handled
      case Granted => c in q.winners && c !in q.handled
      case Ran(status) => c in q.winners && (status == Done ==> c in q.handled && q.handled[c] == Done)
      case Reported => c in q.winners
      case Over => true
  }

  ghost predicate WellFormed(q: Queue) {
    CallsKnown(q) && PhasesTell(q)
  }

  /** While an intent's claimed blob has never been deleted, at most one call
      won the intent, and the blob is there to refuse every other. */
  ghost predicate MarkerGuards(q: Queue)
    requires CallsKnown(q)
  {
    && (forall c :: c in q.winners && q.calls[c].id !in q.unmarked ==> q.calls[c].id in q.blobs.claimed)
    && (forall c, d :: c in q.winners && d in q.winners && q.calls[c].id == q.calls[d].id && q.calls[c].id !in q.unmarked ==> c == d)
  }

  /** Some call won the intent, ran its handler, and that handler succeeded. */
  ghost predicate DoneByMachine(q: Queue, id: Id) {
    exists c :: c in q.handled && q.handled[c] == Done && c in q.winners && c in q.calls && q.calls[c].id == id
  }

  ghost predicate HonestResults(q: Queue) {
    forall id :: id in q.blobs.results && q.blobs.results[id] == Done ==> DoneByMachine(q, id)
  }

  ghost predicate Inv(q: Queue) {
    WellFormed(q) && MarkerGuards(q) && HonestResults(q)
  }

  lemma {:induction false} StepWellFormed(q: Queue, step: Step)
    requires WellFormed(q) && Enabled(q, step)
    ensures WellFormed(Apply(q, step))
  {
  }

  lemma {:induction false} StepMarkerGuards(q: Queue, step: Step)
    requires WellFormed(q) && MarkerGuards(q) && Enabled(q, step)
    ensures CallsKnown(Apply(q, step)) && MarkerGuards(Apply(q, step))
  {
    StepWellFormed(q, step);
  }

  lemma {:induction false} StepKeepsDone(q: Queue, step: Step, id: Id)
    requires WellFormed(q) && Enabled(q, step) && DoneByMachine(q, id)
    ensures DoneByMachine(Apply(q, step), id)
  {
    var c :| c in q.handled && q.handled[c] == Done && c in q.winners && c in q.calls && q.calls[c].id == id;
    var t := Apply(q, step);
    assert c in t.handled && t.handled[c] == Done && c in t.winners && c in t.calls && t.calls[c].id == id;
  }

  lemma {:induction false} StepHonestResults(q: Queue, step: Step)
    requires WellFormed(q) && HonestResults(q) && Enabled(q, step)
    ensures HonestResults(Apply(q, step))
  {
    var t := Apply(q, step);
    forall id | id in t.blobs.results && t.blobs.results[id] == Done ensures DoneByMachine(t, id) {
      if step.Report? && q.calls[step.call].id == id {
        assert step.call in t.handled && t.handled[step.call] == Done && step.call in t.winners && t.calls[step.call].id == id;
      } else {
        StepKeepsDone(q, step, id);
      }
    }
  }

  lemma {:induction false} StepInv(q: Queue, step: Step)
    requires Inv(q) && Enabled(q, step)
    ensures Inv(Apply(q, step))
  {
    StepWellFormed(q, step);
    StepMarkerGuards(q, step);
    StepHonestResults(q, step);
  }

  lemma {:induction false} EveryRun(q: Queue, run: seq<Step>)
    requires Inv(q) && Follows(q, run)
    ensures forall t :: t == After(q, run) ==> Inv(t)
    decreases |run|
  {
    if run != [] {
      StepInv(q, run[0]);
      EveryRun(Apply(q, run[0]), run[1..]);
    }
  }

  // ----- at most once, and exactly when -----

  ghost predicate RanTwice(q: Queue, id: Id) {
    exists c, d :: c in q.handled && d in q.handled && c in q.calls && d in q.calls
                && c != d && q.calls[c].id == id && q.calls[d].id == id
  }

  /** As long as no report has deleted the claimed blob nothing is run twice: a
      report that never arrives leaves the intent claimed, and never re-run. */
  lemma {:induction false} ClaimedIsNeverRerun(run: seq<Step>, id: Id)
    requires Follows(Start, run) && id !in After(Start, run).unmarked
    ensures !RanTwice(After(Start, run), id)
  {
    EveryRun(Start, run);
    assert Inv(After(Start, run));
  }

  /** The intent can still be claimed: its pending blob is still there, or some
      claim has read it and not yet tried its put. */
  ghost predicate Exposed(q: Queue, id: Id) {
    id in q.blobs.pending || exists c :: InPhase(q, c, Holding) && q.calls[c].id == id
  }

  /** No won record of the intent is still waiting to be executed. */
  ghost predicate Quiet(q: Queue, id: Id) {
    forall c :: c in q.calls && q.calls[c].id == id ==> q.calls[c].phase != Won && q.calls[c].phase != Granted
  }

  ghost predicate Dead(q: Queue, id: Id) {
    id in q.issued && Quiet(q, id) && !Exposed(q, id)
  }

  /** Between q and t a handler was run for the intent. */
  ghost predicate RunsBetween(q: Queue, t: Queue, id: Id) {
    exists c :: c in t.handled && c !in q.handled && c in t.calls && t.calls[c].id == id
  }

  lemma {:induction false} StepKeepsDead(q: Queue, step: Step, id: Id)
    requires WellFormed(q) && Enabled(q, step) && Dead(q, id)
    ensures Dead(Apply(q, step), id)
    ensures !RunsBetween(q, Apply(q, step), id)
  {
    var t := Apply(q, step);
    forall c | InPhase(t, c, Holding) ensures t.calls[c].id != id {
      assert InPhase(q, c, Holding) || (step.Read? && step.call == c);
    }
  }

  lemma {:induction false} DeadForever(q: Queue, run: seq<Step>, id: Id)
    requires WellFormed(q) && Dead(q, id) && Follows(q, run)
    ensures !RunsBetween(q, After(q, run), id)
    decreases |run|
  {
    if run != [] {
      StepWellFormed(q, run[0]);
      StepKeepsDead(q, run[0], id);
      DeadForever(Apply(q, run[0]), run[1..], id);
      CallIdsStick(Apply(q, run[0]), run[1..]);
    }
  }

  lemma {:induction false} CallIdsStick(q: Queue, run: seq<Step>)
    requires WellFormed(q) && Follows(q, run)
    ensures forall t :: t == After(q, run) ==> WellFormed(t)
    ensures forall c :: c in q.calls ==> c in After(q, run).calls && After(q, run).calls[c].id == q.calls[c].id
    decreases |run|
  {
    if run != [] {
      StepWellFormed(q, run[0]);
      CallIdsStick(Apply(q, run[0]), run[1..]);
    }
  }

  lemma {:induction false} FreshCall(q: Queue) returns (call: CallId)
    ensures call !in q.calls
  {
    call := 0;
    var seen: set<CallId> := {};
    while call in q.calls
      invariant seen <= q.calls.Keys
      invariant forall c :: c in seen ==> c < call
      decreases q.calls.Keys - seen
    {
      seen := seen + {call};
      call := call + 1;
    }
  }

  function ClaimAndRun(call: CallId): seq<Step> {
    [Win(call), Unlist(call), Execute(call, Done)]
  }

  /** A call still holding the record claims it anew, once no marker refuses it, and runs it. */
  lemma {:induction false} HolderRuns(q: Queue, c: CallId)
    requires WellFormed(q) && InPhase(q, c, Holding) && q.calls[c].id !in q.blobs.claimed
    ensures Follows(q, ClaimAndRun(c)) && RunsBetween(q, After(q, ClaimAndRun(c)), q.calls[c].id)
    ensures var t := After(q, ClaimAndRun(c));
            && t.handled == q.handled[c := Done] && t.calls.Keys == q.calls.Keys
            && (forall d :: d in q.calls ==> t.calls[d].id == q.calls[d].id)
  {
    ThreeSteps(q, Win(c), Unlist(c), Execute(c, Done));
    var t := Apply(Apply(Apply(q, Win(c)), Unlist(c)), Execute(c, Done));
    assert c !in q.handled && c in t.handled && t.calls[c].id == q.calls[c].id;
  }

  /** Some continuation runs a handler for the intent. */
  ghost predicate CanRerun(q: Queue, id: Id) {
    exists run :: Follows(q, run) && RunsBetween(q, After(q, run), id)
  }

  /** Exactly when an intent can be run again. Where the claimed blob is gone
      and no won record is outstanding, some continuation runs a handler for
      the intent if and only if its pending blob is still there or a claim
      still holds a copy of it. */
  lemma {:induction false} RerunIffExposed(q: Queue, id: Id)
    requires WellFormed(q) && id in q.issued && Quiet(q, id) && id !in q.blobs.claimed
    ensures CanRerun(q, id) <==> Exposed(q, id)
  {
    if !Exposed(q, id) {
      forall run | Follows(q, run) ensures !RunsBetween(q, After(q, run), id) {
        DeadForever(q, run, id);
      }
    } else if c :| InPhase(q, c, Holding) && q.calls[c].id == id {
      HolderRuns(q, c);
    } else {
      var c := FreshCall(q);
      var t := Apply(q, Read(c, id));
      StepWellFormed(q, Read(c, id));
      HolderRuns(t, c);
      Prepend(q, Read(c, id), ClaimAndRun(c));
      assert RunsBetween(q, After(q, [Read(c, id)] + ClaimAndRun(c)), id);
    }
  }

  /** The guard a report would have to check before it deletes the claimed blob. */
  ghost predicate SafeToUnmark(q: Queue, step: Step) {
    step.Unmark? && step.call in q.calls ==> !Exposed(q, q.calls[step.call].id)
  }

  ghost predicate Careful(q: Queue, run: seq<Step>)
    requires Follows(q, run)
    decreases |run|
  {
    run == [] || (SafeToUnmark(q, run[0]) && Careful(Apply(q, run[0]), run[1..]))
  }

  /** Intents whose marker is gone are gone for good. */
  ghost predicate Buried(q: Queue)
    requires CallsKnown(q)
  {
    && (forall id :: id in q.unmarked ==> Dead(q, id))
    && (forall c, d :: c in q.winners && d in q.winners && q.calls[c].id == q.calls[d].id ==> c == d)
  }

  lemma {:induction false} StepBuried(q: Queue, step: Step)
    requires Inv(q) && Buried(q) && Enabled(q, step) && SafeToUnmark(q, step)
    ensures Inv(Apply(q, step)) && Buried(Apply(q, step))
  {
    StepInv(q, step);
    var t := Apply(q, step);
    forall id | id in t.unmarked ensures Dead(t, id) {
      if id in q.unmarked {
        StepKeepsDead(q, step, id);
      } else {
        UnmarkBuries(q, step.call);
      }
    }
    if step.Win? {
      assert InPhase(q, step.call, Holding);
      assert Exposed(q, q.calls[step.call].id);
      assert q.calls[step.call].id !in q.unmarked;
    }
  }

  lemma {:induction false} UnmarkBuries(q: Queue, call: CallId)
    requires WellFormed(q) && Buried(q) && Enabled(q, Unmark(call)) && SafeToUnmark(q, Unmark(call))
    ensures Dead(Apply(q, Unmark(call)), q.calls[call].id)
  {
    var id := q.calls[call].id;
    var t := Apply(q, Unmark(call));
    assert call in q.winners;
    forall c | InPhase(t, c, Holding) ensures t.calls[c].id != id {
      assert InPhase(q, c, Holding);
    }
  }

  /** Deleting a claimed blob opens the way to another run of its intent exactly
      when the intent is then still listed, or still held by some claim. */
  lemma {:induction false} UnmarkReopensExactly(q: Queue, c: CallId)
    requires Inv(q) && Buried(q) && Enabled(q, Unmark(c))
    ensures CanRerun(Apply(q, Unmark(c)), q.calls[c].id) <==> Exposed(q, q.calls[c].id)
  {
    var id, t := q.calls[c].id, Apply(q, Unmark(c));
    StepWellFormed(q, Unmark(c));
    assert c in q.winners;
    assert Quiet(t, id) by {
      assert forall d :: d in q.winners && q.calls[d].id == id ==> d == c;
    }
    RerunIffExposed(t, id);
    if d :| InPhase(q, d, Holding) && q.calls[d].id == id { assert InPhase(t, d, Holding) && t.calls[d].id == id; }
    if d :| InPhase(t, d, Holding) && t.calls[d].id == id { assert InPhase(q, d, Holding) && q.calls[d].id == id; }
  }

  /** After every report of the run nothing can run the reported intent again. */
  ghost predicate ReportsAreFinal(q: Queue, run: seq<Step>)
    requires Follows(q, run)
    decreases |run|
  {
    run == [] ||
    ((run[0].Unmark? ==> !CanRerun(Apply(q, run[0]), q.calls[run[0].call].id)) && ReportsAreFinal(Apply(q, run[0]), run[1..]))
  }

  /** Over a whole run, the guard is exact: reports are final if and only if each
      deletion of a claimed blob found its intent neither listed nor held. */
  lemma {:induction false} CarefulExactly(q: Queue, run: seq<Step>)
    requires Inv(q) && Buried(q) && Follows(q, run)
    ensures Careful(q, run) <==> ReportsAreFinal(q, run)
    decreases |run|
  {
    if run != [] {
      if run[0].Unmark? { UnmarkReopensExactly(q, run[0].call); }
      if SafeToUnmark(q, run[0]) {
        StepBuried(q, run[0]);
        CarefulExactly(Apply(q, run[0]), run[1..]);
      }
    }
  }

  /** At most once, in every run whose deletions of a claimed blob find the
      intent neither listed nor held; by `CarefulExactly` no weaker guard would do. */
  lemma {:induction false} AtMostOnce(q: Queue, run: seq<Step>, id: Id)
    requires Inv(q) && Buried(q) && Follows(q, run) && Careful(q, run)
    ensures !RanTwice(After(q, run), id)
    decreases |run|
  {
    if run != [] {
      StepBuried(q, run[0]);
      AtMostOnce(Apply(q, run[0]), run[1..], id);
    }
  }

  lemma {:induction false} StartHolds()
    ensures Inv(Start) && Buried(Start)
  {
  }

  // ----- both ways the guard fails are runs of the code as it stands -----

  function Claiming(call: CallId, unlisted: bool): seq<Step> {
    [Win(call), if unlisted then Unlist(call) else UnlistFails(call)]
  }

  function Settling(call: CallId): seq<Step> {
    [Execute(call, Done), Report(call), Unmark(call)]
  }

  /** One claim carried through to its report. */
  function Cycle(call: CallId, unlisted: bool): seq<Step> {
    Claiming(call, unlisted) + Settling(call)
  }

  function AfterClaiming(q: Queue, call: CallId, unlisted: bool): Queue
    requires call in q.calls
  {
    var id := q.calls[call].id;
    q.(blobs := q.blobs.(pending := if unlisted then q.blobs.pending - {id} else q.blobs.pending, claimed := q.blobs.claimed + {id}),
       calls := q.calls[call := Call(id, Granted)],
       winners := q.winners + {call})
  }

  function AfterSettling(q: Queue, call: CallId): Queue
    requires call in q.calls
  {
    var id := q.calls[call].id;
    q.(blobs := q.blobs.(claimed := q.blobs.claimed - {id}, results := q.blobs.results[id := Done]),
       calls := q.calls[call := Call(id, Over)],
       handled := q.handled[call := Done],
       unmarked := q.unmarked + {id})
  }

  lemma {:induction false} ClaimingEffect(q: Queue, call: CallId, unlisted: bool)
    requires InPhase(q, call, Holding) && q.calls[call].id !in q.blobs.claimed
    ensures Follows(q, Claiming(call, unlisted)) && After(q, Claiming(call, unlisted)) == AfterClaiming(q, call, unlisted)
  {
    var u := if unlisted then Unlist(call) else UnlistFails(call);
    TwoSteps(q, Win(call), u);
    assert After(q, Claiming(call, unlisted)).calls == AfterClaiming(q, call, unlisted).calls;
  }

  lemma {:induction false} SettlingEffect(q: Queue, call: CallId)
    requires InPhase(q, call, Granted)
    ensures Follows(q, Settling(call)) && After(q, Settling(call)) == AfterSettling(q, call)
  {
    ThreeSteps(q, Execute(call, Done), Report(call), Unmark(call));
    assert After(q, Settling(call)).calls == AfterSettling(q, call).calls;
  }

  /** A claim carried through to its report runs one handler; the claimed blobs are
      then as before, and the intent is unlisted unless that delete failed. */
  lemma {:induction false} CycleEffect(q: Queue, call: CallId, unlisted: bool)
    requires InPhase(q, call, Holding) && q.calls[call].id !in q.blobs.claimed
    ensures Follows(q, Cycle(call, unlisted)) && After(q, Cycle(call, unlisted)) == AfterSettling(AfterClaiming(q, call, unlisted), call)
    ensures After(q, Cycle(call, unlisted)).blobs.claimed == q.blobs.claimed
  {
    ClaimingEffect(q, call, unlisted);
    SettlingEffect(After(q, Claiming(call, unlisted)), call);
    Append(q, Claiming(call, unlisted), Settling(call));
  }

  /** The pending delete fails silently, the report deletes the marker, and the
      next poll claims and runs the intent again. */
  lemma {:induction false} FailedUnlistRunsTwice()
    ensures var run := [Enqueue(0), Read(0, 0)] + (Cycle(0, false) + ([Read(1, 0)] + ClaimAndRun(1)));
            Follows(Start, run) && RanTwice(After(Start, run), 0)
  {
    StartHolds();
    StepWellFormed(Start, Enqueue(0));
    StepWellFormed(Apply(Start, Enqueue(0)), Read(0, 0));
    var q := Apply(Apply(Start, Enqueue(0)), Read(0, 0));
    TwoSteps(Start, Enqueue(0), Read(0, 0));
    ReportedIsReclaimed(q);
    Append(Start, [Enqueue(0), Read(0, 0)], Cycle(0, false) + ([Read(1, 0)] + ClaimAndRun(1)));
  }

  lemma {:induction false} ReportedIsReclaimed(q: Queue)
    requires WellFormed(q) && q.calls == map[0 := Call(0, Holding)] && 0 in q.blobs.pending && 0 !in q.blobs.claimed
    ensures var run := Cycle(0, false) + ([Read(1, 0)] + ClaimAndRun(1));
            Follows(q, run) && RanTwice(After(q, run), 0)
  {
    CycleEffect(q, 0, false);
    CallIdsStick(q, Cycle(0, false));
    var q1 := After(q, Cycle(0, false));
    var q2 := Apply(q1, Read(1, 0));
    StepWellFormed(q1, Read(1, 0));
    HolderRuns(q2, 1);
    Prepend(q1, Read(1, 0), ClaimAndRun(1));
    Append(q, Cycle(0, false), [Read(1, 0)] + ClaimAndRun(1));
    var end := After(q2, ClaimAndRun(1));
    assert 0 in end.handled && 1 in end.handled && end.calls[0].id == end.calls[1].id == 0;
  }

  /** Two polls overlap, no delete fails. Both read the record; one wins, runs
      and reports it; the other's put then finds no marker to refuse it. */
  lemma {:induction false} OverlappingPollsRunTwice()
    ensures var run := [Enqueue(0), Read(0, 0), Read(1, 0)] + (Cycle(0, true) + ClaimAndRun(1));
            Follows(Start, run) && RanTwice(After(Start, run), 0)
  {
    var q := TwoReaders();
    CycleEffect(q, 0, true);
    CallIdsStick(q, Cycle(0, true));
    var t := After(q, Cycle(0, true));
    HolderRuns(t, 1);
    Append(q, Cycle(0, true), ClaimAndRun(1));
    Append(Start, [Enqueue(0), Read(0, 0), Read(1, 0)], Cycle(0, true) + ClaimAndRun(1));
    var end := After(t, ClaimAndRun(1));
    assert 0 in end.handled && 1 in end.handled && end.calls[0].id == end.calls[1].id == 0;
  }

  /** Two polls have both read the one pending record. */
  lemma {:induction false} TwoReaders() returns (q: Queue)
    ensures q == Queue(Blobs({0}, {}, map[]), map[0 := Call(0, Holding), 1 := Call(0, Holding)], {0}, {}, map[], {})
    ensures Follows(Start, [Enqueue(0), Read(0, 0), Read(1, 0)])
    ensures After(Start, [Enqueue(0), Read(0, 0), Read(1, 0)]) == q
  {
    q := Apply(Apply(Apply(Start, Enqueue(0)), Read(0, 0)), Read(1, 0));
    ThreeSteps(Start, Enqueue(0), Read(0, 0), Read(1, 0));
  }
}
