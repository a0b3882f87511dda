/** The mirror publisher: `attempt` and `loop` of scripts/hq-publish.mjs over the
    cadence of factory/lib/hq/publish-cadence.mjs. A fingerprint is an opaque
    function of a document; the far store is a second state that each write
    may or may not change, whatever the publisher is told. */
module Publisher {
  import opened Collections

  type TaskId = string
  type Doc = string
  type Hash = string
  type Fingerprint = Doc -> Hash

  /** What one write comes to. `Unheard` is a write that took effect although the
      publisher was told it failed: a timeout after the store committed. */
  datatype Write = Accepted | Refused | Unheard

  datatype Detail = Detail(task: TaskId, doc: Doc)

  datatype Mirror = Mirror(snapshot: Option<Doc>, docs: map<TaskId, Doc>)

  /** One attempt's surroundings: the snapshot that was built (or not), the
      clock, the details and what each write comes to, in turn. */
  datatype Attempt = Attempt(snapshot: Option<Doc>, at: int, write: Write, details: seq<Detail>, writes: seq<Write>, after: int)

  datatype Outcome = BuildFailed | Skipped | Sent(ok: bool)

  predicate Ok(o: Outcome) { o == Skipped || o == Sent(true) }

  // ----- cadence -----

  predicate ShouldPublish(hash: Hash, lastHash: Option<Hash>, lastAt: Option<int>, now: int, heartbeatMs: int) {
    lastHash.None? || lastAt.None? || hash != lastHash.value || now - lastAt.value >= heartbeatMs
  }

  function Pow2(n: nat): nat { if n == 0 then 1 else 2 * Pow2(n - 1) }

  function NextDelayMs(streak: nat, floorMs: nat, capMs: nat): nat {
    if streak == 0 then floorMs
    else
      var grown := floorMs * Pow2(streak - 1);
      if grown < capMs then grown else capMs
  }

  lemma {:induction false} DelayGrows(streak: nat, floorMs: nat, capMs: nat)
    requires streak > 0
    ensures NextDelayMs(streak, floorMs, capMs) <= NextDelayMs(streak + 1, floorMs, capMs) <= capMs
    ensures NextDelayMs(streak + 1, floorMs, capMs) < capMs ==>
              NextDelayMs(streak + 1, floorMs, capMs) == 2 * NextDelayMs(streak, floorMs, capMs)
    ensures NextDelayMs(0, floorMs, capMs) == floorMs && NextDelayMs(1, floorMs, capMs) == if floorMs <= capMs then floorMs else capMs
  {
    assert floorMs * Pow2(streak) == 2 * (floorMs * Pow2(streak - 1));
  }

  /** A retry is faster than the floor exactly when something has failed and the
      configured floor is above the backoff cap. */
  lemma {:induction false} RetryFasterThanFloorExactly(streak: nat, floorMs: nat, capMs: nat)
    ensures NextDelayMs(streak, floorMs, capMs) < floorMs <==> streak > 0 && floorMs > capMs
  {
    if streak > 0 {
      AtLeastOnce(floorMs, streak - 1);
    }
  }

  lemma {:induction false} AtLeastOnce(floorMs: nat, n: nat)
    ensures floorMs <= floorMs * Pow2(n)
  {
    if n > 0 {
      AtLeastOnce(floorMs, n - 1);
      assert floorMs * Pow2(n) == 2 * (floorMs * Pow2(n - 1));
    }
  }

  // ----- the far store -----

  function PutSnapshot(m: Mirror, doc: Doc, w: Write): Mirror {
    if w == Refused then m else m.(snapshot := Some(doc))
  }

  function PutDetail(m: Mirror, d: Detail, w: Write): Mirror {
    if w == Refused then m else m.(docs := m.docs[d.task := d.doc])
  }

  // ----- the task details of one publish -----

  datatype Ledger = Ledger(hashes: map<TaskId, Hash>, mirror: Mirror)

  function OneDetail(fp: Fingerprint, l: Ledger, d: Detail, w: Write): Ledger {
    if d.task in l.hashes && l.hashes[d.task] == fp(d.doc) then l
    else Ledger(if w == Accepted then l.hashes[d.task := fp(d.doc)] else l.hashes, PutDetail(l.mirror, d, w))
  }

  function WriteAt(writes: seq<Write>, i: nat): Write {
    if i < |writes| then writes[i] else Accepted
  }

  function AllDetails(fp: Fingerprint, l: Ledger, details: seq<Detail>, writes: seq<Write>): Ledger {
    if details == [] then l
    else
      var n := |details| - 1;
      OneDetail(fp, AllDetails(fp, l, details[..n], writes), details[n], WriteAt(writes, n))
  }

  /** Every remembered fingerprint is that of the document the store holds. */
  ghost predicate Coherent(fp: Fingerprint, l: Ledger) {
    forall t :: t in l.hashes ==> t in l.mirror.docs && fp(l.mirror.docs[t]) == l.hashes[t]
  }

  /** Exactly when one detail breaks coherence: the write took effect unheard
      and an older version is remembered. */
  lemma {:induction false} DetailCoherence(fp: Fingerprint, l: Ledger, d: Detail, w: Write)
    requires Coherent(fp, l)
    ensures Coherent(fp, OneDetail(fp, l, d, w)) <==> !OverwritesUnheard(fp, l, d, w)
  {
    var l' := OneDetail(fp, l, d, w);
    if OverwritesUnheard(fp, l, d, w) {
      assert d.task in l'.hashes && l'.mirror.docs[d.task] == d.doc;
    }
  }

  ghost predicate AllHeard(writes: seq<Write>) {
    forall i :: 0 <= i < |writes| ==> writes[i] != Unheard
  }

  lemma {:induction false} DetailsCoherence(fp: Fingerprint, l: Ledger, details: seq<Detail>, writes: seq<Write>)
    requires Coherent(fp, l) && AllHeard(writes)
    ensures Coherent(fp, AllDetails(fp, l, details, writes))
  {
    if details != [] {
      var n := |details| - 1;
      DetailsCoherence(fp, l, details[..n], writes);
      DetailCoherence(fp, AllDetails(fp, l, details[..n], writes), details[n], WriteAt(writes, n));
    }
  }

  /** The current detail of a task: the last one given for it. */
  function Current(details: seq<Detail>, t: TaskId): Option<Doc> {
    if details == [] then None
    else
      var last := details[|details| - 1];
      if last.task == t then Some(last.doc) else Current(details[..|details| - 1], t)
  }

  /** After a publish whose writes all succeed, the store agrees with every
      current detail, although unchanged ones were never sent; and tasks without
      a detail keep the document they had. */
  lemma {:induction false} AllAcceptedMeansCurrent(fp: Fingerprint, l: Ledger, details: seq<Detail>, writes: seq<Write>, t: TaskId)
    requires Coherent(fp, l)
    requires forall i :: 0 <= i < |details| ==> WriteAt(writes, i) == Accepted
    ensures var l' := AllDetails(fp, l, details, writes);
            && Coherent(fp, l')
            && (Current(details, t).Some? ==> At(l'.hashes, t) == Some(fp(Current(details, t).value)))
            && (Current(details, t).None? ==> At(l'.mirror.docs, t) == At(l.mirror.docs, t))
  {
    if details != [] {
      var n := |details| - 1;
      AllAcceptedMeansCurrent(fp, l, details[..n], writes, t);
      AllAcceptedMeansCurrent(fp, l, details[..n], writes, details[n].task);
      DetailCoherence(fp, AllDetails(fp, l, details[..n], writes), details[n], WriteAt(writes, n));
    }
  }

  /** Whatever becomes of the other details: a task all of whose writes were
      accepted is current afterwards, in the store as in what is remembered, and
      one without a detail is as it was. */
  lemma {:induction false} TaskIsCurrent(fp: Fingerprint, l: Ledger, details: seq<Detail>, writes: seq<Write>, t: TaskId)
    requires forall i :: 0 <= i < |details| && details[i].task == t ==> WriteAt(writes, i) == Accepted
    requires t in l.hashes ==> t in l.mirror.docs && fp(l.mirror.docs[t]) == l.hashes[t]
    ensures var l' := AllDetails(fp, l, details, writes);
            match Current(details, t)
            case None => At(l'.hashes, t) == At(l.hashes, t) && At(l'.mirror.docs, t) == At(l.mirror.docs, t)
            case Some(doc) => At(l'.hashes, t) == Some(fp(doc)) && t in l'.mirror.docs && fp(l'.mirror.docs[t]) == fp(doc)
  {
    if details != [] { TaskIsCurrent(fp, l, details[..|details| - 1], writes, t); }
  }

  /** A publish that refuses every write for a task leaves it as it was, both in
      the store and in what is remembered of it. */
  lemma {:induction false} RefusedChangesNothing(fp: Fingerprint, l: Ledger, details: seq<Detail>, writes: seq<Write>, t: TaskId)
    requires forall i :: 0 <= i < |details| && details[i].task == t ==> WriteAt(writes, i) == Refused
    ensures var l' := AllDetails(fp, l, details, writes);
            At(l'.hashes, t) == At(l.hashes, t) && At(l'.mirror.docs, t) == At(l.mirror.docs, t)
  {
    if details != [] { RefusedChangesNothing(fp, l, details[..|details| - 1], writes, t); }
  }

  /** One detail's write takes effect unheard, over an older version that is remembered. */
  predicate OverwritesUnheard(fp: Fingerprint, l: Ledger, d: Detail, w: Write) {
    w == Unheard && d.task in l.hashes && l.hashes[d.task] != fp(d.doc)
  }

  ghost predicate NoneUnheardOver(fp: Fingerprint, l: Ledger, details: seq<Detail>, writes: seq<Write>) {
    forall j :: 0 <= j < |details| ==> !OverwritesUnheard(fp, AllDetails(fp, l, details[..j], writes), details[j], WriteAt(writes, j))
  }

  ghost predicate CoherentThrough(fp: Fingerprint, l: Ledger, details: seq<Detail>, writes: seq<Write>) {
    forall j :: 0 <= j <= |details| ==> Coherent(fp, AllDetails(fp, l, details[..j], writes))
  }

  lemma {:induction false} DetailsCoherentExactly(fp: Fingerprint, l: Ledger, details: seq<Detail>, writes: seq<Write>)
    requires Coherent(fp, l)
    ensures CoherentThrough(fp, l, details, writes) <==> NoneUnheardOver(fp, l, details, writes)
  {
    if CoherentThrough(fp, l, details, writes) {
      forall j | 0 <= j < |details|
        ensures !OverwritesUnheard(fp, AllDetails(fp, l, details[..j], writes), details[j], WriteAt(writes, j))
      {
        OneMoreDetail(fp, l, details, writes, j);
        DetailCoherence(fp, AllDetails(fp, l, details[..j], writes), details[j], WriteAt(writes, j));
        assert Coherent(fp, AllDetails(fp, l, details[..j + 1], writes));
      }
    }
    if NoneUnheardOver(fp, l, details, writes) {
      forall j | 0 <= j <= |details| ensures Coherent(fp, AllDetails(fp, l, details[..j], writes)) {
        StaysCoherent(fp, l, details, writes, j);
      }
    }
  }

  lemma {:induction false} OneMoreDetail(fp: Fingerprint, l: Ledger, details: seq<Detail>, writes: seq<Write>, j: nat)
    requires j < |details|
    ensures AllDetails(fp, l, details[..j + 1], writes) == OneDetail(fp, AllDetails(fp, l, details[..j], writes), details[j], WriteAt(writes, j))
  {
    assert details[..j + 1][..j] == details[..j];
  }

  lemma {:induction false} StaysCoherent(fp: Fingerprint, l: Ledger, details: seq<Detail>, writes: seq<Write>, j: nat)
    requires Coherent(fp, l) && NoneUnheardOver(fp, l, details, writes) && j <= |details|
    ensures Coherent(fp, AllDetails(fp, l, details[..j], writes))
  {
    if j > 0 {
      StaysCoherent(fp, l, details, writes, j - 1);
      OneMoreDetail(fp, l, details, writes, j - 1);
      DetailCoherence(fp, AllDetails(fp, l, details[..j - 1], writes), details[j - 1], WriteAt(writes, j - 1));
    }
  }

  // ----- the publisher's own state -----

  datatype State = State(lastHash: Option<Hash>, lastAt: Option<int>, streak: nat, firstFailureAt: Option<int>)

  const Idle := State(None, None, 0, None)

  datatype World = World(state: State, ledger: Ledger)

  /** attempt() */
  function Try(fp: Fingerprint, heartbeatMs: int, w: World, a: Attempt): (World, Outcome) {
    match a.snapshot
    case None => (w, BuildFailed)
    case Some(doc) =>
      if !ShouldPublish(fp(doc), w.state.lastHash, w.state.lastAt, a.at, heartbeatMs) then (w, Skipped)
      else
        var l := w.ledger.(mirror := PutSnapshot(w.ledger.mirror, doc, a.write));
        if a.write == Accepted then (w.(ledger := AllDetails(fp, l, a.details, a.writes)), Sent(true))
        else (w.(ledger := l), Sent(false))
  }

  /** One pass of loop(). */
  function Tick(fp: Fingerprint, heartbeatMs: int, w: World, a: Attempt): World {
    var (w', outcome) := Try(fp, heartbeatMs, w, a);
    var s := if outcome == Sent(true) then w'.state.(lastHash := Some(fp(a.snapshot.value)), lastAt := Some(a.after)) else w'.state;
    if Ok(outcome) then w'.(state := s.(streak := 0, firstFailureAt := None))
    else w'.(state := s.(streak := s.streak + 1, firstFailureAt := if s.firstFailureAt.None? then Some(a.after) else s.firstFailureAt))
  }

  function Ticks(fp: Fingerprint, heartbeatMs: int, w: World, attempts: seq<Attempt>): World {
    if attempts == [] then w
    else Tick(fp, heartbeatMs, Ticks(fp, heartbeatMs, w, attempts[..|attempts| - 1]), attempts[|attempts| - 1])
  }

  function OutcomeAt(fp: Fingerprint, heartbeatMs: int, w: World, attempts: seq<Attempt>, i: nat): Outcome
    requires i < |attempts|
  {
    Try(fp, heartbeatMs, Ticks(fp, heartbeatMs, w, attempts[..i]), attempts[i]).1
  }

  // ----- the code, updating its state record and its Map -----

  class HqPublisher {
    const fp: Fingerprint
    const heartbeatMs: int
    var lastHash: Option<Hash>
    var lastAt: Option<int>
    var failureStreak: nat
    var firstFailureAt: Option<int>
    var taskHashes: map<TaskId, Hash>
    /** The far store. */
    var mirror: Mirror

    function Now(): World
      reads this
    {
      World(State(lastHash, lastAt, failureStreak, firstFailureAt), Ledger(taskHashes, mirror))
    }

    constructor (fp: Fingerprint, heartbeatMs: int, mirror: Mirror)
      ensures this.fp == fp && this.heartbeatMs == heartbeatMs
      ensures Now() == World(Idle, Ledger(map[], mirror))
    {
      this.fp, this.heartbeatMs, this.mirror := fp, heartbeatMs, mirror;
      lastHash, lastAt, failureStreak, firstFailureAt, taskHashes := None, None, 0, None, map[];
    }

    method Attempt(a: Attempt) returns (outcome: Outcome)
      modifies this
      ensures (Now(), outcome) == Try(fp, heartbeatMs, old(Now()), a)
    {
      if a.snapshot.None? { return BuildFailed; }
      var hash := fp(a.snapshot.value);
      if !ShouldPublish(hash, lastHash, lastAt, a.at, heartbeatMs) { return Skipped; }
      mirror := PutSnapshot(mirror, a.snapshot.value, a.write);
      if a.write != Accepted { return Sent(false); }
      ghost var l := Ledger(taskHashes, mirror);
      for i := 0 to |a.details|
        invariant Ledger(taskHashes, mirror) == AllDetails(fp, l, a.details[..i], a.writes)
        invariant lastHash == old(lastHash) && lastAt == old(lastAt)
        invariant failureStreak == old(failureStreak) && firstFailureAt == old(firstFailureAt)
      {
        var d := a.details[i];
        assert a.details[..i + 1][..i] == a.details[..i];
        if !(d.task in taskHashes && taskHashes[d.task] == fp(d.doc)) {
          mirror := PutDetail(mirror, d, WriteAt(a.writes, i));
          if WriteAt(a.writes, i) == Accepted { taskHashes := taskHashes[d.task := fp(d.doc)]; }
        }
      }
      assert a.details[..|a.details|] == a.details;
      return Sent(true);
    }

    method Pass(a: Attempt)
      modifies this
      ensures Now() == Tick(fp, heartbeatMs, old(Now()), a)
      ensures var due := a.snapshot.Some? &&
                (old(lastHash).None? || old(lastAt).None? || fp(a.snapshot.value) != old(lastHash).value
                 || a.at - old(lastAt).value >= heartbeatMs);
              var failed := a.snapshot.None? || (due && a.write != Accepted);
              && failureStreak == (if failed then old(failureStreak) + 1 else 0)
              && firstFailureAt == (if !failed then None else if old(firstFailureAt).Some? then old(firstFailureAt) else Some(a.after))
              && (if due && !failed then lastHash == Some(fp(a.snapshot.value)) && lastAt == Some(a.after)
                  else lastHash == old(lastHash) && lastAt == old(lastAt))
    {
      var outcome := Attempt(a);
      if outcome == Sent(true) {
        lastHash, lastAt := Some(fp(a.snapshot.value)), Some(a.after);
      }
      if Ok(outcome) {
        failureStreak, firstFailureAt := 0, None;
      } else {
        failureStreak := failureStreak + 1;
        if firstFailureAt.None? { firstFailureAt := Some(a.after); }
      }
    }

    method Loop(attempts: seq<Attempt>)
      modifies this
      ensures Now() == Ticks(fp, heartbeatMs, old(Now()), attempts)
    {
      for i := 0 to |attempts|
        invariant Now() == Ticks(fp, heartbeatMs, old(Now()), attempts[..i])
      {
        assert attempts[..i + 1][..i] == attempts[..i];
        Pass(attempts[i]);
      }
      assert attempts[..|attempts|] == attempts;
    }
  }

  // ----- whole runs -----

  ghost predicate SnapshotCoherent(fp: Fingerprint, w: World) {
    w.state.lastHash.Some? ==>
      w.ledger.mirror.snapshot.Some? && fp(w.ledger.mirror.snapshot.value) == w.state.lastHash.value
  }

  ghost predicate Heard(a: Attempt) {
    a.write != Unheard && AllHeard(a.writes)
  }

  /** If every write that is reported failed left the store alone, what the
      publisher remembers of the store is true after every run. */
  lemma {:induction false} CoherentForever(fp: Fingerprint, heartbeatMs: int, w: World, attempts: seq<Attempt>)
    requires Coherent(fp, w.ledger) && SnapshotCoherent(fp, w)
    requires forall i :: 0 <= i < |attempts| ==> Heard(attempts[i])
    ensures var w' := Ticks(fp, heartbeatMs, w, attempts);
            Coherent(fp, w'.ledger) && SnapshotCoherent(fp, w')
  {
    if attempts != [] {
      var n := |attempts| - 1;
      CoherentForever(fp, heartbeatMs, w, attempts[..n]);
      var v, a := Ticks(fp, heartbeatMs, w, attempts[..n]), attempts[n];
      if a.snapshot.Some? {
        var l := v.ledger.(mirror := PutSnapshot(v.ledger.mirror, a.snapshot.value, a.write));
        assert Coherent(fp, l);
        DetailsCoherence(fp, l, a.details, a.writes);
        DetailsKeepSnapshot(fp, l, a.details, a.writes);
      }
    }
  }

  lemma {:induction false} DetailsKeepSnapshot(fp: Fingerprint, l: Ledger, details: seq<Detail>, writes: seq<Write>)
    ensures AllDetails(fp, l, details, writes).mirror.snapshot == l.mirror.snapshot
  {
    if details != [] { DetailsKeepSnapshot(fp, l, details[..|details| - 1], writes); }
  }

  /** There is something to send: a snapshot, if one is built, whose content is
      not the content last published, or that was published a heartbeat ago. */
  predicate Due(fp: Fingerprint, heartbeatMs: int, start: State, last: Option<Attempt>, a: Attempt) {
    a.snapshot.None? ||
    match last
    case Some(b) => b.snapshot.None? || fp(a.snapshot.value) != fp(b.snapshot.value) || a.at - b.after >= heartbeatMs
    case None =>
      start.lastHash.None? || start.lastAt.None?
      || fp(a.snapshot.value) != start.lastHash.value || a.at - start.lastAt.value >= heartbeatMs
  }

  /** The last attempt of the run that was due, and sent, and accepted. */
  function LastSent(fp: Fingerprint, heartbeatMs: int, start: State, attempts: seq<Attempt>): Option<Attempt> {
    if attempts == [] then None
    else
      var a, before := attempts[|attempts| - 1], LastSent(fp, heartbeatMs, start, attempts[..|attempts| - 1]);
      if a.snapshot.Some? && a.write == Accepted && Due(fp, heartbeatMs, start, before, a) then Some(a) else before
  }

  /** An attempt fails exactly when no snapshot was built, or one was, was due,
      and its write was not accepted. */
  predicate Fails(fp: Fingerprint, heartbeatMs: int, start: State, before: seq<Attempt>, a: Attempt) {
    a.snapshot.None? || (Due(fp, heartbeatMs, start, LastSent(fp, heartbeatMs, start, before), a) && a.write != Accepted)
  }

  /** Which attempts of a run publish, which are skipped: an attempt whose
      snapshot could be built and whose write is accepted publishes exactly when
      its content differs from the last one published, or that was a heartbeat
      ago; it is skipped exactly when neither holds. */
  lemma {:induction false} PublishesExactly(fp: Fingerprint, heartbeatMs: int, w: World, attempts: seq<Attempt>, i: nat)
    requires i < |attempts|
    ensures var a, last := attempts[i], LastSent(fp, heartbeatMs, w.state, attempts[..i]);
            && (OutcomeAt(fp, heartbeatMs, w, attempts, i) == Sent(true) <==>
                  a.snapshot.Some? && a.write == Accepted && Due(fp, heartbeatMs, w.state, last, a))
            && (OutcomeAt(fp, heartbeatMs, w, attempts, i) == Skipped <==>
                  a.snapshot.Some? && !Due(fp, heartbeatMs, w.state, last, a))
  {
    LastPublishIsRemembered(fp, heartbeatMs, w, attempts[..i]);
  }

  /** After a skip the store holds a snapshot with the content just built, published
      less than a heartbeat before. Task details are another matter: a skipped
      attempt does not look at them, whatever they are. */
  lemma {:induction false} SkippedIsCurrent(fp: Fingerprint, heartbeatMs: int, w: World, attempts: seq<Attempt>, i: nat)
    requires w.state == Idle && Coherent(fp, w.ledger) && i < |attempts|
    requires forall j :: 0 <= j < i ==> Heard(attempts[j])
    requires OutcomeAt(fp, heartbeatMs, w, attempts, i) == Skipped
    ensures var before := Ticks(fp, heartbeatMs, w, attempts[..i]);
            && before.ledger.mirror.snapshot.Some? && attempts[i].snapshot.Some?
            && fp(before.ledger.mirror.snapshot.value) == fp(attempts[i].snapshot.value)
            && LastSent(fp, heartbeatMs, w.state, attempts[..i]).Some?
            && attempts[i].at - LastSent(fp, heartbeatMs, w.state, attempts[..i]).value.after < heartbeatMs
            && Tick(fp, heartbeatMs, before, attempts[i]).ledger == before.ledger
  {
    PublishesExactly(fp, heartbeatMs, w, attempts, i);
    LastPublishIsRemembered(fp, heartbeatMs, w, attempts[..i]);
    CoherentForever(fp, heartbeatMs, w, attempts[..i]);
  }

  ghost predicate NonePublishes(fp: Fingerprint, heartbeatMs: int, w: World, attempts: seq<Attempt>) {
    forall i :: 0 <= i < |attempts| ==> OutcomeAt(fp, heartbeatMs, w, attempts, i) != Sent(true)
  }

  /** Between two publishes no detail is offered, changed or refused though it be. */
  lemma {:induction false} OnlyPublishingOffers(fp: Fingerprint, heartbeatMs: int, w: World, attempts: seq<Attempt>)
    requires NonePublishes(fp, heartbeatMs, w, attempts)
    ensures var w' := Ticks(fp, heartbeatMs, w, attempts);
            w'.ledger.hashes == w.ledger.hashes && w'.ledger.mirror.docs == w.ledger.mirror.docs
  {
    if attempts != [] {
      var n := |attempts| - 1;
      forall i | 0 <= i < n ensures OutcomeAt(fp, heartbeatMs, w, attempts[..n], i) == OutcomeAt(fp, heartbeatMs, w, attempts, i) {
        assert attempts[..n][..i] == attempts[..i];
      }
      OnlyPublishingOffers(fp, heartbeatMs, w, attempts[..n]);
      assert OutcomeAt(fp, heartbeatMs, w, attempts, n) != Sent(true);
    }
  }

  /** A detail the store lacks, because it changed or was refused, waits for the
      next attempt that publishes, and with its writes accepted is there after it.
      When that is, `PublishesExactly` says. */
  lemma {:induction false} OutstandingUntilPublished(fp: Fingerprint, heartbeatMs: int, w: World, waiting: seq<Attempt>, a: Attempt, t: TaskId)
    requires Coherent(fp, w.ledger) && NonePublishes(fp, heartbeatMs, w, waiting)
    requires Try(fp, heartbeatMs, Ticks(fp, heartbeatMs, w, waiting), a).1 == Sent(true)
    requires forall i :: 0 <= i < |a.details| ==> WriteAt(a.writes, i) == Accepted
    ensures var before, after := Ticks(fp, heartbeatMs, w, waiting), Ticks(fp, heartbeatMs, w, waiting + [a]);
            && before.ledger.mirror.docs == w.ledger.mirror.docs
            && (Current(a.details, t).Some? ==>
                  t in after.ledger.mirror.docs && fp(after.ledger.mirror.docs[t]) == fp(Current(a.details, t).value))
            && (Current(a.details, t).None? ==> At(after.ledger.mirror.docs, t) == At(w.ledger.mirror.docs, t))
  {
    OnlyPublishingOffers(fp, heartbeatMs, w, waiting);
    assert (waiting + [a])[..|waiting|] == waiting;
    var before := Ticks(fp, heartbeatMs, w, waiting);
    var l := before.ledger.(mirror := PutSnapshot(before.ledger.mirror, a.snapshot.value, a.write));
    assert Coherent(fp, l);
    AllAcceptedMeansCurrent(fp, l, a.details, a.writes, t);
  }

  // ----- exactly when what is remembered is true -----

  /** Nothing that the attempt publishes is an unheard write over an older version. */
  ghost predicate CarefulAttempt(fp: Fingerprint, heartbeatMs: int, w: World, a: Attempt) {
    Try(fp, heartbeatMs, w, a).1 == Sent(true) ==>
      NoneUnheardOver(fp, w.ledger.(mirror := PutSnapshot(w.ledger.mirror, a.snapshot.value, a.write)), a.details, a.writes)
  }

  /** Every fingerprint remembered is true at every moment of the attempt. */
  ghost predicate CoherentAttempt(fp: Fingerprint, heartbeatMs: int, w: World, a: Attempt) {
    && Coherent(fp, w.ledger)
    && (Try(fp, heartbeatMs, w, a).1 == Sent(true) ==>
          CoherentThrough(fp, w.ledger.(mirror := PutSnapshot(w.ledger.mirror, a.snapshot.value, a.write)), a.details, a.writes))
  }

  lemma {:induction false} AttemptCoherentExactly(fp: Fingerprint, heartbeatMs: int, w: World, a: Attempt)
    requires Coherent(fp, w.ledger)
    ensures CoherentAttempt(fp, heartbeatMs, w, a) <==> CarefulAttempt(fp, heartbeatMs, w, a)
    ensures CarefulAttempt(fp, heartbeatMs, w, a) ==> Coherent(fp, Tick(fp, heartbeatMs, w, a).ledger)
  {
    if Try(fp, heartbeatMs, w, a).1 == Sent(true) {
      var l := w.ledger.(mirror := PutSnapshot(w.ledger.mirror, a.snapshot.value, a.write));
      DetailsCoherentExactly(fp, l, a.details, a.writes);
      assert a.details[..|a.details|] == a.details;
    }
  }

  ghost predicate AlwaysCareful(fp: Fingerprint, heartbeatMs: int, w: World, attempts: seq<Attempt>) {
    attempts == [] ||
    (var n := |attempts| - 1;
     AlwaysCareful(fp, heartbeatMs, w, attempts[..n])
     && CarefulAttempt(fp, heartbeatMs, Ticks(fp, heartbeatMs, w, attempts[..n]), attempts[n]))
  }

  ghost predicate AlwaysCoherent(fp: Fingerprint, heartbeatMs: int, w: World, attempts: seq<Attempt>) {
    attempts == [] ||
    (var n := |attempts| - 1;
     AlwaysCoherent(fp, heartbeatMs, w, attempts[..n])
     && CoherentAttempt(fp, heartbeatMs, Ticks(fp, heartbeatMs, w, attempts[..n]), attempts[n]))
  }

  /** At every moment of a run each remembered fingerprint is that of the document
      the store holds, exactly when no attempt sends a detail whose write takes
      effect unheard over an older version that is remembered. */
  lemma {:induction false} CoherentExactly(fp: Fingerprint, heartbeatMs: int, w: World, attempts: seq<Attempt>)
    requires Coherent(fp, w.ledger)
    ensures AlwaysCoherent(fp, heartbeatMs, w, attempts) <==> AlwaysCareful(fp, heartbeatMs, w, attempts)
    ensures AlwaysCareful(fp, heartbeatMs, w, attempts) ==> Coherent(fp, Ticks(fp, heartbeatMs, w, attempts).ledger)
  {
    if attempts != [] {
      var n := |attempts| - 1;
      CoherentExactly(fp, heartbeatMs, w, attempts[..n]);
      if AlwaysCareful(fp, heartbeatMs, w, attempts[..n]) {
        AttemptCoherentExactly(fp, heartbeatMs, Ticks(fp, heartbeatMs, w, attempts[..n]), attempts[n]);
      }
    }
  }

  /** The attempt's snapshot takes effect unheard over another one that is remembered. */
  predicate SnapshotUnheardOver(fp: Fingerprint, w: World, a: Attempt) {
    && a.snapshot.Some? && a.write == Unheard && w.state.lastHash.Some? && fp(a.snapshot.value) != w.state.lastHash.value
  }

  ghost predicate SnapshotAlwaysTrue(fp: Fingerprint, heartbeatMs: int, w: World, attempts: seq<Attempt>) {
    && SnapshotCoherent(fp, Ticks(fp, heartbeatMs, w, attempts))
    && (attempts == [] || SnapshotAlwaysTrue(fp, heartbeatMs, w, attempts[..|attempts| - 1]))
  }

  ghost predicate NoSnapshotUnheardOver(fp: Fingerprint, heartbeatMs: int, w: World, attempts: seq<Attempt>) {
    attempts == [] ||
    (var n := |attempts| - 1;
     NoSnapshotUnheardOver(fp, heartbeatMs, w, attempts[..n])
     && !SnapshotUnheardOver(fp, Ticks(fp, heartbeatMs, w, attempts[..n]), attempts[n]))
  }

  /** The same for the snapshot: after every attempt of a run the remembered
      fingerprint is that of the stored snapshot exactly when no other snapshot's
      write takes effect unheard. */
  lemma {:induction false} SnapshotCoherentExactly(fp: Fingerprint, heartbeatMs: int, w: World, attempts: seq<Attempt>)
    requires SnapshotCoherent(fp, w)
    ensures SnapshotAlwaysTrue(fp, heartbeatMs, w, attempts) <==> NoSnapshotUnheardOver(fp, heartbeatMs, w, attempts)
  {
    if attempts != [] {
      var n := |attempts| - 1;
      SnapshotCoherentExactly(fp, heartbeatMs, w, attempts[..n]);
      if SnapshotAlwaysTrue(fp, heartbeatMs, w, attempts[..n]) {
        SnapshotStepExactly(fp, heartbeatMs, Ticks(fp, heartbeatMs, w, attempts[..n]), attempts[n]);
      }
    }
  }

  lemma {:induction false} SnapshotStepExactly(fp: Fingerprint, heartbeatMs: int, w: World, a: Attempt)
    requires SnapshotCoherent(fp, w)
    ensures SnapshotCoherent(fp, Tick(fp, heartbeatMs, w, a)) <==> !SnapshotUnheardOver(fp, w, a)
  {
    if a.snapshot.Some? {
      DetailsKeepSnapshot(fp, w.ledger.(mirror := PutSnapshot(w.ledger.mirror, a.snapshot.value, a.write)), a.details, a.writes);
    }
  }

  /** How many attempts at the end of the run failed, one after the other. */
  function Trailing(fp: Fingerprint, heartbeatMs: int, start: State, attempts: seq<Attempt>): nat {
    if attempts == [] || !Fails(fp, heartbeatMs, start, attempts[..|attempts| - 1], attempts[|attempts| - 1]) then 0
    else Trailing(fp, heartbeatMs, start, attempts[..|attempts| - 1]) + 1
  }

  lemma {:induction false} TrailingIsShort(fp: Fingerprint, heartbeatMs: int, start: State, attempts: seq<Attempt>)
    ensures Trailing(fp, heartbeatMs, start, attempts) <= |attempts|
  {
    if attempts != [] { TrailingIsShort(fp, heartbeatMs, start, attempts[..|attempts| - 1]); }
  }

  /** The streak counts the trailing failures, so it is zero exactly when the last
      attempt, if any, was skipped or accepted; and the first-failure time is set
      exactly while there are any, to the moment the first of them was noted. */
  lemma {:induction false} StreakCountsTrailingFailures(fp: Fingerprint, heartbeatMs: int, w: World, attempts: seq<Attempt>)
    requires w.state.streak == 0 && w.state.firstFailureAt == None
    ensures var s := Ticks(fp, heartbeatMs, w, attempts).state;
            var k := Trailing(fp, heartbeatMs, w.state, attempts);
            && s.streak == k
            && (s.firstFailureAt.Some? <==> k > 0)
            && k <= |attempts|
            && (k > 0 ==> s.firstFailureAt == Some(attempts[|attempts| - k].after))
    ensures Ticks(fp, heartbeatMs, w, attempts).state.streak == 0 <==>
              attempts == [] ||
              (var front, a := attempts[..|attempts| - 1], attempts[|attempts| - 1];
               a.snapshot.Some? && (a.write == Accepted || !Due(fp, heartbeatMs, w.state, LastSent(fp, heartbeatMs, w.state, front), a)))
  {
    TrailingIsShort(fp, heartbeatMs, w.state, attempts);
    if attempts != [] {
      var front := attempts[..|attempts| - 1];
      TrailingIsShort(fp, heartbeatMs, w.state, front);
      StreakCountsTrailingFailures(fp, heartbeatMs, w, front);
      PublishesExactly(fp, heartbeatMs, w, attempts, |attempts| - 1);
      TryKeepsState(fp, heartbeatMs, Ticks(fp, heartbeatMs, w, front), attempts[|attempts| - 1]);
    }
  }

  /** What the next decision is made against is the last accepted publish: its
      fingerprint, and the moment it was noted. */
  lemma {:induction false} LastPublishIsRemembered(fp: Fingerprint, heartbeatMs: int, w: World, attempts: seq<Attempt>)
    ensures var s := Ticks(fp, heartbeatMs, w, attempts).state;
            var last := LastSent(fp, heartbeatMs, w.state, attempts);
            && (last.Some? ==> last.value.snapshot.Some?)
            && (s.lastHash, s.lastAt) ==
               if last.None? then (w.state.lastHash, w.state.lastAt) else (Some(fp(last.value.snapshot.value)), Some(last.value.after))
  {
    if attempts != [] {
      var front := attempts[..|attempts| - 1];
      LastPublishIsRemembered(fp, heartbeatMs, w, front);
      TryKeepsState(fp, heartbeatMs, Ticks(fp, heartbeatMs, w, front), attempts[|attempts| - 1]);
    }
  }

  lemma {:induction false} TryKeepsState(fp: Fingerprint, heartbeatMs: int, w: World, a: Attempt)
    ensures Try(fp, heartbeatMs, w, a).0.state == w.state
  {
  }

  /** A detail write that took effect unheard can leave the mirror wrong for as
      long as the task stays as it was before: the store keeps the version in
      between, through any run, because the version it should hold is taken for
      published. */
  lemma {:induction false} UnheardWriteSticks(fp: Fingerprint, heartbeatMs: int, w: World, attempts: seq<Attempt>, t: TaskId, now: Doc, between: Doc)
    requires Coherent(fp, w.ledger) && At(w.ledger.hashes, t) == Some(fp(now)) && fp(between) != fp(now)
    requires forall i, d :: 0 <= i < |attempts| && d in attempts[i].details && d.task == t ==> fp(d.doc) == fp(now)
    ensures var unheard := w.(ledger := OneDetail(fp, w.ledger, Detail(t, between), Unheard));
            var l := Ticks(fp, heartbeatMs, unheard, attempts).ledger;
            At(l.mirror.docs, t) == Some(between) && At(l.hashes, t) == Some(fp(now))
  {
    if attempts != [] {
      var n := |attempts| - 1;
      UnheardWriteSticks(fp, heartbeatMs, w, attempts[..n], t, now, between);
      var before := Ticks(fp, heartbeatMs, w.(ledger := OneDetail(fp, w.ledger, Detail(t, between), Unheard)), attempts[..n]);
      var a := attempts[n];
      if a.snapshot.Some? {
        SameVersionIsSkipped(fp, before.ledger.(mirror := PutSnapshot(before.ledger.mirror, a.snapshot.value, a.write)), a.details, a.writes, t);
      }
    }
  }

  lemma {:induction false} SameVersionIsSkipped(fp: Fingerprint, l: Ledger, details: seq<Detail>, writes: seq<Write>, t: TaskId)
    requires t in l.hashes && t in l.mirror.docs && forall d :: d in details && d.task == t ==> fp(d.doc) == l.hashes[t]
    ensures var l' := AllDetails(fp, l, details, writes);
            At(l'.hashes, t) == At(l.hashes, t) && At(l'.mirror.docs, t) == At(l.mirror.docs, t)
  {
    if details != [] {
      var n := |details| - 1;
      assert forall d :: d in details[..n] ==> d in details;
      SameVersionIsSkipped(fp, l, details[..n], writes, t);
      assert details[n] in details;
    }
  }
}
