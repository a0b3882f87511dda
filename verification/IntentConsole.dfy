/** The founder's console over the intent queue: `submitIntent`, `watchIntent`
    and the `pendingIntents` map of control-plane/public/app.js. Any number of
    presses, POSTs and watchers run at once, over any run of the queue. */
module IntentConsole {
  import opened Collections
  import opened IntentQueue

  type PostId = nat
  type Key = string

  datatype Post = Sending(key: Key) | Accepted(key: Key, id: Id) | Closed

  /** What a key shows. */
  datatype Shown = Queued | Waiting | ShownDone | ShownFailed | Slow

  /** `sights` are poll replies on their way that list the intent; `owner`
      remembers under which key an id was submitted. */
  datatype Desk = Desk(posts: map<PostId, Post>, shown: map<Key, Shown>, watches: set<(Key, Id)>,
                       sights: map<(Key, Id), Status>, owner: map<Id, Key>)

  datatype System = System(queue: Queue, desk: Desk)

  const Opening := System(Start, Desk(map[], map[], {}, map[], map[]))

  datatype Event =
    | Elsewhere(step: Step)              // the queue moves on
    | Press(post: PostId, key: Key)
    | Accept(post: PostId, id: Id)       // the endpoint enqueues
    | Answer(post: PostId)               // its 202 arrives, with the id
    | AnswerUnreadable(post: PostId)     // its 202 arrives without one
    | Refuse(post: PostId)               // an error status, or no reply at all
    | SignedOut(post: PostId)            // 401
    | Fetch(key: Key, id: Id)            // a watcher's poll is answered with a listing that has it
    | Lose(key: Key, id: Id)             // that answer never arrives
    | See(key: Key, id: Id)              // it does
    | GiveUp(key: Key, id: Id)           // a watcher has tried forty times

  predicate Possible(s: System, e: Event) {
    match e
    case Elsewhere(step) => Enabled(s.queue, step)
    case Press(post, key) => post !in s.desk.posts
    case Accept(post, id) => post in s.desk.posts && s.desk.posts[post].Sending? && Enabled(s.queue, Enqueue(id))
    case Answer(post) => post in s.desk.posts && s.desk.posts[post].Accepted?
    case AnswerUnreadable(post) => post in s.desk.posts && s.desk.posts[post].Accepted?
    case Refuse(post) => post in s.desk.posts && !s.desk.posts[post].Closed?
    case SignedOut(post) => post in s.desk.posts && s.desk.posts[post].Sending?
    case Fetch(key, id) => (key, id) in s.desk.watches && (key, id) !in s.desk.sights && id in s.queue.blobs.results
    case Lose(key, id) => (key, id) in s.desk.watches && (key, id) in s.desk.sights
    case See(key, id) => (key, id) in s.desk.watches && (key, id) in s.desk.sights
    case GiveUp(key, id) => (key, id) in s.desk.watches && (key, id) !in s.desk.sights
  }

  function Show(d: Desk, key: Key, shown: Shown): Desk {
    d.(shown := d.shown[key := shown])
  }

  function Press'(d: Desk, post: PostId, key: Key): Desk {
    if key in d.shown && d.shown[key] == Queued then d.(posts := d.posts[post := Closed])
    else Show(d.(posts := d.posts[post := Sending(key)]), key, Queued)
  }

  function Happen(s: System, e: Event): System
    requires Possible(s, e)
  {
    var d := s.desk;
    match e
    case Elsewhere(step) => s.(queue := Apply(s.queue, step))
    case Press(post, key) => s.(desk := Press'(d, post, key))
    case Accept(post, id) =>
      System(Apply(s.queue, Enqueue(id)),
             d.(owner := d.owner[id := d.posts[post].key], posts := d.posts[post := Accepted(d.posts[post].key, id)]))
    case Answer(post) =>
      s.(desk := Show(d.(posts := d.posts[post := Closed], watches := d.watches + {(d.posts[post].key, d.posts[post].id)}),
                      d.posts[post].key, Waiting))
    case AnswerUnreadable(post) => s.(desk := Show(d.(posts := d.posts[post := Closed]), d.posts[post].key, Waiting))
    case Refuse(post) => s.(desk := Show(d.(posts := d.posts[post := Closed]), d.posts[post].key, ShownFailed))
    case SignedOut(post) => s.(desk := d.(posts := d.posts[post := Closed], shown := d.shown - {d.posts[post].key}))
    case Fetch(key, id) => s.(desk := d.(sights := d.sights[(key, id) := s.queue.blobs.results[id]]))
    case Lose(key, id) => s.(desk := d.(sights := d.sights - {(key, id)}))
    case See(key, id) =>
      s.(desk := Show(d.(watches := d.watches - {(key, id)}, sights := d.sights - {(key, id)}), key,
                      if d.sights[(key, id)] == Done then ShownDone else ShownFailed))
    case GiveUp(key, id) =>
      var d' := d.(watches := d.watches - {(key, id)});
      s.(desk := if key in d.shown then Show(d', key, Slow) else d')
  }

  ghost predicate Unfolds(s: System, events: seq<Event>)
    decreases |events|
  {
    events == [] || (Possible(s, events[0]) && Unfolds(Happen(s, events[0]), events[1..]))
  }

  ghost function Outcome(s: System, events: seq<Event>): System
    requires Unfolds(s, events)
    decreases |events|
  {
    if events == [] then s else Outcome(Happen(s, events[0]), events[1..])
  }

  // ----- the console never claims more than the machine did -----

  ghost predicate OwnersKnown(s: System) {
    && (forall p :: p in s.desk.posts && s.desk.posts[p].Accepted? ==>
          s.desk.posts[p].id in s.desk.owner && s.desk.owner[s.desk.posts[p].id] == s.desk.posts[p].key)
    && (forall k, id :: (k, id) in s.desk.watches ==> id in s.desk.owner && s.desk.owner[id] == k)
    && (forall id :: id in s.desk.owner ==> id in s.queue.issued)
  }

  ghost predicate DoneUnder(s: System, key: Key) {
    exists id :: id in s.desk.owner && s.desk.owner[id] == key && DoneByMachine(s.queue, id)
  }

  ghost predicate ShownDoneIsDone(s: System) {
    forall k :: k in s.desk.shown && s.desk.shown[k] == ShownDone ==> DoneUnder(s, k)
  }

  ghost predicate SightsTrue(s: System) {
    forall k, id :: (k, id) in s.desk.sights && s.desk.sights[(k, id)] == Done ==> DoneByMachine(s.queue, id)
  }

  ghost predicate Honest(s: System) {
    Inv(s.queue) && OwnersKnown(s) && SightsTrue(s) && ShownDoneIsDone(s)
  }

  lemma {:induction false} KeepsOwners(s: System, e: Event)
    requires OwnersKnown(s) && Possible(s, e)
    ensures OwnersKnown(Happen(s, e))
    ensures forall id :: id in s.desk.owner ==> id in Happen(s, e).desk.owner && Happen(s, e).desk.owner[id] == s.desk.owner[id]
  {
  }

  lemma {:induction false} KeepsQueue(s: System, e: Event)
    requires Inv(s.queue) && Possible(s, e)
    ensures Inv(Happen(s, e).queue)
    ensures forall id :: DoneByMachine(s.queue, id) ==> DoneByMachine(Happen(s, e).queue, id)
  {
    if e.Elsewhere? || e.Accept? {
      var step := if e.Elsewhere? then e.step else Enqueue(e.id);
      StepInv(s.queue, step);
      forall id | DoneByMachine(s.queue, id) ensures DoneByMachine(Apply(s.queue, step), id) {
        StepKeepsDone(s.queue, step, id);
      }
    }
  }

  lemma {:induction false} KeepsHonest(s: System, e: Event)
    requires Honest(s) && Possible(s, e)
    ensures Honest(Happen(s, e))
  {
    KeepsOwners(s, e);
    KeepsQueue(s, e);
    var t := Happen(s, e);
    forall k, id | (k, id) in t.desk.sights && t.desk.sights[(k, id)] == Done ensures DoneByMachine(t.queue, id) {
      assert DoneByMachine(s.queue, id);
    }
    forall k | k in t.desk.shown && t.desk.shown[k] == ShownDone ensures DoneUnder(t, k) {
      if e.See? && e.key == k {
        assert DoneByMachine(t.queue, e.id) && t.desk.owner[e.id] == k;
      } else {
        assert DoneUnder(s, k);
        var id :| id in s.desk.owner && s.desk.owner[id] == k && DoneByMachine(s.queue, id);
        assert id in t.desk.owner && t.desk.owner[id] == k && DoneByMachine(t.queue, id);
      }
    }
  }

  lemma {:induction false} AlwaysHonest(s: System, events: seq<Event>)
    requires Honest(s) && Unfolds(s, events)
    ensures Honest(Outcome(s, events))
    decreases |events|
  {
    if events != [] {
      KeepsHonest(s, events[0]);
      AlwaysHonest(Happen(s, events[0]), events[1..]);
    }
  }

  /** Whatever crashes, is lost or overlaps: a key shows "done" only if some
      intent submitted under that key was queued, won by the machine, and its
      handler there ran and succeeded. */
  lemma {:induction false} DoneIsNeverALie(events: seq<Event>, key: Key)
    requires Unfolds(Opening, events)
    requires var d := Outcome(Opening, events).desk; key in d.shown && d.shown[key] == ShownDone
    ensures var s := Outcome(Opening, events);
            exists id, c :: id in s.desk.owner && s.desk.owner[id] == key && id in s.queue.issued
                         && c in s.queue.winners && c in s.queue.calls && s.queue.calls[c].id == id
                         && c in s.queue.handled && s.queue.handled[c] == Done
  {
    StartHolds();
    AlwaysHonest(Opening, events);
    var s := Outcome(Opening, events);
    assert DoneUnder(s, key);
    var id :| id in s.desk.owner && s.desk.owner[id] == key && DoneByMachine(s.queue, id);
    var c :| c in s.queue.handled && s.queue.handled[c] == Done && c in s.queue.winners && c in s.queue.calls && s.queue.calls[c].id == id;
    assert id in s.queue.issued;
  }

  /** What the listing said that a watcher of the intent fetched last, before the
      n-th event, and that has neither been lost nor seen since. */
  ghost predicate FetchedAs(events: seq<Event>, key: Key, id: Id, n: nat, status: Status)
    requires Unfolds(Opening, events)
  {
    exists m: nat :: FetchedAt(events, key, id, m, n, status)
  }

  ghost predicate FetchedAt(events: seq<Event>, key: Key, id: Id, m: nat, n: nat, status: Status)
    requires Unfolds(Opening, events)
  {
    && m < n <= |events| && events[m] == Fetch(key, id) && Unfolds(Opening, events[..m])
    && At(Outcome(Opening, events[..m]).queue.blobs.results, id) == Some(status)
    && forall k :: m < k < n ==> events[k] != Event.Lose(key, id) && events[k] != See(key, id)
  }

  lemma {:induction false} SightSteps(s: System, e: Event, key: Key, id: Id)
    requires Possible(s, e) && (key, id) in Happen(s, e).desk.sights && e != Fetch(key, id)
    ensures (key, id) in s.desk.sights && s.desk.sights[(key, id)] == Happen(s, e).desk.sights[(key, id)]
    ensures e != Event.Lose(key, id) && e != See(key, id)
  {
  }

  lemma {:induction false} SightWasFetched(events: seq<Event>, key: Key, id: Id, n: nat)
    requires Unfolds(Opening, events) && n <= |events| && Unfolds(Opening, events[..n])
    requires (key, id) in Outcome(Opening, events[..n]).desk.sights
    ensures FetchedAs(events, key, id, n, Outcome(Opening, events[..n]).desk.sights[(key, id)])
  {
    assert n > 0;
    Moment(Opening, events, n - 1);
    var status := Outcome(Opening, events[..n]).desk.sights[(key, id)];
    if events[n - 1] == Fetch(key, id) {
      assert FetchedAt(events, key, id, n - 1, n, status);
    } else {
      SightSteps(Outcome(Opening, events[..n - 1]), events[n - 1], key, id);
      SightWasFetched(events, key, id, n - 1);
      var m: nat :| FetchedAt(events, key, id, m, n - 1, status);
      assert FetchedAt(events, key, id, m, n, status);
    }
  }

  /** And a finished intent is shown: when a watcher of the key sees its intent,
      the key turns to "done" if the listing that was fetched had it as done, and
      to "failed" if it had it as anything else. */
  lemma {:induction false} SeenIsShown(events: seq<Event>, key: Key, id: Id, n: nat)
    requires Unfolds(Opening, events) && n < |events| && events[n] == See(key, id)
    ensures Unfolds(Opening, events[..n + 1])
    ensures exists status :: FetchedAs(events, key, id, n, status) &&
              At(Outcome(Opening, events[..n + 1]).desk.shown, key) == Some(if status == Done then ShownDone else ShownFailed)
  {
    Moment(Opening, events, n);
    SightWasFetched(events, key, id, n);
  }

  /** Whatever state the console is in, a watched intent with a result can be shown. */
  lemma {:induction false} WatchedCanBeShown(s: System, key: Key, id: Id)
    requires (key, id) in s.desk.watches && (key, id) !in s.desk.sights && id in s.queue.blobs.results
    ensures var more := [Fetch(key, id), See(key, id)];
            && Unfolds(s, more)
            && Outcome(s, more).desk.shown == s.desk.shown[key := if s.queue.blobs.results[id] == Done then ShownDone else ShownFailed]
  {
    var t := Happen(s, Fetch(key, id));
    assert Unfolds(Happen(t, See(key, id)), []);
    First(t, See(key, id), []);
    First(s, Fetch(key, id), [See(key, id)]);
    assert [See(key, id)] + [] == [See(key, id)];
    assert [Fetch(key, id)] + [See(key, id)] == [Fetch(key, id), See(key, id)];
  }

  /** The console's run, seen from the queue. */
  function QueueSteps(events: seq<Event>): seq<Step> {
    if events == [] then []
    else match events[0]
      case Elsewhere(step) => [step] + QueueSteps(events[1..])
      case Accept(_, id) => [Enqueue(id)] + QueueSteps(events[1..])
      case _ => QueueSteps(events[1..])
  }

  /** A console, however it behaves, drives the queue through an ordinary run
      of the queue: what IntentQueue proves of every run holds under it. */
  lemma {:induction false} ConsoleRefinesQueue(s: System, events: seq<Event>)
    requires Unfolds(s, events)
    ensures Follows(s.queue, QueueSteps(events))
    ensures After(s.queue, QueueSteps(events)) == Outcome(s, events).queue
    decreases |events|
  {
    if events != [] {
      var t := Happen(s, events[0]);
      ConsoleRefinesQueue(t, events[1..]);
      match events[0]
      case Elsewhere(step) => Prepend(s.queue, step, QueueSteps(events[1..]));
      case Accept(_, id) => Prepend(s.queue, Enqueue(id), QueueSteps(events[1..]));
      case _ =>
    }
  }

  // ----- the code, around its awaits, updating the pendingIntents map -----

  const WATCH_ATTEMPTS := 40

  datatype Reply = Created(id: Option<Id>) | ErrorStatus | SessionExpired | Unreachable
  datatype Poll = NoListing | Listing(results: map<Id, Status>)

  function EventOf(post: PostId, reply: Reply): Event {
    match reply
    case Created(Some(_)) => Answer(post)
    case Created(None) => AnswerUnreadable(post)
    case SessionExpired => SignedOut(post)
    case _ => Refuse(post)
  }

  function Shows(poll: Poll, id: Id): Option<Status> {
    if poll.Listing? && id in poll.results then Some(poll.results[id]) else None
  }

  class PendingIntents {
    var shown: map<Key, Shown>

    constructor ()
      ensures shown == map[]
    {
      shown := map[];
    }

    /** submitIntent up to its request. */
    method Submit(key: Key, ghost s: System, ghost post: PostId) returns (send: bool)
      requires shown == s.desk.shown && Possible(s, Press(post, key))
      modifies this
      ensures shown == Happen(s, Press(post, key)).desk.shown
      ensures Happen(s, Press(post, key)).desk.posts == s.desk.posts[post := if send then Sending(key) else Closed]
      ensures send <==> !(key in old(shown) && old(shown)[key] == Queued)
      ensures shown == old(shown)[key := Queued]
    {
      if key in shown && shown[key] == Queued { return false; }
      shown := shown[key := Queued];
      return true;
    }

    /** submitIntent from its reply on; the id to watch, if it came with one. */
    method Settle(key: Key, reply: Reply, ghost s: System, ghost post: PostId) returns (watch: Option<Id>)
      requires shown == s.desk.shown && Possible(s, EventOf(post, reply))
      requires s.desk.posts[post].key == key
      requires reply.Created? && reply.id.Some? ==> s.desk.posts[post].id == reply.id.value
      modifies this
      ensures shown == Happen(s, EventOf(post, reply)).desk.shown
      ensures Happen(s, EventOf(post, reply)).desk.watches == s.desk.watches + (if watch.Some? then {(key, watch.value)} else {})
      ensures Happen(s, EventOf(post, reply)).desk.posts == s.desk.posts[post := Closed]
      ensures watch == if reply.Created? then reply.id else None
      ensures forall k :: At(shown, k) ==
                if k != key then At(old(shown), k)
                else match reply
                     case Created(_) => Some(Waiting)
                     case SessionExpired => None
                     case ErrorStatus => Some(ShownFailed)
                     case Unreachable => Some(ShownFailed)
    {
      watch := None;
      match reply {
        case SessionExpired => shown := shown - {key};
        case Created(id) =>
          shown := shown[key := Waiting];
          watch := id;
        case _ => shown := shown[key := ShownFailed];
      }
    }

    /** The end of watchIntent, with what its polls found. */
    method Conclude(key: Key, id: Id, seen: Option<Status>, ghost s: System)
      requires shown == s.desk.shown && (key, id) in s.desk.watches
      requires if (key, id) in s.desk.sights then seen == Some(s.desk.sights[(key, id)]) else seen.None?
      modifies this
      ensures shown == Happen(s, if seen.Some? then See(key, id) else GiveUp(key, id)).desk.shown
      ensures var d := Happen(s, if seen.Some? then See(key, id) else GiveUp(key, id)).desk;
              d.watches == s.desk.watches - {(key, id)} && d.sights == s.desk.sights - {(key, id)} && d.posts == s.desk.posts
      ensures seen.Some? ==> shown == old(shown)[key := if seen == Some(Done) then ShownDone else ShownFailed]
      ensures seen.None? ==> shown == if key in old(shown) then old(shown)[key := Slow] else old(shown)
    {
      if seen.Some? {
        shown := shown[key := if seen.value == Done then ShownDone else ShownFailed];
      } else if key in shown {
        shown := shown[key := Slow];
      }
    }
  }

  /** The polls of watchIntent: it takes the first listing that has the intent,
      and gives up after forty without one. */
  method Watch(id: Id, polls: nat -> Poll) returns (seen: Option<Status>, tries: nat)
    ensures tries <= WATCH_ATTEMPTS
    ensures seen.Some? ==> tries > 0 && seen == Shows(polls(tries - 1), id)
    ensures forall k :: 0 <= k < (if seen.Some? then tries - 1 else tries) ==> Shows(polls(k), id).None?
    ensures seen.None? ==> tries == WATCH_ATTEMPTS
  {
    for attempt := 0 to WATCH_ATTEMPTS
      invariant forall k :: 0 <= k < attempt ==> Shows(polls(k), id).None?
    {
      var poll := polls(attempt);
      if poll.NoListing? { continue; }
      if id !in poll.results { continue; }
      return Some(poll.results[id]), attempt + 1;
    }
    return None, WATCH_ATTEMPTS;
  }

  // ----- one click, one intent? -----

  predicate OpenFor(s: System, post: PostId, key: Key) {
    post in s.desk.posts && !s.desk.posts[post].Closed? && s.desk.posts[post].key == key
  }

  /** In every state the console can reach, a key that already owns an intent
      queues another with the next press and accept exactly when it does not
      show "queued". */
  lemma {:induction false} AnotherIntentExactly(events: seq<Event>, key: Key, owned: Id, post: PostId, id: Id)
    requires Unfolds(Opening, events)
    requires var s := Outcome(Opening, events);
             && owned in s.desk.owner && s.desk.owner[owned] == key
             && post !in s.desk.posts && id !in s.queue.issued
    ensures var s := Outcome(Opening, events);
            var more := [Press(post, key), Accept(post, id)];
            && (Unfolds(s, more) <==> !(key in s.desk.shown && s.desk.shown[key] == Queued))
            && (Unfolds(s, more) ==>
                  var t := Outcome(s, more);
                  && owned != id && owned in t.desk.owner && t.desk.owner[owned] == key
                  && id in t.desk.owner && t.desk.owner[id] == key && id in t.queue.blobs.pending)
  {
    StartHolds();
    AlwaysHonest(Opening, events);
    var s := Outcome(Opening, events);
    var s1 := Happen(s, Press(post, key));
    assert [Press(post, key), Accept(post, id)][1..] == [Accept(post, id)];
    assert [Accept(post, id)][1..] == [];
    assert Unfolds(s1, [Accept(post, id)]) <==> Possible(s1, Accept(post, id));
    if Possible(s1, Accept(post, id)) {
      KeepsOwners(s, Press(post, key));
      KeepsOwners(s1, Accept(post, id));
      assert Outcome(s1, [Accept(post, id)]) == Happen(s1, Accept(post, id));
    }
  }

  /** The n-th event is a press of the key that starts a request. */
  ghost predicate SentAt(events: seq<Event>, key: Key, n: nat, post: PostId)
    requires Unfolds(Opening, events)
  {
    && n < |events| && events[n] == Press(post, key) && Unfolds(Opening, events[..n])
    && !ShowsQueued(Outcome(Opening, events[..n]), key)
  }

  predicate ShowsQueued(s: System, key: Key) { key in s.desk.shown && s.desk.shown[key] == Queued }

  /** What takes "queued" away from a key: a reply to a request of it, no reply
      at all, or a watcher of it that is done. */
  predicate Releases(s: System, e: Event, key: Key) {
    if e.See? || e.GiveUp? then e.key == key
    else (e.Answer? || e.AnswerUnreadable? || e.Refuse? || e.SignedOut?) && OpenFor(s, e.post, key)
  }

  lemma {:induction false} QueuedUntilReleased(s: System, e: Event, key: Key)
    requires Possible(s, e) && ShowsQueued(s, key) && !ShowsQueued(Happen(s, e), key)
    ensures Releases(s, e, key)
  {
  }

  ghost predicate ReleasedAt(events: seq<Event>, key: Key, n: nat)
    requires Unfolds(Opening, events)
  {
    n < |events| && Unfolds(Opening, events[..n]) && Releases(Outcome(Opening, events[..n]), events[n], key)
  }

  /** The n-th event asks, and the endpoint enqueues the ask. */
  ghost predicate Asked(events: seq<Event>, key: Key, n: nat)
    requires Unfolds(Opening, events)
  {
    exists post, id :: SentAt(events, key, n, post) && Accept(post, id) in events
  }

  ghost predicate AskedTwice(events: seq<Event>, key: Key)
    requires Unfolds(Opening, events)
  {
    exists m: nat, k: nat, n: nat :: m < k < n && Asked(events, key, m) && ReleasedAt(events, key, k) && Asked(events, key, n)
  }

  predicate Owns(s: System, key: Key, id: Id) { id in s.desk.owner && s.desk.owner[id] == key }

  lemma {:induction false} Moment(s: System, events: seq<Event>, n: nat)
    requires Unfolds(s, events) && n < |events|
    ensures Unfolds(s, events[..n]) && Unfolds(s, events[..n + 1])
    ensures Possible(Outcome(s, events[..n]), events[n])
    ensures Outcome(s, events[..n + 1]) == Happen(Outcome(s, events[..n]), events[n])
    decreases n
  {
    var front, next := events[..n], events[..n + 1];
    if n == 0 {
      assert next[1..] == [];
    } else {
      Moment(Happen(s, events[0]), events[1..], n - 1);
      assert front[1..] == events[1..][..n - 1] && next[1..] == events[1..][..n];
    }
  }

  lemma {:induction false} Prefix(s: System, events: seq<Event>, n: nat)
    requires Unfolds(s, events) && n <= |events|
    ensures Unfolds(s, events[..n])
  {
    if n < |events| { Moment(s, events, n); } else { assert events[..n] == events; }
  }

  /** Posts stay, and are sent once; what was issued and owned stays so. */
  ghost predicate Later(s: System, t: System) {
    && (forall p :: p in s.desk.posts ==> p in t.desk.posts && (!s.desk.posts[p].Sending? ==> !t.desk.posts[p].Sending?))
    && (forall id ::
          && (id in s.queue.issued ==> id in t.queue.issued)
          && (id in s.desk.owner ==> id in t.desk.owner && t.desk.owner[id] == s.desk.owner[id]))
  }

  lemma {:induction false} HappenIsLater(s: System, e: Event)
    requires OwnersKnown(s) && Possible(s, e)
    ensures Later(s, Happen(s, e))
  {
    KeepsOwners(s, e);
  }

  lemma {:induction false} LaterStill(s: System, t: System, u: System)
    requires Later(s, t) && Later(t, u)
    ensures Later(s, u)
  {
  }

  lemma {:induction false} Sticks(events: seq<Event>, a: nat, b: nat)
    requires Unfolds(Opening, events) && a <= b <= |events|
    ensures Unfolds(Opening, events[..a]) && Unfolds(Opening, events[..b])
    ensures Later(Outcome(Opening, events[..a]), Outcome(Opening, events[..b]))
    decreases b
  {
    Prefix(Opening, events, a);
    Prefix(Opening, events, b);
    if a < b {
      Sticks(events, a, b - 1);
      Moment(Opening, events, b - 1);
      StartHolds();
      AlwaysHonest(Opening, events[..b - 1]);
      var t := Outcome(Opening, events[..b - 1]);
      HappenIsLater(t, events[b - 1]);
      LaterStill(Outcome(Opening, events[..a]), t, Happen(t, events[b - 1]));
    }
  }

  lemma {:induction false} PostWasSent(events: seq<Event>, key: Key, n: nat, post: PostId)
    requires Unfolds(Opening, events) && n <= |events| && Unfolds(Opening, events[..n])
    requires OpenFor(Outcome(Opening, events[..n]), post, key)
    ensures exists m :: 0 <= m < n && SentAt(events, key, m, post)
  {
    assert n > 0;
    Moment(Opening, events, n - 1);
    var s := Outcome(Opening, events[..n - 1]);
    if OpenFor(s, post, key) {
      PostWasSent(events, key, n - 1, post);
    } else {
      assert SentAt(events, key, n - 1, post);
    }
  }

  lemma {:induction false} OwnedWasAccepted(events: seq<Event>, key: Key, n: nat, id: Id) returns (a: nat, post: PostId)
    requires Unfolds(Opening, events) && n <= |events| && Unfolds(Opening, events[..n])
    requires Owns(Outcome(Opening, events[..n]), key, id)
    ensures a < n && events[a] == Accept(post, id) && Unfolds(Opening, events[..a])
    ensures post in Outcome(Opening, events[..a]).desk.posts && Outcome(Opening, events[..a]).desk.posts[post] == Sending(key)
  {
    assert n > 0;
    Moment(Opening, events, n - 1);
    if Owns(Outcome(Opening, events[..n - 1]), key, id) {
      a, post := OwnedWasAccepted(events, key, n - 1, id);
    } else {
      a, post := n - 1, events[n - 1].post;
    }
  }

  lemma {:induction false} ReleasedBetween(events: seq<Event>, key: Key, m: nat, n: nat, post: PostId)
    requires Unfolds(Opening, events) && SentAt(events, key, m, post) && m < n <= |events| && Unfolds(Opening, events[..n])
    requires !ShowsQueued(Outcome(Opening, events[..n]), key)
    ensures exists k :: m < k < n && ReleasedAt(events, key, k)
  {
    Moment(Opening, events, n - 1);
    var s := Outcome(Opening, events[..n - 1]);
    if n - 1 == m {
      assert false;
    } else if ShowsQueued(s, key) {
      QueuedUntilReleased(s, events[n - 1], key);
      assert ReleasedAt(events, key, n - 1);
    } else {
      ReleasedBetween(events, key, m, n - 1, post);
    }
  }

  /** An accepted ask is an intent owned by its key at the end. */
  lemma {:induction false} AskedIsOwned(events: seq<Event>, key: Key, n: nat, post: PostId, id: Id, a: nat)
    requires Unfolds(Opening, events) && SentAt(events, key, n, post) && a < |events| && events[a] == Accept(post, id)
    ensures Owns(Outcome(Opening, events), key, id)
  {
    Moment(Opening, events, a);
    var s := Outcome(Opening, events[..a]);
    var theirs := s.desk.posts[post].key;
    PostWasSent(events, theirs, a, post);
    var m :| 0 <= m < a && SentAt(events, theirs, m, post);
    PressedOnce(events, key, n, theirs, m, post);
    Sticks(events, a + 1, |events|);
    assert events[..|events|] == events;
  }

  lemma {:induction false} PressedOnce(events: seq<Event>, key: Key, n: nat, other: Key, m: nat, post: PostId)
    requires Unfolds(Opening, events) && SentAt(events, key, n, post) && SentAt(events, other, m, post)
    ensures n == m
  {
    var first, second := if n < m then n else m, if n < m then m else n;
    Moment(Opening, events, first);
    Moment(Opening, events, second);
    if first < second { Sticks(events, first + 1, second); }
  }

  /** Exactly when a run leaves a key with two intents for its asks: it was
      pressed and that ask accepted, some reply to it arrived or was lost (or a
      watcher of the key was done), and it was pressed and accepted again. */
  lemma {:induction false} TwoIntentsExactly(events: seq<Event>, key: Key)
    requires Unfolds(Opening, events)
    ensures (exists i, j :: i != j && Owns(Outcome(Opening, events), key, i) && Owns(Outcome(Opening, events), key, j))
            <==> AskedTwice(events, key)
  {
    var s := Outcome(Opening, events);
    if i, j :| i != j && Owns(s, key, i) && Owns(s, key, j) {
      OwningTwoIsAsking(events, key, i, j);
    }
    if AskedTwice(events, key) {
      var m: nat, k: nat, n: nat :| m < k < n && Asked(events, key, m) && ReleasedAt(events, key, k) && Asked(events, key, n);
      AskingTwiceIsOwning(events, key, m, n);
    }
  }

  lemma {:induction false} OwningTwoIsAsking(events: seq<Event>, key: Key, i: Id, j: Id)
    requires Unfolds(Opening, events) && i != j
    requires Owns(Outcome(Opening, events), key, i) && Owns(Outcome(Opening, events), key, j)
    ensures AskedTwice(events, key)
  {
    assert events[..|events|] == events;
    var a, p := OwnedWasAccepted(events, key, |events|, i);
    var b, q := OwnedWasAccepted(events, key, |events|, j);
    AcceptedOnce(events, a, b);
    PostWasSent(events, key, a, p);
    PostWasSent(events, key, b, q);
    var m :| 0 <= m < a && SentAt(events, key, m, p);
    var n :| 0 <= n < b && SentAt(events, key, n, q);
    assert Asked(events, key, m) && Asked(events, key, n);
    if m < n {
      ReleasedBetween(events, key, m, n, p);
    } else {
      ReleasedBetween(events, key, n, m, q);
    }
  }

  /** No post is accepted twice and no id is issued twice. */
  lemma {:induction false} AcceptedOnce(events: seq<Event>, a: nat, b: nat)
    requires Unfolds(Opening, events) && a < |events| && b < |events| && a != b && events[a].Accept? && events[b].Accept?
    ensures events[a].post != events[b].post && events[a].id != events[b].id
  {
    var first, second := if a < b then a else b, if a < b then b else a;
    Moment(Opening, events, first);
    Moment(Opening, events, second);
    Sticks(events, first + 1, second);
  }

  lemma {:induction false} AskingTwiceIsOwning(events: seq<Event>, key: Key, m: nat, n: nat)
    requires Unfolds(Opening, events) && m < n && Asked(events, key, m) && Asked(events, key, n)
    ensures exists i, j :: i != j && Owns(Outcome(Opening, events), key, i) && Owns(Outcome(Opening, events), key, j)
  {
    var p, i :| SentAt(events, key, m, p) && Accept(p, i) in events;
    var q, j :| SentAt(events, key, n, q) && Accept(q, j) in events;
    var a :| 0 <= a < |events| && events[a] == Accept(p, i);
    var b :| 0 <= b < |events| && events[b] == Accept(q, j);
    AskedIsOwned(events, key, m, p, i, a);
    AskedIsOwned(events, key, n, q, j, b);
    Moment(Opening, events, m);
    Moment(Opening, events, n);
    Sticks(events, m + 1, n);
    assert p != q;
    AcceptedOnce(events, a, b);
    assert i != j;
  }

  /** However often a key is pressed, until something releases it only the first
      press sends, and it owns at most one intent. */
  lemma {:induction false} OneAskUntilReleased(events: seq<Event>, key: Key)
    requires Unfolds(Opening, events) && forall k :: !ReleasedAt(events, key, k)
    ensures forall m, n, p, q :: SentAt(events, key, m, p) && SentAt(events, key, n, q) ==> m == n
    ensures forall i, j :: Owns(Outcome(Opening, events), key, i) && Owns(Outcome(Opening, events), key, j) ==> i == j
  {
    forall m, n, p, q | SentAt(events, key, m, p) && SentAt(events, key, n, q) ensures m == n {
      if m < n { ReleasedBetween(events, key, m, n, p); }
      if n < m { ReleasedBetween(events, key, n, m, q); }
    }
    TwoIntentsExactly(events, key);
  }

  /** One such run, with nothing lost: once the key shows "waiting", a second
      press queues a second intent for the same ask. */
  lemma {:induction false} SecondPressQueuesAgain(key: Key)
    ensures var events := [Press(0, key), Accept(0, 0), Answer(0), Press(1, key), Accept(1, 1)];
            && Unfolds(Opening, events)
            && var s := Outcome(Opening, events);
               s.queue.blobs.pending == {0, 1} && s.desk.owner == map[0 := key, 1 := key]
  {
    var e1, e2, e3, e4, e5 := Press(0, key), Accept(0, 0), Answer(0), Press(1, key), Accept(1, 1);
    var s1 := Happen(Opening, e1);
    var s2 := Happen(s1, e2);
    var s3 := Happen(s2, e3);
    assert s3.desk.shown[key] == Waiting && s3.queue.issued == {0};
    var s4 := Happen(s3, e4);
    assert s4.desk.posts[1] == Sending(key);
    var s5 := Happen(s4, e5);
    assert s5.queue.blobs.pending == {0, 1};
    assert Unfolds(s5, []) && Outcome(s5, []) == s5;
    First(s4, e5, []);
    First(s3, e4, [e5]);
    First(s2, e3, [e4, e5]);
    First(s1, e2, [e3, e4, e5]);
    First(Opening, e1, [e2, e3, e4, e5]);
    assert [e5] + [] == [e5];
    assert [e4] + [e5] == [e4, e5];
    assert [e3] + [e4, e5] == [e3, e4, e5];
    assert [e2] + [e3, e4, e5] == [e2, e3, e4, e5];
    assert [e1] + [e2, e3, e4, e5] == [e1, e2, e3, e4, e5];
  }

  lemma {:induction false} First(s: System, e: Event, rest: seq<Event>)
    requires Possible(s, e) && Unfolds(Happen(s, e), rest)
    ensures Unfolds(s, [e] + rest) && Outcome(s, [e] + rest) == Outcome(Happen(s, e), rest)
  {
    assert ([e] + rest)[1..] == rest;
  }
}
