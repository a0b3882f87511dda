/** The code of one undisturbed poll, updating the store step by step: the
    endpoint's claim loop (control-plane/api/intents.mjs over _lib/queue.mjs)
    and the machine's `once` and `loop` (scripts/hq-intents.mjs over
    intent-worker.mjs). Its effects are the blob operations of IntentQueue. */
module IntentEndpoint {
  import opened Collections
  import opened IntentQueue

  const CLAIM_LIMIT := 20
  const MAX_PENDING := 200

  ghost predicate Distinct(ids: seq<Id>) {
    forall i, j :: 0 <= i < j < |ids| ==> ids[i] != ids[j]
  }

  function Elements(ids: seq<Id>): set<Id> {
    set x | x in ids
  }

  function First(n: nat, ids: seq<Id>): seq<Id> {
    if n < |ids| then ids[..n] else ids
  }

  /** The intents not in `gone`, in order. */
  function Minus(ids: seq<Id>, gone: set<Id>): seq<Id> {
    if ids == [] then []
    else if ids[0] in gone then Minus(ids[1..], gone)
    else [ids[0]] + Minus(ids[1..], gone)
  }

  lemma {:induction false} MinusMembers(ids: seq<Id>, gone: set<Id>)
    ensures forall x :: x in Minus(ids, gone) <==> x in ids && x !in gone
  {
    if ids != [] { MinusMembers(ids[1..], gone); }
  }

  lemma {:induction false} MinusDistinct(ids: seq<Id>, gone: set<Id>)
    requires Distinct(ids)
    ensures Distinct(Minus(ids, gone))
  {
    if ids != [] {
      MinusDistinct(ids[1..], gone);
      MinusMembers(ids[1..], gone);
    }
  }

  lemma {:induction false} MinusNothing(ids: seq<Id>, gone: set<Id>)
    requires forall x :: x in ids ==> x !in gone
    ensures Minus(ids, gone) == ids
  {
    if ids != [] { MinusNothing(ids[1..], gone); }
  }

  lemma {:induction false} MinusEverything(ids: seq<Id>, gone: set<Id>)
    requires forall x :: x in ids ==> x in gone
    ensures Minus(ids, gone) == []
  {
    if ids != [] { MinusEverything(ids[1..], gone); }
  }

  lemma {:induction false} MinusAppend(a: seq<Id>, b: seq<Id>, gone: set<Id>)
    ensures Minus(a + b, gone) == Minus(a, gone) + Minus(b, gone)
  {
    if a == [] {
      assert a + b == b;
    } else {
      assert (a + b)[1..] == a[1..] + b;
      MinusAppend(a[1..], b, gone);
    }
  }

  lemma {:induction false} MinusTwice(ids: seq<Id>, gone: set<Id>, more: set<Id>)
    ensures Minus(Minus(ids, gone), more) == Minus(ids, gone + more)
  {
    if ids != [] {
      MinusTwice(ids[1..], gone, more);
      if ids[0] !in gone {
        assert ([ids[0]] + Minus(ids[1..], gone))[1..] == Minus(ids[1..], gone);
      }
    }
  }

  class IntentStore {
    /** The pending blobs in the order the store lists them, oldest first. */
    var listing: seq<Id>
    var claimed: set<Id>
    var results: map<Id, Status>

    ghost predicate Valid()
      reads this
    {
      Distinct(listing)
    }

    ghost function State(): Blobs
      reads this
    {
      Blobs(Elements(listing), claimed, results)
    }

    constructor ()
      ensures Valid() && State() == Start.blobs
    {
      listing, claimed, results := [], {}, map[];
    }

    /** A POST: refused only when more than MAX_PENDING intents are waiting. */
    method Enqueue(id: Id) returns (accepted: bool)
      requires Valid() && id !in listing
      modifies this
      ensures Valid()
      ensures accepted <==> |old(listing)| <= MAX_PENDING
      ensures listing == if accepted then old(listing) + [id] else old(listing)
      ensures State() == if accepted then PutPending(old(State()), id) else old(State())
    {
      var seen := First(MAX_PENDING + 1, listing);
      accepted := !(|seen| > MAX_PENDING);
      if accepted { listing := listing + [id]; }
    }

    /** claim(id): read the pending blob, put the claimed one, delete the pending one. */
    method Claim(id: Id, unlistFails: bool) returns (won: bool)
      requires Valid()
      modifies this
      ensures Valid()
      ensures won <==> id in old(listing) && id !in old(claimed)
      ensures !won ==> State() == old(State()) && listing == old(listing)
      ensures won ==>
                var put := PutClaimed(old(State()), id).value;
                State() == if unlistFails then put else DelPending(put, id)
      ensures won ==> listing == Minus(old(listing), if unlistFails then {} else {id})
    {
      MinusNothing(listing, {});
      if id !in listing || id in claimed { return false; }
      claimed := claimed + {id};
      if !unlistFails {
        MinusMembers(listing, {id});
        MinusDistinct(listing, {id});
        listing := Minus(listing, {id});
      }
      return true;
    }

    /** GET ?claim=1: the claim loop over the first twenty listed intents. */
    method ClaimPending(unlistFails: set<Id>) returns (batch: seq<Id>)
      requires Valid()
      modifies this
      ensures Valid() && Distinct(batch)
      ensures batch == Minus(First(CLAIM_LIMIT, old(listing)), old(claimed))
      ensures claimed == old(claimed) + Elements(batch)
      ensures results == old(results)
      ensures listing == Minus(old(listing), Elements(batch) - unlistFails)
    {
      var pending := First(CLAIM_LIMIT, listing);
      ghost var listing0, claimed0 := listing, claimed;
      batch := [];
      MinusNothing(listing0, {});
      assert Elements(batch) - unlistFails == {};
      for i := 0 to |pending|
        invariant Valid() && results == old(results)
        invariant batch == Minus(pending[..i], claimed0)
        invariant claimed == claimed0 + Elements(batch)
        invariant listing == Minus(listing0, Elements(batch) - unlistFails)
      {
        var id := pending[i];
        NextIsListed(listing0, pending, i, claimed0, batch, unlistFails);
        ghost var before := batch;
        var won := Claim(id, id in unlistFails);
        if won {
          batch := batch + [id];
          OneMoreClaimed(listing0, before, id, unlistFails);
        }
      }
      assert pending[..|pending|] == pending;
      MinusDistinct(pending, claimed0);
    }

    /** PATCH: the result is written first, then the claimed blob deleted. */
    method Report(id: Id, status: Status, unmarkFails: bool)
      modifies this
      ensures listing == old(listing)
      ensures State() == if unmarkFails then PutResult(old(State()), id, status)
                         else DelClaimed(PutResult(old(State()), id, status), id)
    {
      results := results[id := status];
      if !unmarkFails { claimed := claimed - {id}; }
    }
  }

  /** The claim loop's next intent: still listed, and refused exactly if it was
      claimed before the loop began. */
  lemma {:induction false} NextIsListed(listing0: seq<Id>, pending: seq<Id>, i: nat, claimed0: set<Id>, batch: seq<Id>, unlistFails: set<Id>)
    requires Distinct(listing0) && pending <= listing0 && i < |pending|
    requires batch == Minus(pending[..i], claimed0)
    ensures pending[i] in Minus(listing0, Elements(batch) - unlistFails)
    ensures pending[i] in claimed0 + Elements(batch) <==> pending[i] in claimed0
    ensures Minus(pending[..i + 1], claimed0) == if pending[i] in claimed0 then batch else batch + [pending[i]]
  {
    var id := pending[i];
    assert pending[..i + 1] == pending[..i] + [id];
    MinusAppend(pending[..i], [id], claimed0);
    MinusMembers(pending[..i], claimed0);
    MinusMembers(listing0, Elements(batch) - unlistFails);
    assert id !in pending[..i];
    assert listing0[i] == id;
  }

  lemma {:induction false} OneMoreClaimed(listing0: seq<Id>, batch: seq<Id>, id: Id, unlistFails: set<Id>)
    ensures Elements(batch + [id]) == Elements(batch) + {id}
    ensures Minus(listing0, Elements(batch + [id]) - unlistFails) ==
            Minus(Minus(listing0, Elements(batch) - unlistFails), if id in unlistFails then {} else {id})
  {
    var more := if id in unlistFails then {} else {id};
    MinusTwice(listing0, Elements(batch) - unlistFails, more);
    assert Elements(batch + [id]) - unlistFails == (Elements(batch) - unlistFails) + more;
  }

  // ----- the machine -----

  /** What the machine will answer for an intent: it re-validates everything it
      claimed, and `Rejected` is the answer that calls no handler. */
  type Verdicts = Id -> Status

  function Handled(verdicts: Verdicts, ids: seq<Id>): seq<Id> {
    if ids == [] then []
    else if verdicts(ids[0]) == Rejected then Handled(verdicts, ids[1..])
    else [ids[0]] + Handled(verdicts, ids[1..])
  }

  lemma {:induction false} HandledAppend(verdicts: Verdicts, a: seq<Id>, b: seq<Id>)
    ensures Handled(verdicts, a + b) == Handled(verdicts, a) + Handled(verdicts, b)
  {
    if a == [] {
      assert a + b == b;
    } else {
      assert (a + b)[1..] == a[1..] + b;
      HandledAppend(verdicts, a[1..], b);
    }
  }

  lemma {:induction false} HandledDistinct(verdicts: Verdicts, ids: seq<Id>)
    requires Distinct(ids)
    ensures Distinct(Handled(verdicts, ids))
    ensures forall id :: id in Handled(verdicts, ids) <==> id in ids && verdicts(id) != Rejected
  {
    if ids != [] { HandledDistinct(verdicts, ids[1..]); }
  }

  /** The results once the outcomes of `ids` have been reported, but for those lost. */
  ghost function Reported(results: map<Id, Status>, verdicts: Verdicts, ids: seq<Id>, lost: set<Id>): map<Id, Status> {
    if ids == [] then results
    else
      var last := ids[|ids| - 1];
      var before := Reported(results, verdicts, ids[..|ids| - 1], lost);
      if last in lost then before else before[last := verdicts(last)]
  }

  lemma {:induction false} ReportedAt(results: map<Id, Status>, verdicts: Verdicts, ids: seq<Id>, lost: set<Id>, id: Id)
    ensures var after := Reported(results, verdicts, ids, lost);
            if id in ids && id !in lost then id in after && after[id] == verdicts(id)
            else (id in after <==> id in results) && (id in results ==> after[id] == results[id])
  {
    if ids != [] { ReportedAt(results, verdicts, ids[..|ids| - 1], lost, id); }
  }

  lemma {:induction false} ReportedAppend(results: map<Id, Status>, verdicts: Verdicts, a: seq<Id>, b: seq<Id>, lost: set<Id>)
    ensures Reported(results, verdicts, a + b, lost) == Reported(Reported(results, verdicts, a, lost), verdicts, b, lost)
  {
    if b == [] {
      assert a + b == a;
    } else {
      assert (a + b)[..|a + b| - 1] == a + b[..|b| - 1];
      ReportedAppend(results, verdicts, a, b[..|b| - 1], lost);
    }
  }

  lemma {:induction false} NextInBatch(batch: seq<Id>, i: nat)
    requires Distinct(batch) && i < |batch|
    ensures batch[..i + 1] == batch[..i] + [batch[i]] && batch[..i + 1][..i] == batch[..i]
    ensures batch[i..] == [batch[i]] + batch[i + 1..]
    ensures batch[i] !in batch[i + 1..] && batch[i] !in batch[..i]
  {
  }

  /** Part-way through a batch, only those whose claimed blob was not deleted
      (`kept`) and intents still to come stay claimed. */
  ghost predicate ClaimedAfter(claimed: set<Id>, claimed0: set<Id>, batch: seq<Id>, i: nat, kept: set<Id>)
    requires i <= |batch|
  {
    forall id :: id in claimed <==> id in claimed0 || (id in batch[..i] && id in kept) || id in batch[i..]
  }

  lemma {:induction false} NextClaimed(claimed: set<Id>, claimed0: set<Id>, batch: seq<Id>, i: nat, kept: set<Id>)
    requires Distinct(batch) && i < |batch| && batch[i] !in claimed0 && ClaimedAfter(claimed, claimed0, batch, i, kept)
    ensures ClaimedAfter(if batch[i] in kept then claimed else claimed - {batch[i]}, claimed0, batch, i + 1, kept)
  {
    NextInBatch(batch, i);
  }

  /** once: claim a batch, execute it in order, report each outcome. A report in
      `lost` never reaches the store, one in `unmarkFails` does but cannot delete
      the claimed blob, and any reply at all may be lost: the machine swallows
      all three alike, and the batch goes on. */
  method Once(store: IntentStore, verdicts: Verdicts, unlistFails: set<Id>, lost: set<Id>, unmarkFails: set<Id>)
    returns (batch: seq<Id>, ran: seq<Id>)
    requires store.Valid()
    modifies store
    ensures store.Valid() && Distinct(batch)
    ensures batch == Minus(First(CLAIM_LIMIT, old(store.listing)), old(store.claimed))
    ensures store.listing == Minus(old(store.listing), Elements(batch) - unlistFails)
    ensures ran == Handled(verdicts, batch)
    ensures store.results == Reported(old(store.results), verdicts, batch, lost)
    ensures forall id :: id in store.claimed <==> id in old(store.claimed) || (id in batch && id in lost + unmarkFails)
  {
    ghost var claimed0, results0 := store.claimed, store.results;
    batch := store.ClaimPending(unlistFails);
    MinusMembers(First(CLAIM_LIMIT, old(store.listing)), claimed0);
    ran := [];
    ghost var listing1 := store.listing;
    for i := 0 to |batch|
      invariant store.Valid() && store.listing == listing1
      invariant ran == Handled(verdicts, batch[..i])
      invariant store.results == Reported(results0, verdicts, batch[..i], lost)
      invariant ClaimedAfter(store.claimed, claimed0, batch, i, lost + unmarkFails)
    {
      var id := batch[i];
      NextInBatch(batch, i);
      NextClaimed(store.claimed, claimed0, batch, i, lost + unmarkFails);
      HandledAppend(verdicts, batch[..i], [id]);
      var status := verdicts(id);
      if status != Rejected { ran := ran + [id]; }
      if id !in lost { store.Report(id, status, id in unmarkFails); }
    }
    assert batch[..|batch|] == batch && batch[|batch|..] == [];
  }

  /** Polls with nothing lost and nobody else claiming run the waiting intents
      exactly once each, in the order they were asked, twenty to a poll. */
  method Loop(store: IntentStore, verdicts: Verdicts, polls: nat) returns (ran: seq<Id>)
    requires store.Valid() && forall id :: id in store.listing ==> id !in store.claimed
    modifies store
    ensures var taken := First(CLAIM_LIMIT * polls, old(store.listing));
            && ran == Handled(verdicts, taken) && Distinct(ran)
            && store.listing == old(store.listing)[|taken|..]
            && store.claimed == old(store.claimed)
            && store.results == Reported(old(store.results), verdicts, taken, {})
  {
    ghost var all, results0 := store.listing, store.results;
    ran := [];
    for k := 0 to polls
      invariant store.Valid() && store.claimed == old(store.claimed)
      invariant store.listing == all[|First(CLAIM_LIMIT * k, all)|..]
      invariant ran == Handled(verdicts, First(CLAIM_LIMIT * k, all))
      invariant store.results == Reported(results0, verdicts, First(CLAIM_LIMIT * k, all), {})
    {
      ghost var taken := First(CLAIM_LIMIT * k, all);
      ghost var front := First(CLAIM_LIMIT, store.listing);
      NextPoll(all, k);
      MinusNothing(front, store.claimed);
      var batch, more := Once(store, verdicts, {}, {}, {});
      assert batch == front;
      assert Elements(front) - {} == Elements(front);
      HandledAppend(verdicts, taken, front);
      ReportedAppend(results0, verdicts, taken, front, {});
      ran := ran + more;
    }
    HandledDistinct(verdicts, First(CLAIM_LIMIT * polls, all));
  }

  /** The k-th poll takes the next twenty and leaves the rest. */
  lemma {:induction false} NextPoll(all: seq<Id>, k: nat)
    requires Distinct(all)
    ensures var taken := First(CLAIM_LIMIT * k, all);
            var before := all[|taken|..];
            var front := First(CLAIM_LIMIT, before);
            && First(CLAIM_LIMIT * (k + 1), all) == taken + front
            && Minus(before, Elements(front)) == all[|taken + front|..]
            && forall id :: id in front ==> id in all
  {
    var taken := First(CLAIM_LIMIT * k, all);
    FirstMore(CLAIM_LIMIT * k, CLAIM_LIMIT, all);
    var before := all[|taken|..];
    DropFront(before, First(CLAIM_LIMIT, before));
  }

  lemma {:induction false} FirstMore(m: nat, n: nat, ids: seq<Id>)
    ensures First(m + n, ids) == First(m, ids) + First(n, ids[|First(m, ids)|..])
  {
  }

  lemma {:induction false} DropFront(ids: seq<Id>, front: seq<Id>)
    requires Distinct(ids) && front <= ids
    ensures Minus(ids, Elements(front)) == ids[|front|..]
  {
    var rest := ids[|front|..];
    assert ids == front + rest;
    MinusAppend(front, rest, Elements(front));
    MinusEverything(front, Elements(front));
    forall x | x in rest ensures x !in Elements(front) {
      var i :| 0 <= i < |rest| && rest[i] == x;
      assert ids[|front| + i] == x;
    }
    MinusNothing(rest, Elements(front));
  }
}
