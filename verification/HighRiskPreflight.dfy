/** The high-risk preflight of dashboard/backend/server.mjs over an objective's
    dependency graph, and the scheduler it has to hold back: readyNodes of
    factory/lib/objective/graph.mjs as driven by orchestrator.mjs. */
module HighRiskPreflight {
  import opened Collections

  type Id = string

  datatype Status = Pending | Running | GateSatisfied | Blocked | Failed | BlockedByDep

  /** `hasState` tells that the node's task was initialized: only then is there
      a task that a later resume could find active again. */
  datatype Node = Node(status: Status, highRisk: bool, dependsOn: seq<Id>, hasState: bool)

  type Graph = map<Id, Node>

  // ----- the preflight -----

  function HighRisk(g: Graph): set<Id> { set id | id in g && g[id].highRisk }

  predicate DependsOnAny(n: Node, ids: set<Id>) {
    exists i :: 0 <= i < |n.dependsOn| && n.dependsOn[i] in ids
  }

  function Preflighted(g: Graph): Graph {
    map id | id in g ::
      if g[id].highRisk then g[id].(status := Blocked)
      else if g[id].status == Pending && DependsOnAny(g[id], HighRisk(g)) then g[id].(status := BlockedByDep)
      else g[id]
  }

  /** A high-risk node is blocked, a pending one that depends on one waits behind
      it, and every other keeps its status. */
  lemma {:induction false} PreflightMarks(g: Graph)
    ensures forall id :: id in g ==>
              Preflighted(g)[id] == g[id].(status :=
                if g[id].highRisk then Blocked
                else if g[id].status == Pending && exists d :: d in g[id].dependsOn && d in g && g[d].highRisk then BlockedByDep
                else g[id].status)
  {
    forall id | id in g
      ensures DependsOnAny(g[id], HighRisk(g)) <==> exists d :: d in g[id].dependsOn && d in g && g[d].highRisk
    {
      if d :| d in g[id].dependsOn && d in g && g[d].highRisk {
        var i :| 0 <= i < |g[id].dependsOn| && g[id].dependsOn[i] == d;
      }
    }
  }

  class Objective {
    var nodes: Graph

    /** Answers whether the objective was recorded as blocked. */
    method Preflight(founderKey: bool) returns (blocked: bool)
      modifies this
      ensures blocked <==> !founderKey && HighRisk(old(nodes)) != {}
      ensures nodes == if blocked then Preflighted(old(nodes)) else old(nodes)
      ensures blocked <==> !founderKey && exists id :: id in old(nodes) && old(nodes)[id].highRisk
      ensures nodes.Keys == old(nodes).Keys
      ensures blocked ==>
                forall id :: id in nodes ==>
                  var n := old(nodes)[id];
                  nodes[id] == n.(status :=
                    if n.highRisk then Blocked
                    else if n.status == Pending && exists d :: d in n.dependsOn && d in old(nodes) && old(nodes)[d].highRisk then BlockedByDep
                    else n.status)
    {
      var high := HighRisk(nodes);
      assert forall id :: id in high <==> id in nodes && nodes[id].highRisk;
      if high == {} || founderKey { return false; }
      PreflightMarks(nodes);
      Block(high);
      HoldDependents(high);
      assert nodes == Preflighted(old(nodes));
      return true;
    }

    /** Its loop over the high-risk nodes. */
    method Block(high: set<Id>)
      requires high <= nodes.Keys
      modifies this
      ensures nodes.Keys == old(nodes).Keys
      ensures forall id :: id in nodes ==> nodes[id] == if id in high then old(nodes)[id].(status := Blocked) else old(nodes)[id]
    {
      var todo := high;
      while todo != {}
        invariant todo <= high && nodes.Keys == old(nodes).Keys
        invariant forall id :: id in nodes ==>
                    nodes[id] == if id in high && id !in todo then old(nodes)[id].(status := Blocked) else old(nodes)[id]
        decreases |todo|
      {
        var id :| id in todo;
        nodes := nodes[id := nodes[id].(status := Blocked)];
        todo := todo - {id};
      }
    }

    /** Its loop over all nodes, for those that wait on a high-risk one. */
    method HoldDependents(high: set<Id>)
      modifies this
      ensures nodes.Keys == old(nodes).Keys
      ensures forall id :: id in nodes ==>
                var n := old(nodes)[id];
                nodes[id] == if n.status == Pending && DependsOnAny(n, high) then n.(status := BlockedByDep) else n
    {
      var todo := nodes.Keys;
      while todo != {}
        invariant todo <= old(nodes).Keys && nodes.Keys == old(nodes).Keys
        invariant forall id :: id in nodes ==>
                    var n := old(nodes)[id];
                    nodes[id] == if id !in todo && n.status == Pending && DependsOnAny(n, high) then n.(status := BlockedByDep) else n
        decreases |todo|
      {
        var id :| id in todo;
        if nodes[id].status == Pending && DependsOnAny(nodes[id], high) {
          nodes := nodes[id := nodes[id].(status := BlockedByDep)];
        }
        todo := todo - {id};
      }
    }
  }

  // ----- the scheduler -----

  datatype Step =
    | Start(id: Id)                       // pending, every dependency satisfied
    | Settle(id: Id, outcome: Status)     // the node's run ends
    | Hold(id: Id)                        // pending behind a node that stopped
    | Release(id: Id)                     // on resume, when no dependency has stopped
    | Revive(id: Id)                      // on resume, when its task is active again
    | Republish(id: Id, outcome: Status)  // on resume, when only its publication failed

  predicate Ready(g: Graph, id: Id) {
    id in g && g[id].status == Pending
    && forall i :: 0 <= i < |g[id].dependsOn| ==> g[id].dependsOn[i] in g && g[g[id].dependsOn[i]].status == GateSatisfied
  }

  predicate Stopped(s: Status) { s == Blocked || s == Failed }

  predicate Enabled(g: Graph, step: Step) {
    match step
    case Start(id) => Ready(g, id)
    case Settle(id, outcome) => id in g && g[id].status == Running && (outcome == GateSatisfied || Stopped(outcome))
    case Hold(id) => id in g && g[id].status == Pending
    case Release(id) =>
      id in g && g[id].status == BlockedByDep
      && forall i :: 0 <= i < |g[id].dependsOn| ==> g[id].dependsOn[i] in g && !Stopped(g[g[id].dependsOn[i]].status)
    case Revive(id) => id in g && Stopped(g[id].status) && g[id].hasState
    case Republish(id, outcome) =>
      id in g && g[id].status == Blocked && g[id].hasState && (outcome == GateSatisfied || outcome == Blocked)
  }

  function Apply(g: Graph, step: Step): Graph
    requires Enabled(g, step)
  {
    match step
    case Start(id) => g[id := g[id].(status := Running, hasState := true)]
    case Settle(id, outcome) => g[id := g[id].(status := outcome)]
    case Hold(id) => g[id := g[id].(status := BlockedByDep)]
    case Release(id) => g[id := g[id].(status := Pending)]
    case Revive(id) => g[id := g[id].(status := Pending)]
    case Republish(id, outcome) => g[id := g[id].(status := outcome)]
  }

  ghost predicate Follows(g: Graph, run: seq<Step>)
    decreases |run|
  {
    run == [] || (Enabled(g, run[0]) && Follows(Apply(g, run[0]), run[1..]))
  }

  ghost function After(g: Graph, run: seq<Step>): Graph
    requires Follows(g, run)
    decreases |run|
  {
    if run == [] then g else After(Apply(g, run[0]), run[1..])
  }

  lemma {:induction false} Append(g: Graph, a: seq<Step>, b: seq<Step>)
    requires Follows(g, a) && Follows(After(g, a), b)
    ensures Follows(g, a + b) && After(g, a + b) == After(After(g, a), b)
    decreases |a|
  {
    if a == [] {
      assert a + b == b;
    } else {
      assert (a + b)[1..] == a[1..] + b;
      Append(Apply(g, a[0]), a[1..], b);
    }
  }

  /** A node that was started and stopped is ready again once it is revived, or
      done if only its publication was missing; one that was held is, once
      released, as if it never had been. */
  lemma {:induction false} ResumeRestores(g: Graph, id: Id, stop: Status)
    requires Ready(g, id) && stop in {Blocked, Failed}
    ensures var g' := Apply(Apply(g, Start(id)), Settle(id, stop));
            && g' == g[id := Node(stop, g[id].highRisk, g[id].dependsOn, true)]
            && Enabled(g', Revive(id)) && Apply(g', Revive(id)) == g[id := g[id].(hasState := true)]
            && (stop == Blocked ==>
                  Enabled(g', Republish(id, GateSatisfied)) && Apply(g', Republish(id, GateSatisfied)) == g'[id := g'[id].(status := GateSatisfied)])
    ensures Enabled(g, Hold(id)) && Enabled(Apply(g, Hold(id)), Release(id)) && !Ready(Apply(g, Hold(id)), id)
    ensures Apply(Apply(g, Hold(id)), Release(id)) == g
  {
  }

  /** While something it depends on has stopped, a held node stays held. */
  lemma {:induction false} ReleasedExactly(g: Graph, id: Id)
    requires id in g && forall d :: d in g[id].dependsOn ==> d in g
    ensures Enabled(g, Release(id)) <==>
              g[id].status == BlockedByDep && forall d :: d in g[id].dependsOn ==> g[d].status != Blocked && g[d].status != Failed
  {
    assert forall i :: 0 <= i < |g[id].dependsOn| ==> g[id].dependsOn[i] in g[id].dependsOn;
  }

  // ----- downstream, at any depth -----

  /** A chain of dependencies from a high-risk node to the last one. */
  ghost predicate Chain(g: Graph, path: seq<Id>) {
    && path != [] && (forall i :: 0 <= i < |path| ==> path[i] in g)
    && g[path[0]].highRisk
    && forall i :: 0 < i < |path| ==> path[i - 1] in g[path[i]].dependsOn
  }

  /** High-risk, or downstream of a high-risk node at any depth. */
  ghost predicate Tainted(g: Graph, id: Id) {
    exists path :: Chain(g, path) && path[|path| - 1] == id
  }

  /** Same nodes, same risks, same dependencies. */
  ghost predicate SameShape(g: Graph, h: Graph) {
    g.Keys == h.Keys && forall id :: id in g ==> g[id].highRisk == h[id].highRisk && g[id].dependsOn == h[id].dependsOn
  }

  lemma {:induction false} TaintedByDependency(g: Graph, id: Id)
    requires id in g
    ensures Tainted(g, id) <==> g[id].highRisk || exists i :: 0 <= i < |g[id].dependsOn| && Tainted(g, g[id].dependsOn[i])
  {
    if g[id].highRisk {
      assert Chain(g, [id]) && [id][|[id]| - 1] == id;
    }
    if i :| 0 <= i < |g[id].dependsOn| && Tainted(g, g[id].dependsOn[i]) {
      var path :| Chain(g, path) && path[|path| - 1] == g[id].dependsOn[i];
      var longer := path + [id];
      assert Chain(g, longer) && longer[|longer| - 1] == id;
    }
    if Tainted(g, id) && !g[id].highRisk {
      var path :| Chain(g, path) && path[|path| - 1] == id;
      var shorter := path[..|path| - 1];
      assert |path| > 1;
      assert Chain(g, shorter) && shorter[|shorter| - 1] == path[|path| - 2];
      var i :| 0 <= i < |g[id].dependsOn| && g[id].dependsOn[i] == path[|path| - 2];
      assert Tainted(g, g[id].dependsOn[i]);
    }
  }

  lemma {:induction false} TaintKept(g: Graph, h: Graph, id: Id)
    requires SameShape(g, h) && Tainted(g, id)
    ensures Tainted(h, id)
  {
    var path :| Chain(g, path) && path[|path| - 1] == id;
    assert Chain(h, path);
  }

  // ----- nothing tainted ever starts -----

  ghost predicate HeldBack(g: Graph) {
    forall id :: id in g && Tainted(g, id) ==>
      && !g[id].hasState
      && (g[id].highRisk ==> g[id].status == Blocked)
      && g[id].status in {Blocked, BlockedByDep, Pending}
  }

  lemma {:induction false} StepHeldBack(g: Graph, step: Step)
    requires HeldBack(g) && Enabled(g, step)
    ensures HeldBack(Apply(g, step)) && SameShape(g, Apply(g, step))
    ensures step.Start? ==> !Tainted(g, step.id)
  {
    var h := Apply(g, step);
    if step.Start? {
      TaintedByDependency(g, step.id);
    }
    forall id | id in h && Tainted(h, id)
      ensures !h[id].hasState && (h[id].highRisk ==> h[id].status == Blocked) && h[id].status in {Blocked, BlockedByDep, Pending}
    {
      TaintKept(h, g, id);
    }
  }

  lemma {:induction false} HeldBackForever(g: Graph, run: seq<Step>)
    requires HeldBack(g) && Follows(g, run)
    ensures forall h :: h == After(g, run) ==> HeldBack(h) && SameShape(g, h)
    decreases |run|
  {
    if run != [] {
      StepHeldBack(g, run[0]);
      HeldBackForever(Apply(g, run[0]), run[1..]);
    }
  }

  ghost predicate AllPending(g: Graph) {
    forall id :: id in g ==> g[id].status == Pending && !g[id].hasState
  }

  lemma {:induction false} PreflightHoldsBack(g: Graph)
    requires AllPending(g)
    ensures SameShape(g, Preflighted(g)) && HeldBack(Preflighted(g))
  {
  }

  /** After the preflight of an all-pending graph, in every run of the
      scheduler, through any number of resumes, no high-risk node and no node at
      any depth downstream of one is ever started. */
  lemma {:induction false} NothingTaintedEverStarts(g: Graph, run: seq<Step>, step: Step)
    requires AllPending(g) && Follows(Preflighted(g), run) && Enabled(After(Preflighted(g), run), step)
    ensures step.Start? ==> !Tainted(g, step.id)
    ensures After(Preflighted(g), run).Keys == g.Keys
    ensures forall id :: id in g && Tainted(g, id) ==> After(Preflighted(g), run)[id].status in {Blocked, BlockedByDep, Pending}
  {
    PreflightHoldsBack(g);
    var h := After(Preflighted(g), run);
    HeldBackForever(Preflighted(g), run);
    StepHeldBack(h, step);
    if step.Start? && Tainted(g, step.id) { TaintKept(g, h, step.id); }
    forall id | id in g && Tainted(g, id) ensures h[id].status in {Blocked, BlockedByDep, Pending} {
      TaintKept(g, h, id);
    }
  }

  /** The preflight touches nothing else. */
  lemma {:induction false} PreflightFrame(g: Graph, id: Id)
    requires id in g && !g[id].highRisk && !DependsOnAny(g[id], HighRisk(g))
    ensures Preflighted(g)[id] == g[id]
  {
  }

  // ----- and everything else still can -----

  /** Dependencies exist and strictly precede: what assertAcyclic accepts. */
  ghost predicate Ranked(g: Graph, rank: map<Id, nat>) {
    forall id :: id in g ==>
      id in rank
      && forall i :: 0 <= i < |g[id].dependsOn| ==>
        g[id].dependsOn[i] in g && g[id].dependsOn[i] in rank && rank[g[id].dependsOn[i]] < rank[id]
  }

  /** Clean nodes below the rank are done, the other clean ones not yet begun. */
  ghost predicate DoneBelow(g: Graph, rank: map<Id, nat>, k: nat, extra: set<Id>)
    requires Ranked(g, rank)
  {
    forall id :: id in g && !Tainted(g, id) ==>
      g[id].status == if rank[id] < k || id in extra then GateSatisfied else Pending
  }

  lemma {:induction false} CleanStays(g: Graph, h: Graph, id: Id)
    requires SameShape(g, h)
    ensures Tainted(g, id) <==> Tainted(h, id)
  {
    if Tainted(g, id) { TaintKept(g, h, id); }
    if Tainted(h, id) { TaintKept(h, g, id); }
  }

  lemma {:induction false} RunOne(g: Graph, rank: map<Id, nat>, k: nat, extra: set<Id>, id: Id)
    requires Ranked(g, rank) && DoneBelow(g, rank, k, extra)
    requires id in g && !Tainted(g, id) && rank[id] == k && id !in extra
    ensures Ready(g, id)
    ensures var run := [Start(id), Settle(id, GateSatisfied)];
            && Follows(g, run)
            && var h := After(g, run); SameShape(g, h) && Ranked(h, rank) && DoneBelow(h, rank, k, extra + {id})
  {
    TaintedByDependency(g, id);
    forall i | 0 <= i < |g[id].dependsOn| ensures g[g[id].dependsOn[i]].status == GateSatisfied {
      assert !Tainted(g, g[id].dependsOn[i]);
    }
    assert Ready(g, id);
    var run := [Start(id), Settle(id, GateSatisfied)];
    var g1 := Apply(g, Start(id));
    var g2 := Apply(g1, Settle(id, GateSatisfied));
    assert run[1..] == [Settle(id, GateSatisfied)] && run[1..][1..] == [];
    assert Follows(g2, []) && After(g2, []) == g2;
    assert Follows(g1, run[1..]) && After(g1, run[1..]) == g2;
    assert After(g, run) == g2 && SameShape(g, g2);
    forall x | x in g2 && !Tainted(g2, x) ensures g2[x].status == if rank[x] < k || x in extra + {id} then GateSatisfied else Pending {
      CleanStays(g, g2, x);
    }
  }

  lemma {:induction false} RunRank(g: Graph, rank: map<Id, nat>, k: nat, extra: set<Id>, todo: set<Id>) returns (run: seq<Step>)
    requires Ranked(g, rank) && DoneBelow(g, rank, k, extra)
    requires forall id :: id in todo <==> id in g && !Tainted(g, id) && rank[id] == k && id !in extra
    requires forall id :: id in extra ==> id in g && rank[id] == k
    ensures Follows(g, run)
    ensures var h := After(g, run); SameShape(g, h) && Ranked(h, rank) && DoneBelow(h, rank, k + 1, {})
    decreases |todo|
  {
    if todo == {} {
      run := [];
      forall id | id in g && !Tainted(g, id) ensures g[id].status == if rank[id] < k + 1 then GateSatisfied else Pending {
        assert id !in todo;
      }
    } else {
      var id :| id in todo;
      RunOne(g, rank, k, extra, id);
      var first := [Start(id), Settle(id, GateSatisfied)];
      var h := After(g, first);
      forall x ensures x in todo - {id} <==> x in h && !Tainted(h, x) && rank[x] == k && x !in extra + {id} {
        if x in h { CleanStays(g, h, x); }
      }
      var rest := RunRank(h, rank, k, extra + {id}, todo - {id});
      Append(g, first, rest);
      run := first + rest;
    }
  }

  lemma {:induction false} RunRanks(g: Graph, rank: map<Id, nat>, k: nat) returns (run: seq<Step>)
    requires Ranked(g, rank) && DoneBelow(g, rank, 0, {})
    ensures Follows(g, run)
    ensures var h := After(g, run); SameShape(g, h) && Ranked(h, rank) && DoneBelow(h, rank, k, {})
  {
    if k == 0 {
      run := [];
    } else {
      var first := RunRanks(g, rank, k - 1);
      var h := After(g, first);
      var todo := set id | id in h && !Tainted(h, id) && rank[id] == k - 1;
      var rest := RunRank(h, rank, k - 1, {}, todo);
      Append(g, first, rest);
      run := first + rest;
    }
  }

  /** The preflight holds back no more than it must: of an all-pending acyclic
      graph, a node can still be started in some run exactly when it is neither
      high-risk nor downstream of a high-risk node. */
  lemma {:induction false} CanStartExactly(g: Graph, rank: map<Id, nat>, id: Id)
    requires AllPending(g) && Ranked(g, rank) && id in g
    ensures (exists run :: Follows(Preflighted(g), run) && Ready(After(Preflighted(g), run), id)) <==> !Tainted(g, id)
  {
    var p := Preflighted(g);
    PreflightHoldsBack(g);
    if Tainted(g, id) {
      forall run | Follows(p, run) ensures !Ready(After(p, run), id) {
        if Ready(After(p, run), id) { NothingTaintedEverStarts(g, run, Start(id)); }
      }
    } else {
      assert DoneBelow(p, rank, 0, {}) by {
        forall x | x in p && !Tainted(p, x) ensures p[x].status == Pending {
          CleanStays(g, p, x);
          TaintedByDependency(g, x);
          if i :| 0 <= i < |g[x].dependsOn| && g[x].dependsOn[i] in HighRisk(g) {
            TaintedByDependency(g, g[x].dependsOn[i]);
          }
        }
      }
      var run := RunRanks(p, rank, rank[id]);
      var h := After(p, run);
      CleanStays(g, p, id);
      CleanStays(p, h, id);
      RunOne(h, rank, rank[id], {}, id);
      assert Ready(h, id);
    }
  }
}
