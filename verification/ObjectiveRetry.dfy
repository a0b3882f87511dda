/** `retryableObjective` of scripts/factory-improve-loop.mjs: validate every
    failed task of an objective, then (on resume) revive them all in place.
    What `resumeState` does to one task is factory/lib/task-workflow.mjs. */
module ObjectiveRetry {
  import opened Collections

  type Path = string

  datatype NodeStatus = Pending | Running | GateSatisfied | Blocked | NodeFailed | BlockedByDep | Other
  datatype Node = Node(id: string, status: NodeStatus, statePath: Option<Path>)

  /** `integration` may be missing, as `obj.integration?.id` allows. */
  datatype Objective = Objective(nodes: seq<Node>, integration: Option<Node>)

  /** What classifyBlocker makes of the prose is an input. */
  datatype Class = Decision | Infra | Hard
  datatype Blocker = Blocker(kind: Class, stage: string, paused: bool, summary: string)

  datatype TaskStatus = Active | TaskBlocked | MergeReady | OtherStatus
  datatype Event = IncidentClosed | TaskResumed | OvernightInfraRetry(reason: string) | Earlier(what: string)

  datatype TaskState = TaskState(
    status: TaskStatus, blocker: Option<Blocker>, highRisk: bool, approved: bool,
    openAttempts: nat, events: seq<Event>)

  type Tasks = map<Path, TaskState>

  /** resumeState: None where it throws. */
  function Resumed(t: TaskState): Option<TaskState> {
    if t.status != TaskBlocked then None
    else if t.blocker.Some? && t.blocker.value.stage == "builder" && t.highRisk && !t.approved then None
    else
      var paused := t.blocker.Some? && t.blocker.value.paused;
      var closing := !paused && t.openAttempts > 0;
      Some(t.(status := Active, blocker := None,
              openAttempts := if closing then 0 else t.openAttempts,
              events := t.events + (if closing then [IncidentClosed] else []) + [TaskResumed]))
  }

  predicate InfraBlocked(t: TaskState) {
    t.status == TaskBlocked && t.blocker.Some? && t.blocker.value.kind == Infra
  }

  /** The one kind of infra-blocked task that resumeState refuses. */
  predicate AwaitsApproval(t: TaskState) {
    t.blocker.Some? && t.blocker.value.stage == "builder" && t.highRisk && !t.approved
  }

  function Revived(t: TaskState): TaskState
    requires InfraBlocked(t) && !AwaitsApproval(t)
  {
    var r := Resumed(t).value;
    r.(events := r.events + [OvernightInfraRetry(t.blocker.value.summary)])
  }

  predicate IsFailed(n: Node) {
    n.status == Blocked || n.status == NodeFailed
  }

  function Failed(obj: Objective): seq<Node> {
    Filter(IsFailed, obj.nodes + (if obj.integration.Some? then [obj.integration.value] else []))
  }

  predicate AnyRunning(obj: Objective) {
    exists i :: 0 <= i < |obj.nodes| && obj.nodes[i].status == Running
  }

  predicate IsIntegration(obj: Objective, n: Node) {
    obj.integration.Some? && n.id == obj.integration.value.id
  }

  /** What makes one failed node retryable. */
  predicate Fit(obj: Objective, tasks: Tasks, n: Node) {
    n.statePath.Some? && n.statePath.value in tasks && InfraBlocked(tasks[n.statePath.value]) && !IsIntegration(obj, n)
  }

  predicate Unreadable(tasks: Tasks, n: Node) {
    n.statePath.Some? && n.statePath.value !in tasks
  }

  ghost predicate Retryable(obj: Objective, tasks: Tasks) {
    && Failed(obj) != [] && !AnyRunning(obj)
    && forall i :: 0 <= i < |Failed(obj)| ==> Fit(obj, tasks, Failed(obj)[i])
  }

  /** A node of the objective, or its integration, has stopped. */
  predicate StoppedIn(obj: Objective, n: Node) {
    (n in obj.nodes || obj.integration == Some(n)) && n.status in {Blocked, NodeFailed}
  }

  /** An objective is retryable exactly when a node of it has stopped, none is
      running, and each that has stopped names a readable task that was blocked by
      the infrastructure, and is not the integration. */
  lemma {:induction false} RetryableExactly(obj: Objective, tasks: Tasks)
    ensures Retryable(obj, tasks) <==>
              && (exists n :: StoppedIn(obj, n)) && (forall n :: n in obj.nodes ==> n.status != Running)
              && forall n :: StoppedIn(obj, n) ==>
                   && n.statePath.Some? && n.statePath.value in tasks
                   && (obj.integration.Some? ==> n.id != obj.integration.value.id)
                   && var t := tasks[n.statePath.value]; t.status == TaskBlocked && t.blocker.Some? && t.blocker.value.kind == Infra
  {
    FailedAreStopped(obj);
    var failed := Failed(obj);
    if failed != [] { assert StoppedIn(obj, failed[0]); }
    assert forall i :: 0 <= i < |failed| ==> StoppedIn(obj, failed[i]);
    forall n | StoppedIn(obj, n) ensures exists i :: 0 <= i < |failed| && failed[i] == n { assert n in failed; }
  }

  lemma {:induction false} FailedAreStopped(obj: Objective)
    ensures forall n :: n in Failed(obj) <==> StoppedIn(obj, n)
    ensures AnyRunning(obj) <==> exists n :: n in obj.nodes && n.status == Running
  {
    FilterMembers(IsFailed, obj.nodes + (if obj.integration.Some? then [obj.integration.value] else []));
  }

  datatype Answer = Yes | No | Throws

  /** The tasks once the given nodes have been revived, one after the other. */
  ghost function ReviveAll(tasks: Tasks, nodes: seq<Node>): Tasks
    requires forall i :: 0 <= i < |nodes| ==>
               nodes[i].statePath.Some? && nodes[i].statePath.value in tasks
               && InfraBlocked(tasks[nodes[i].statePath.value]) && !AwaitsApproval(tasks[nodes[i].statePath.value])
  {
    if nodes == [] then tasks
    else
      var last := nodes[|nodes| - 1].statePath.value;
      ReviveAll(tasks, nodes[..|nodes| - 1])[last := Revived(tasks[last])]
  }

  ghost predicate Names(nodes: seq<Node>, path: Path) {
    exists i :: 0 <= i < |nodes| && nodes[i].statePath == Some(path)
  }

  lemma {:induction false} ReviveAllAt(tasks: Tasks, nodes: seq<Node>, path: Path)
    requires forall i :: 0 <= i < |nodes| ==>
               nodes[i].statePath.Some? && nodes[i].statePath.value in tasks
               && InfraBlocked(tasks[nodes[i].statePath.value]) && !AwaitsApproval(tasks[nodes[i].statePath.value])
    ensures path in ReviveAll(tasks, nodes) <==> path in tasks
    ensures path in tasks ==> ReviveAll(tasks, nodes)[path] == if Names(nodes, path) then Revived(tasks[path]) else tasks[path]
  {
    if nodes != [] {
      var front, last := nodes[..|nodes| - 1], nodes[|nodes| - 1];
      ReviveAllAt(tasks, front, path);
      NamesLast(nodes, path);
    }
  }

  lemma {:induction false} NamesLast(nodes: seq<Node>, path: Path)
    requires nodes != []
    ensures Names(nodes, path) <==> Names(nodes[..|nodes| - 1], path) || nodes[|nodes| - 1].statePath == Some(path)
  {
    var front := nodes[..|nodes| - 1];
    if i :| 0 <= i < |front| && front[i].statePath == Some(path) {
      assert nodes[i].statePath == Some(path);
    }
    if i :| 0 <= i < |nodes| && nodes[i].statePath == Some(path) {
      assert i == |nodes| - 1 || front[i].statePath == Some(path);
    }
  }

  /** Exactly the named tasks were rewritten, each as reviving it once does. */
  ghost predicate RevivedExactly(before: Tasks, after: Tasks, nodes: seq<Node>) {
    forall path ::
      && (path in after <==> path in before)
      && (path in before ==>
            if Names(nodes, path)
            then InfraBlocked(before[path]) && !AwaitsApproval(before[path]) && after[path] == Revived(before[path])
            else after[path] == before[path])
  }

  lemma {:induction false} ReviveAllIsExact(tasks: Tasks, nodes: seq<Node>)
    requires forall i :: 0 <= i < |nodes| ==>
               nodes[i].statePath.Some? && nodes[i].statePath.value in tasks
               && InfraBlocked(tasks[nodes[i].statePath.value]) && !AwaitsApproval(tasks[nodes[i].statePath.value])
    ensures RevivedExactly(tasks, ReviveAll(tasks, nodes), nodes)
  {
    forall path
      ensures path in ReviveAll(tasks, nodes) <==> path in tasks
      ensures path in tasks ==> ReviveAll(tasks, nodes)[path] == if Names(nodes, path) then Revived(tasks[path]) else tasks[path]
    {
      ReviveAllAt(tasks, nodes, path);
    }
  }

  /** The first failed task that waits for approval, and the tasks before it. */
  ghost predicate StoppedAt(before: Tasks, after: Tasks, nodes: seq<Node>, k: nat)
    requires forall i :: 0 <= i < |nodes| ==>
               nodes[i].statePath.Some? && nodes[i].statePath.value in before && InfraBlocked(before[nodes[i].statePath.value])
  {
    && k < |nodes| && AwaitsApproval(before[nodes[k].statePath.value])
    && (forall i :: 0 <= i < k ==> !AwaitsApproval(before[nodes[i].statePath.value]))
    && after == ReviveAll(before, nodes[..k])
  }

  function Retries(events: seq<Event>): nat {
    if events == [] then 0
    else (if events[|events| - 1].OvernightInfraRetry? then 1 else 0) + Retries(events[..|events| - 1])
  }

  lemma {:induction false} RetriesSnoc(events: seq<Event>, e: Event)
    ensures Retries(events + [e]) == Retries(events) + (if e.OvernightInfraRetry? then 1 else 0)
  {
    assert (events + [e])[..|events|] == events;
  }

  function Log(events: seq<Event>, closing: bool, reason: string): seq<Event> {
    events + (if closing then [IncidentClosed] else []) + [TaskResumed] + [OvernightInfraRetry(reason)]
  }

  lemma {:induction false} LogIsOneRetry(events: seq<Event>, closing: bool, reason: string)
    ensures var log := Log(events, closing, reason);
            && Retries(log) == Retries(events) + 1
            && |events| < |log| && log[..|events|] == events && log[|log| - 1] == OvernightInfraRetry(reason)
            && (IncidentClosed in log[|events|..] <==> closing)
  {
    assert closing ==> Log(events, closing, reason)[|events|..][0] == IncidentClosed;
    var closed := events + (if closing then [IncidentClosed] else []);
    RetriesSnoc(events, IncidentClosed);
    assert events + [] == events;
    assert Retries(closed) == Retries(events);
    RetriesSnoc(closed, TaskResumed);
    RetriesSnoc(closed + [TaskResumed], OvernightInfraRetry(reason));
  }

  /** Reviving makes the task runnable, clears its blocker and leaves exactly
      one retry event, last, carrying the reason; an incident with attempts of
      its own is closed before, unless the task was only paused. */
  lemma {:induction false} RevivedOnce(t: TaskState)
    requires InfraBlocked(t) && !AwaitsApproval(t)
    ensures var r := Revived(t);
            && r.status == Active && r.blocker == None
            && Retries(r.events) == Retries(t.events) + 1
            && |t.events| < |r.events| && r.events[..|t.events|] == t.events
            && r.events[|r.events| - 1] == OvernightInfraRetry(t.blocker.value.summary)
            && (IncidentClosed in r.events[|t.events|..] <==> !t.blocker.value.paused && t.openAttempts > 0)
            && r.openAttempts == (if t.blocker.value.paused then t.openAttempts else 0)
            && r.highRisk == t.highRisk && r.approved == t.approved
  {
    var closing := !t.blocker.value.paused && t.openAttempts > 0;
    assert Revived(t).events == Log(t.events, closing, t.blocker.value.summary);
    LogIsOneRetry(t.events, closing, t.blocker.value.summary);
  }

  class TaskStore {
    var tasks: Tasks

    /** retryableObjective. A run of it that throws leaves the tasks before the
        offending one revived: the validation does not ask what resumeState will. */
    method RetryObjective(obj: Objective, resume: bool) returns (answer: Answer)
      modifies this
      ensures answer == Yes ==> Retryable(obj, old(tasks))
      ensures answer == No ==> !Retryable(obj, old(tasks)) && tasks == old(tasks)
      ensures !resume ==> tasks == old(tasks)
      ensures resume && answer == Yes ==> RevivedExactly(old(tasks), tasks, Failed(obj))
      ensures Retryable(obj, old(tasks)) ==>
                (answer == Throws <==>
                 resume && exists i :: 0 <= i < |Failed(obj)| && AwaitsApproval(old(tasks)[Failed(obj)[i].statePath.value]))
      ensures Retryable(obj, old(tasks)) && answer == Throws ==> exists k :: StoppedAt(old(tasks), tasks, Failed(obj), k)
      ensures !Retryable(obj, old(tasks)) && answer == Throws ==>
                tasks == old(tasks) && exists i :: 0 <= i < |Failed(obj)| && Unreadable(old(tasks), Failed(obj)[i])
    {
      ghost var tasks0 := tasks;
      var failed := Failed(obj);
      if failed == [] || AnyRunning(obj) { return No; }
      var found: seq<(Path, TaskState)> := [];
      for i := 0 to |failed|
        invariant tasks == tasks0 && |found| == i
        invariant forall j :: 0 <= j < i ==> Fit(obj, tasks0, failed[j])
        invariant forall j :: 0 <= j < i ==> found[j] == (failed[j].statePath.value, tasks0[failed[j].statePath.value])
      {
        var node := failed[i];
        if node.statePath.None? { return No; }
        if node.statePath.value !in tasks { return Throws; }
        var state := tasks[node.statePath.value];
        if !(state.status == TaskBlocked && state.blocker.Some? && state.blocker.value.kind == Infra) { return No; }
        if IsIntegration(obj, node) { return No; }
        found := found + [(node.statePath.value, state)];
      }
      if resume {
        for i := 0 to |found|
          invariant forall j :: 0 <= j < i ==> !AwaitsApproval(tasks0[failed[j].statePath.value])
          invariant tasks == ReviveAll(tasks0, failed[..i])
        {
          assert Fit(obj, tasks0, failed[i]);
          var revived := Resumed(found[i].1);
          if revived.None? {
            assert StoppedAt(tasks0, tasks, failed, i);
            return Throws;
          }
          assert failed[..i + 1][..i] == failed[..i];
          tasks := tasks[found[i].0 := revived.value.(events := revived.value.events + [OvernightInfraRetry(found[i].1.blocker.value.summary)])];
        }
        assert failed[..|failed|] == failed;
        ReviveAllIsExact(tasks0, failed);
      }
      return Yes;
    }
  }

  /** The answer and the tasks are all-or-nothing unless a failed task waits for
      a founder's approval: then reviving stops at the first such task, with
      every task before it already rewritten. */
  lemma {:induction false} PartialRevivalIsReal()
    ensures var infra := Blocker(Infra, "builder", false, "timed out");
            var plain := TaskState(TaskBlocked, Some(infra), false, false, 0, []);
            var risky := TaskState(TaskBlocked, Some(infra), true, false, 0, []);
            var nodes := [Node("a", Blocked, Some("a.json")), Node("b", Blocked, Some("b.json"))];
            var obj := Objective(nodes, Some(Node("i", Pending, None)));
            var tasks: Tasks := map["a.json" := plain, "b.json" := risky];
            && Retryable(obj, tasks) && Failed(obj) == nodes
            && !AwaitsApproval(tasks["a.json"]) && AwaitsApproval(tasks["b.json"])
            && ReviveAll(tasks, Failed(obj)[..1]) == tasks["a.json" := Revived(plain)]
            && Revived(plain) != plain
  {
    var infra := Blocker(Infra, "builder", false, "timed out");
    var plain := TaskState(TaskBlocked, Some(infra), false, false, 0, []);
    var risky := TaskState(TaskBlocked, Some(infra), true, false, 0, []);
    var a, b, i := Node("a", Blocked, Some("a.json")), Node("b", Blocked, Some("b.json")), Node("i", Pending, None);
    var obj := Objective([a, b], Some(i));
    var tasks: Tasks := map["a.json" := plain, "b.json" := risky];
    assert obj.nodes + [i] == [a] + ([b] + ([i] + []));
    FilterCons(IsFailed, i, []);
    FilterCons(IsFailed, b, [i]);
    FilterCons(IsFailed, a, [b] + [i]);
    assert [i] + [] == [i] && [b] + [i] == [b] + ([i] + []);
    assert Failed(obj) == [a, b];
    assert "i" != "a" && "i" != "b" && "a.json"[0] != "b.json"[0];
    assert Fit(obj, tasks, a) && Fit(obj, tasks, b);
    assert Failed(obj)[..1] == [a] && [a][..0] == [];
    assert ReviveAll(tasks, []) == tasks;
  }
}
