// ds/task.go: the task the scheduler, the timer engine and the agent of
// agents/base_agent.go hold by pointer. Its setters update the object in
// place and stamp `UpdatedAt` with the tick they are given.
module GoTask {
  import opened Wrappers
  import opened GoTypes
  import Clock

  const Pending := "pending"
  const Assigned := "assigned"
  const Processing := "processing"
  const Completed := "completed"
  const Failed := "failed"
  const Cancelled := "cancelled"

  const Critical := "critical"
  const High := "high"
  const Medium := "medium"
  const Low := "low"

  /** Every field of a task as one value (`deadline` None is a nil pointer). */
  datatype Fields = Fields(
    id: string, title: string, description: string,
    assignedTo: string, assignedBy: string, status: string, priority: string,
    dependencies: seq<string>, deliverables: seq<string>, deadline: Option<nat>,
    createdAt: nat, updatedAt: nat, metadata: map<string, Value>)

  predicate NoDuplicates(s: seq<string>)
  {
    forall i, j :: 0 <= i < j < |s| ==> s[i] != s[j]
  }

  /** `GenerateTaskID`: "auto_" followed by the tick (the Go code formats it
      as 20060102_150405, one value per second). */
  function GenerateTaskID(now: nat): (id: string)
    ensures |id| > 5 && id[..5] == "auto_"
  {
    "auto_" + Clock.Format(now)
  }

  /** Removing the first occurrence from a duplicate-free slice removes it entirely. */
  lemma RemoveFirstGone(s: seq<string>, x: string)
    requires NoDuplicates(s)
    ensures x !in RemoveFirst(s, x)
    ensures NoDuplicates(RemoveFirst(s, x))
  {
    if x in s {
      var i := IndexOf(s, x);
      var r := RemoveFirst(s, x);
      assert r == RemoveAt(s, i);
      forall k | 0 <= k < |r|
        ensures r[k] != x
      {
        if k >= i { assert r[k] == s[k + 1]; }
      }
    }
  }

  class Task {
    var id: string
    var title: string
    var description: string
    var assignedTo: string
    var assignedBy: string
    var status: string
    var priority: string
    var dependencies: seq<string>
    var deliverables: seq<string>
    var deadline: Option<nat>
    var createdAt: nat
    var updatedAt: nat
    var metadata: map<string, Value>

    function Snapshot(): Fields
      reads this
    {
      Fields(id, title, description, assignedTo, assignedBy, status, priority,
             dependencies, deliverables, deadline, createdAt, updatedAt, metadata)
    }

    /** `NewTask`: no dependencies, deliverables or metadata, created and updated at `now`. */
    constructor (id: string, title: string, description: string, assignedTo: string,
                 assignedBy: string, status: string, priority: string, now: nat)
      ensures Snapshot() == Fields(id, title, description, assignedTo, assignedBy, status, priority,
                                   [], [], None, now, now, map[])
    {
      this.id := id;
      this.title := title;
      this.description := description;
      this.assignedTo := assignedTo;
      this.assignedBy := assignedBy;
      this.status := status;
      this.priority := priority;
      dependencies := [];
      deliverables := [];
      deadline := None;
      createdAt := now;
      updatedAt := now;
      metadata := map[];
    }

    method SetDependencies(deps: seq<string>, now: nat)
      modifies this
      ensures Snapshot() == old(Snapshot()).(dependencies := deps, updatedAt := now)
    {
      dependencies := deps;
      updatedAt := now;
    }

    /** An existing dependency changes nothing, not even `UpdatedAt`; a new one is appended. */
    method AddDependency(dep: string, now: nat)
      modifies this
      ensures dep in old(dependencies) ==> Snapshot() == old(Snapshot())
      ensures dep !in old(dependencies) ==>
        Snapshot() == old(Snapshot()).(dependencies := old(dependencies) + [dep], updatedAt := now)
      ensures dep in dependencies
      ensures NoDuplicates(old(dependencies)) ==> NoDuplicates(dependencies)
    {
      var i := 0;
      while i < |dependencies|
        invariant 0 <= i <= |dependencies|
        invariant dep !in dependencies[..i]
      {
        if dependencies[i] == dep {
          return;
        }
        i := i + 1;
      }
      assert dependencies[..i] == dependencies;
      dependencies := dependencies + [dep];
      updatedAt := now;
    }

    /** The first occurrence goes; an absent dependency is a no-op. */
    method RemoveDependency(dep: string, now: nat)
      modifies this
      ensures dep !in old(dependencies) ==> Snapshot() == old(Snapshot())
      ensures dep in old(dependencies) ==>
        Snapshot() == old(Snapshot()).(dependencies := RemoveFirst(old(dependencies), dep), updatedAt := now)
      ensures NoDuplicates(old(dependencies)) ==> dep !in dependencies && NoDuplicates(dependencies)
    {
      ghost var deps0 := dependencies;
      var i := 0;
      while i < |dependencies|
        invariant 0 <= i <= |dependencies|
        invariant dep !in dependencies[..i]
        invariant dependencies == deps0
      {
        if dependencies[i] == dep {
          assert IndexOf(deps0, dep) == i;
          dependencies := dependencies[..i] + dependencies[i + 1..];
          updatedAt := now;
          if NoDuplicates(deps0) { RemoveFirstGone(deps0, dep); }
          return;
        }
        i := i + 1;
      }
      assert dependencies[..i] == dependencies;
    }

    method SetDeliverables(deliverables: seq<string>, now: nat)
      modifies this
      ensures Snapshot() == old(Snapshot()).(deliverables := deliverables, updatedAt := now)
    {
      this.deliverables := deliverables;
      updatedAt := now;
    }

    /** Duplicate-free like `AddDependency`. */
    method AddDeliverable(d: string, now: nat)
      modifies this
      ensures d in old(deliverables) ==> Snapshot() == old(Snapshot())
      ensures d !in old(deliverables) ==>
        Snapshot() == old(Snapshot()).(deliverables := old(deliverables) + [d], updatedAt := now)
      ensures NoDuplicates(old(deliverables)) ==> NoDuplicates(deliverables)
    {
      var i := 0;
      while i < |deliverables|
        invariant 0 <= i <= |deliverables|
        invariant d !in deliverables[..i]
      {
        if deliverables[i] == d {
          return;
        }
        i := i + 1;
      }
      assert deliverables[..i] == deliverables;
      deliverables := deliverables + [d];
      updatedAt := now;
    }

    method SetDeadline(deadline: Option<nat>, now: nat)
      modifies this
      ensures Snapshot() == old(Snapshot()).(deadline := deadline, updatedAt := now)
    {
      this.deadline := deadline;
      updatedAt := now;
    }

    method SetMetadata(metadata: map<string, Value>, now: nat)
      modifies this
      ensures Snapshot() == old(Snapshot()).(metadata := metadata, updatedAt := now)
    {
      this.metadata := metadata;
      updatedAt := now;
    }

    /** Any status is accepted: there is no check on the transition. */
    method SetStatus(status: string, now: nat)
      modifies this
      ensures Snapshot() == old(Snapshot()).(status := status, updatedAt := now)
    {
      this.status := status;
      updatedAt := now;
    }

    method SetPriority(priority: string, now: nat)
      modifies this
      ensures Snapshot() == old(Snapshot()).(priority := priority, updatedAt := now)
    {
      this.priority := priority;
      updatedAt := now;
    }

    /** A task whose fields are `f`. */
    constructor FromFields(f: Fields)
      ensures Snapshot() == f
    {
      id, title, description, assignedTo, assignedBy := f.id, f.title, f.description, f.assignedTo, f.assignedBy;
      status, priority, dependencies, deliverables := f.status, f.priority, f.dependencies, f.deliverables;
      deadline, createdAt, updatedAt, metadata := f.deadline, f.createdAt, f.updatedAt, f.metadata;
    }

    /** `Copy`: a new task with equal fields; slices and map are values, so the copy shares nothing. */
    method Copy() returns (r: Task)
      ensures fresh(r) && r.Snapshot() == Snapshot()
    {
      r := new Task.FromFields(Snapshot());
    }

    /** `Clone`: the updater sees and changes only the copy. */
    method Clone(updater: Fields -> Fields) returns (r: Task)
      ensures fresh(r) && r.Snapshot() == updater(Snapshot())
    {
      r := new Task.FromFields(updater(Snapshot()));
    }

    /** Completed, failed or cancelled; such a task is never pending. */
    predicate IsCompleted()
      reads this
      ensures IsCompleted() ==> !IsPending()
    {
      status == Completed || status == Failed || status == Cancelled
    }

    predicate IsPending()
      reads this
    {
      status == Pending || status == Assigned
    }

    predicate HasDependencies()
      reads this
    {
      |dependencies| > 0
    }

    /** The Go loop over `Dependencies`: true iff `taskId` is one of them. */
    predicate HasDependencyOn(taskId: string)
      reads this
      ensures HasDependencyOn(taskId) <==> taskId in dependencies
    {
      IndexOf(dependencies, taskId) < |dependencies|
    }

    /** A task has dependencies exactly when it depends on some task id. */
    lemma DependenciesIff()
      ensures HasDependencies() <==> exists d :: HasDependencyOn(d)
    {
      if HasDependencies() {
        assert HasDependencyOn(dependencies[0]);
      }
    }
  }
}
