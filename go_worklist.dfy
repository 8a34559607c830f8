// scheduler/worklist.go: tasks by ID, and per priority the IDs in the order
// they were added. Adding a task whose ID is already present replaces the
// task and lists the ID once more; removal takes out the first listing in
// every list.
module GoWorklist {
  import opened Wrappers
  import opened GoTypes
  import GoPriorityQueue

  /** The list a task is filed under: its `priority` metadata when that is a
      string, otherwise Low. */
  function FilingPriority(task: Task): (p: string)
    ensures "priority" in task.metadata && task.metadata["priority"].Str? ==> p == task.metadata["priority"].s
    ensures !("priority" in task.metadata && task.metadata["priority"].Str?) ==> p == GoPriorityQueue.Low
  {
    if "priority" in task.metadata && task.metadata["priority"].Str? then task.metadata["priority"].s
    else GoPriorityQueue.Low
  }

  /** The tasks still present for the listed IDs, in list order; a listed ID
      that is no longer present is skipped. */
  function Resolve(ids: seq<string>, tasks: map<string, Task>): (r: seq<Task>)
    ensures |r| <= |ids|
    ensures forall i :: 0 <= i < |r| ==> r[i] in tasks.Values
    ensures forall i :: 0 <= i < |ids| && ids[i] in tasks ==> tasks[ids[i]] in r
    decreases |ids|
  {
    if ids == [] then []
    else
      var last := ids[|ids| - 1];
      Resolve(ids[..|ids| - 1], tasks) + (if last in tasks then [tasks[last]] else [])
  }

  /** An ID other than the one removed keeps its place in the list. */
  lemma RemoveFirstKeeps(s: seq<string>, x: string, k: string)
    requires k in s && k != x
    ensures k in RemoveFirst(s, x)
  {
    assert k in multiset(s);
    if x in s {
      assert k in multiset(RemoveFirst(s, x));
    }
  }

  /** The invariant of `WorkList`, on its two maps. */
  predicate Filed(tasks: map<string, Task>, byPriority: map<string, seq<string>>)
  {
    forall k :: k in tasks ==>
      tasks[k].taskId == k && FilingPriority(tasks[k]) in byPriority &&
      k in byPriority[FilingPriority(tasks[k])]
  }

  /** Removing one task and its first listings keeps every other task filed. */
  lemma RemoveKeepsValid(tasks: map<string, Task>, byPriority: map<string, seq<string>>, id: string)
    requires Filed(tasks, byPriority)
    ensures Filed(tasks - {id}, map p | p in byPriority :: RemoveFirst(byPriority[p], id))
  {
    forall k | k in tasks - {id}
      ensures k in RemoveFirst(byPriority[FilingPriority(tasks[k])], id)
    {
      RemoveFirstKeeps(byPriority[FilingPriority(tasks[k])], id, k);
    }
  }

  class WorkList {
    var tasks: map<string, Task>
    var byPriority: map<string, seq<string>>

    /** Every task is filed under its own ID and is listed under its filing priority. */
    predicate Valid()
      reads this
    {
      Filed(tasks, byPriority)
    }

    constructor ()
      ensures tasks == map[] && byPriority == map[] && Valid()
    {
      tasks := map[];
      byPriority := map[];
    }

    /** The task replaces any earlier one with its ID, and its ID is appended
        to the list of its filing priority. */
    method AddTask(task: Task)
      modifies this
      ensures tasks == old(tasks)[task.taskId := task]
      ensures var p := FilingPriority(task);
        byPriority == old(byPriority)[p := (if p in old(byPriority) then old(byPriority)[p] else []) + [task.taskId]]
      ensures LenByPriority(FilingPriority(task)) == old(LenByPriority(FilingPriority(task))) + 1
      ensures Len() == old(Len()) + (if task.taskId in old(tasks) then 0 else 1)
      ensures old(Valid()) ==> Valid()
    {
      tasks := tasks[task.taskId := task];
      var p := FilingPriority(task);
      var ids := if p in byPriority then byPriority[p] else [];
      byPriority := byPriority[p := ids + [task.taskId]];
    }

    function GetTask(taskId: string): (r: Option<Task>)
      reads this
      ensures r.Some? <==> taskId in tasks
      ensures r.Some? ==> r.value == tasks[taskId]
    {
      if taskId in tasks then Some(tasks[taskId]) else None
    }

    /** The present tasks for the IDs listed under `priority`, in list order. */
    method GetTasksByPriority(priority: string) returns (r: seq<Task>)
      ensures r == Resolve(if priority in byPriority then byPriority[priority] else [], tasks)
      ensures forall i :: 0 <= i < |r| ==> r[i] in tasks.Values
    {
      var ids := if priority in byPriority then byPriority[priority] else [];
      r := [];
      var i := 0;
      while i < |ids|
        invariant 0 <= i <= |ids|
        invariant r == Resolve(ids[..i], tasks)
      {
        assert ids[..i + 1][..i] == ids[..i];
        if ids[i] in tasks {
          r := r + [tasks[ids[i]]];
        }
        i := i + 1;
      }
      assert ids[..i] == ids;
    }

    /** An unknown ID changes nothing. Otherwise the task goes and each list
        loses its first listing of the ID. */
    method RemoveTask(taskId: string)
      modifies this
      ensures taskId !in old(tasks) ==> tasks == old(tasks) && byPriority == old(byPriority)
      ensures taskId in old(tasks) ==>
        tasks == old(tasks) - {taskId} &&
        byPriority == map p | p in old(byPriority) :: RemoveFirst(old(byPriority)[p], taskId)
      ensures GetTask(taskId) == None
      ensures old(Valid()) ==> Valid()
    {
      if taskId !in tasks {
        return;
      }
      ghost var valid := Valid();
      ghost var start := byPriority;
      ghost var tasks0 := tasks;
      tasks := tasks - {taskId};
      var rest := byPriority.Keys;
      while rest != {}
        invariant rest <= start.Keys && byPriority.Keys == start.Keys
        invariant tasks == tasks0 - {taskId}
        invariant forall p :: p in byPriority ==>
          byPriority[p] == if p in rest then start[p] else RemoveFirst(start[p], taskId)
        decreases rest
      {
        var p :| p in rest;
        byPriority := byPriority[p := RemoveFirst(byPriority[p], taskId)];
        rest := rest - {p};
      }
      assert byPriority == map p | p in start :: RemoveFirst(start[p], taskId);
      if valid {
        RemoveKeepsValid(tasks0, start, taskId);
      }
    }

    /** Every task once, in whatever order the map is visited. */
    method GetAllTasks() returns (r: seq<Task>)
      ensures |r| == |tasks|
      ensures forall i :: 0 <= i < |r| ==> r[i] in tasks.Values
      ensures forall k :: k in tasks ==> tasks[k] in r
    {
      r := [];
      var rest := tasks.Keys;
      while rest != {}
        invariant rest <= tasks.Keys
        invariant |r| + |rest| == |tasks|
        invariant forall i :: 0 <= i < |r| ==> r[i] in tasks.Values
        invariant forall k :: k in tasks && k !in rest ==> tasks[k] in r
        decreases rest
      {
        var k :| k in rest;
        r := r + [tasks[k]];
        rest := rest - {k};
      }
    }

    function Len(): nat
      reads this
    {
      |tasks|
    }

    /** Listings, stale ones included; an unknown priority has none. */
    function LenByPriority(priority: string): nat
      reads this
    {
      if priority in byPriority then |byPriority[priority]| else 0
    }

    /** Each present task is among the tasks of its filing priority. */
    lemma ListedIsFound(taskId: string)
      requires Valid() && taskId in tasks
      ensures tasks[taskId] in Resolve(byPriority[FilingPriority(tasks[taskId])], tasks)
    {
      var ids := byPriority[FilingPriority(tasks[taskId])];
      var i :| 0 <= i < |ids| && ids[i] == taskId;
    }
  }

  /** A task added twice and then removed leaves one listing of its ID behind:
      the list still counts it, and resolving the list skips it. */
  lemma StaleListing(ids: seq<string>, tasks: map<string, Task>, id: string)
    requires id !in ids && id !in tasks
    ensures RemoveFirst(ids + [id] + [id], id) == ids + [id]
    ensures Resolve(ids + [id], tasks) == Resolve(ids, tasks)
  {
    var s := ids + [id] + [id];
    assert IndexOf(s, id) == |ids| by {
      assert s[|ids|] == id;
      assert forall j :: 0 <= j < |ids| ==> s[j] == ids[j];
    }
    assert RemoveAt(s, |ids|) == ids + [id];
    assert (ids + [id])[..|ids + [id]| - 1] == ids;
  }
}
