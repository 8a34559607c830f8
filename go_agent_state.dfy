// state/agent_state.go: the per-agent record the global state hands out by
// pointer. Its task lists hold `ds.Task` pointers that it only appends, drops
// and compares by ID, so they are kept here as the tasks' field values.
// `Workload` is the float copy of the number of current tasks and is kept
// here as that integer.
module GoAgentState {
  import opened Wrappers
  import opened GoTypes
  import GoTask

  /** Every field of an agent state as one value. */
  datatype Fields = Fields(
    name: string, currentTasks: seq<GoTask.Fields>, completedTasks: seq<GoTask.Fields>,
    messages: seq<DsMessage>, performanceMetrics: map<string, real>, workload: int,
    lastActive: nat, executionHistory: seq<ExecutionHistory>, maxTasks: int)

  /** The position of the first task whose ID is `id`, or `|ts|`. */
  function FindId(ts: seq<GoTask.Fields>, id: string): (i: nat)
    ensures i <= |ts|
    ensures i < |ts| ==> ts[i].id == id
    ensures forall j :: 0 <= j < i ==> ts[j].id != id
  {
    if ts == [] then 0 else if ts[0].id == id then 0 else 1 + FindId(ts[1..], id)
  }

  /** The filter of `GetExecutionHistoryByTaskID`. */
  function ForTask(taskId: string): ExecutionHistory -> bool
  {
    (h: ExecutionHistory) => h.taskId == taskId
  }

  /** The filter of `GetExecutionHistoryByTimeRange`: `After(start) && Before(end)`. */
  function Between(start: nat, end: nat): ExecutionHistory -> bool
  {
    (h: ExecutionHistory) => start < h.timestamp < end
  }

  class AgentState {
    var name: string
    var currentTasks: seq<GoTask.Fields>
    var completedTasks: seq<GoTask.Fields>
    var messages: seq<DsMessage>
    var performanceMetrics: map<string, real>
    var workload: int
    var lastActive: nat
    var executionHistory: seq<ExecutionHistory>
    var maxTasks: int

    function Snapshot(): Fields
      reads this
    {
      Fields(name, currentTasks, completedTasks, messages, performanceMetrics, workload,
             lastActive, executionHistory, maxTasks)
    }

    /** The workload is the number of current tasks. */
    predicate Valid()
      reads this
    {
      workload == |currentTasks|
    }

    /** `NewAgentState`: empty lists, workload 0 and room for three tasks. */
    constructor (name: string, now: nat)
      ensures Snapshot() == Fields(name, [], [], [], map[], 0, now, [], 3)
      ensures Valid()
    {
      this.name := name;
      currentTasks, completedTasks, messages := [], [], [];
      performanceMetrics, workload, lastActive := map[], 0, now;
      executionHistory, maxTasks := [], 3;
    }

    /** An agent state whose fields are `f`; `UpdateAgentState` hands the
        updater's result back through this. */
    method Restore(f: Fields)
      modifies this
      ensures Snapshot() == f
    {
      name, currentTasks, completedTasks, messages := f.name, f.currentTasks, f.completedTasks, f.messages;
      performanceMetrics, workload, lastActive := f.performanceMetrics, f.workload, f.lastActive;
      executionHistory, maxTasks := f.executionHistory, f.maxTasks;
    }

    method SetMaxTasks(maxTasks: int)
      modifies this
      ensures Snapshot() == old(Snapshot()).(maxTasks := maxTasks)
    {
      this.maxTasks := maxTasks;
    }

    method SetLastActive(t: nat)
      modifies this
      ensures Snapshot() == old(Snapshot()).(lastActive := t)
    {
      lastActive := t;
    }

    /** Appends without a cap. */
    method AddExecutionHistory(h: ExecutionHistory)
      modifies this
      ensures Snapshot() == old(Snapshot()).(executionHistory := old(executionHistory) + [h])
    {
      executionHistory := executionHistory + [h];
    }

    /** The entries recorded for `taskId`, in recording order. */
    method GetExecutionHistoryByTaskID(taskId: string) returns (r: seq<ExecutionHistory>)
      ensures r == Filter(executionHistory, ForTask(taskId))
      ensures forall i :: 0 <= i < |r| ==> r[i].taskId == taskId && r[i] in executionHistory
    {
      r := [];
      var i := 0;
      while i < |executionHistory|
        invariant 0 <= i <= |executionHistory|
        invariant r == Filter(executionHistory[..i], ForTask(taskId))
      {
        assert executionHistory[..i + 1][..i] == executionHistory[..i];
        if executionHistory[i].taskId == taskId {
          r := r + [executionHistory[i]];
        }
        i := i + 1;
      }
      assert executionHistory[..i] == executionHistory;
    }

    /** The entries stamped strictly between `start` and `end`, in recording order. */
    method GetExecutionHistoryByTimeRange(start: nat, end: nat) returns (r: seq<ExecutionHistory>)
      ensures r == Filter(executionHistory, Between(start, end))
      ensures forall i :: 0 <= i < |r| ==> start < r[i].timestamp < end && r[i] in executionHistory
    {
      r := [];
      var i := 0;
      while i < |executionHistory|
        invariant 0 <= i <= |executionHistory|
        invariant r == Filter(executionHistory[..i], Between(start, end))
      {
        assert executionHistory[..i + 1][..i] == executionHistory[..i];
        if start < executionHistory[i].timestamp < end {
          r := r + [executionHistory[i]];
        }
        i := i + 1;
      }
      assert executionHistory[..i] == executionHistory;
    }

    /** The last `min(count, total)` entries in order; none for `count <= 0`. */
    function GetRecentExecutions(count: int): (r: seq<ExecutionHistory>)
      reads this
      ensures count <= 0 ==> r == []
      ensures count > 0 ==> |r| == Min(count, |executionHistory|)
      ensures r == executionHistory[|executionHistory| - |r|..]
    {
      Recent(executionHistory, count)
    }

    /** Appends the task and recounts the workload. */
    method AddTask(task: GoTask.Fields, now: nat)
      modifies this
      ensures Snapshot() == old(Snapshot()).(currentTasks := old(currentTasks) + [task],
                                             workload := |old(currentTasks)| + 1, lastActive := now)
      ensures Valid()
      ensures GetTotalTasks() == old(GetTotalTasks()) + 1
    {
      currentTasks := currentTasks + [task];
      workload := |currentTasks|;
      lastActive := now;
    }

    /** Moves the first current task with the same ID to the completed list (the
        argument itself is what is appended); an unknown ID changes nothing. */
    method CompleteTask(task: GoTask.Fields, now: nat)
      modifies this
      ensures var i := old(FindId(currentTasks, task.id));
        if i == |old(currentTasks)| then Snapshot() == old(Snapshot())
        else Snapshot() == old(Snapshot()).(currentTasks := RemoveAt(old(currentTasks), i),
                                            completedTasks := old(completedTasks) + [task],
                                            workload := |old(currentTasks)| - 1, lastActive := now)
      ensures old(Valid()) ==> Valid()
      ensures GetTotalTasks() == old(GetTotalTasks())
    {
      var i := Search(currentTasks, task.id);
      if i < |currentTasks| {
        currentTasks := RemoveAt(currentTasks, i);
        completedTasks := completedTasks + [task];
        workload := |currentTasks|;
        lastActive := now;
      }
    }

    method AddMessage(msg: DsMessage, now: nat)
      modifies this
      ensures Snapshot() == old(Snapshot()).(messages := old(messages) + [msg], lastActive := now)
    {
      messages := messages + [msg];
      lastActive := now;
    }

    /** Sets the metric and resets `LastActive` to the zero time. */
    method UpdateMetric(key: string, value: real)
      modifies this
      ensures Snapshot() == old(Snapshot()).(performanceMetrics := old(performanceMetrics)[key := value],
                                             lastActive := 0)
    {
      performanceMetrics := performanceMetrics[key := value];
      lastActive := 0;
    }

    function GetPendingTasks(): nat
      reads this
    {
      |currentTasks|
    }

    function GetCompletedCount(): nat
      reads this
    {
      |completedTasks|
    }

    function GetTotalTasks(): (n: nat)
      reads this
      ensures n == GetPendingTasks() + GetCompletedCount()
    {
      |currentTasks| + |completedTasks|
    }

    /** Current tasks are searched before completed ones. */
    method GetTaskByID(taskId: string) returns (r: Option<GoTask.Fields>)
      ensures var i, k := FindId(currentTasks, taskId), FindId(completedTasks, taskId);
        r == if i < |currentTasks| then Some(currentTasks[i])
             else if k < |completedTasks| then Some(completedTasks[k]) else None
      ensures r.Some? ==> r.value.id == taskId
      ensures r.None? <==> forall t :: t in currentTasks + completedTasks ==> t.id != taskId
    {
      var i := 0;
      while i < |currentTasks|
        invariant 0 <= i <= |currentTasks|
        invariant FindId(currentTasks, taskId) >= i
      {
        if currentTasks[i].id == taskId {
          return Some(currentTasks[i]);
        }
        i := i + 1;
      }
      i := 0;
      while i < |completedTasks|
        invariant 0 <= i <= |completedTasks|
        invariant FindId(completedTasks, taskId) >= i
      {
        if completedTasks[i].id == taskId {
          return Some(completedTasks[i]);
        }
        i := i + 1;
      }
      NoneFound(currentTasks, completedTasks, taskId);
      return None;
    }

    method HasTask(taskId: string) returns (b: bool)
      ensures b <==> exists t :: t in currentTasks + completedTasks && t.id == taskId
    {
      var r := GetTaskByID(taskId);
      b := r.Some?;
      if b {
        assert r.value in currentTasks + completedTasks;
      }
    }

    method ClearCompleted()
      modifies this
      ensures Snapshot() == old(Snapshot()).(completedTasks := [])
    {
      completedTasks := [];
    }

    method ClearCurrent()
      modifies this
      ensures Snapshot() == old(Snapshot()).(currentTasks := [], workload := 0)
      ensures Valid()
    {
      currentTasks := [];
      workload := 0;
    }

    method ClearAll()
      modifies this
      ensures Snapshot() == old(Snapshot()).(currentTasks := [], completedTasks := [], workload := 0)
      ensures Valid() && GetTotalTasks() == 0
    {
      currentTasks := [];
      completedTasks := [];
      workload := 0;
    }
  }

  /** The `for i, t := range ts { if t.ID == id { ... break } }` scan. */
  method Search(ts: seq<GoTask.Fields>, id: string) returns (i: nat)
    ensures i == FindId(ts, id)
  {
    i := 0;
    while i < |ts|
      invariant 0 <= i <= |ts|
      invariant FindId(ts, id) >= i
    {
      if ts[i].id == id {
        return;
      }
      i := i + 1;
    }
  }

  /** Both searches come up empty exactly when no task in either list has the ID. */
  lemma NoneFound(cur: seq<GoTask.Fields>, done: seq<GoTask.Fields>, id: string)
    requires FindId(cur, id) == |cur| && FindId(done, id) == |done|
    ensures forall t :: t in cur + done ==> t.id != id
  {
    forall t | t in cur + done
      ensures t.id != id
    {
      if t in cur {
        var j :| 0 <= j < |cur| && cur[j] == t;
      } else {
        var j :| 0 <= j < |done| && done[j] == t;
      }
    }
  }
}
